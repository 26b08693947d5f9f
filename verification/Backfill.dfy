/**
Filling empty identity fields of sessions from their conversations, restartable after a crash
(ops/backfill_session_identity.py, `audit_and_backfill`, `_backup`, `_replace`;
backend/app/services/session_identity.py, `identity_updates`).
*/
module Backfill {
  import opened Common

  datatype Field = ConversationId | PlatformId | ExternalUserId | OwnerUserId

  // A field that is missing and one that is "" are both empty.
  type Identity = map<Field, string>

  function Get(fields: Identity, f: Field): string {
    if f in fields then fields[f] else ""
  }

  // ------------------------------------------------------------------------------------------
  // identity_updates
  // ------------------------------------------------------------------------------------------

  function Conflicts(current: Identity, authority: Identity): set<Field> {
    set f: Field | f in current && Get(current, f) != "" && Get(current, f) != Get(authority, f)
  }

  function IdentityUpdates(current: Identity, authority: Option<Identity>): Result<Identity, set<Field>> {
    if authority.None? then Ok(map[])
    else if Conflicts(current, authority.value) != {} then Err(Conflicts(current, authority.value))
    else Ok(map f | f in authority.value && Get(current, f) == "" && authority.value[f] != "" :: authority.value[f])
  }

  /** Updates are refused exactly when a field that is filled differs from the conversation. */
  lemma {:induction false} RefusedExactly(current: Identity, authority: Identity)
    ensures IdentityUpdates(current, Some(authority)).Err? <==>
      exists f :: Get(current, f) != "" && Get(current, f) != Get(authority, f)
  {
    if f :| Get(current, f) != "" && Get(current, f) != Get(authority, f) {
      assert f in Conflicts(current, authority);
    } else {
      assert forall f | f in Conflicts(current, authority) :: Get(current, f) != "" && Get(current, f) != Get(authority, f);
    }
  }

  /** Applying the updates fills every empty field with the conversation's value and touches no other; after
      that there is nothing left to update. */
  lemma {:induction false} UpdatesFill(current: Identity, authority: Identity)
    requires IdentityUpdates(current, Some(authority)).Ok?
    ensures var filled := current + IdentityUpdates(current, Some(authority)).value;
      && (forall f :: Get(filled, f) == if Get(current, f) == "" then Get(authority, f) else Get(current, f))
      && (forall f :: Get(filled, f) == Get(authority, f))
      && IdentityUpdates(filled, Some(authority)) == Ok(map[])
  {
    var updates := IdentityUpdates(current, Some(authority)).value;
    var filled := current + updates;
    forall f ensures Get(filled, f) == Get(authority, f) {
      if Get(current, f) != "" {
        assert f !in Conflicts(current, authority);
      }
    }
    assert Conflicts(filled, authority) == {};
  }

  // ------------------------------------------------------------------------------------------
  // One session's files
  // ------------------------------------------------------------------------------------------

  // `rest` is everything else; `readable` is false for a payload that is refused.
  datatype Payload = Payload(identity: Identity, ledgerRevision: nat, rest: string, readable: bool)

  // The digest is injective: it is the payload without its ledger revision.
  datatype Ledger = Ledger(revision: nat, digest: Payload, payload: Payload)

  // A backup is named after the content it was made from.
  datatype Backup = Whole | Partial

  datatype Disk = Disk(
    ledger: Option<Ledger>,
    json: Option<Payload>,
    jsonBackups: map<Payload, Backup>,
    ledgerBackups: map<Payload, Backup>
  )

  datatype Conversation = Conversation(identity: Identity, deleted: bool)

  // What the script only reads.
  datatype Facts = Facts(conversation: Option<Conversation>, activeRun: bool)

  datatype Status = Unchanged | NoConversation | Deleted | Conflict | ActiveRunSkipped | WouldRepair | Repaired | Failed

  datatype Action = BackupJson | BackupLedger | CommitLedger | ReplaceJson

  function Authority(facts: Facts): Option<Identity> {
    if facts.conversation.Some? then Some(facts.conversation.value.identity) else None
  }

  function Updates(p: Option<Payload>, facts: Facts): Result<Identity, set<Field>> {
    if p.None? then Ok(map[]) else IdentityUpdates(p.value.identity, Authority(facts))
  }

  function LedgerPayload(d: Disk): Option<Payload> {
    if d.ledger.Some? then Some(d.ledger.value.payload) else None
  }

  // The status found before anything is written.
  function Judge(d: Disk, facts: Facts): Status {
    if (d.json.Some? && !d.json.value.readable) || (d.ledger.Some? && !d.ledger.value.payload.readable) then Failed
    else if facts.conversation.None? then NoConversation
    else if facts.conversation.value.deleted then Deleted
    else if Updates(d.json, facts).Err? || Updates(LedgerPayload(d), facts).Err? then Conflict
    else if Updates(d.json, facts).value == map[] && Updates(LedgerPayload(d), facts).value == map[] then Unchanged
    else if facts.activeRun then ActiveRunSkipped
    else WouldRepair
  }

  function NeedsLedger(d: Disk, facts: Facts): bool {
    d.ledger.Some? && Updates(LedgerPayload(d), facts).Ok? && Updates(LedgerPayload(d), facts).value != map[]
  }

  function NeedsJson(d: Disk, facts: Facts): bool {
    d.json.Some? && Updates(d.json, facts).Ok? && Updates(d.json, facts).value != map[]
  }

  // What a run that is applied does to this session, in order.
  function Plan(d: Disk, facts: Facts): seq<Action> {
    if Judge(d, facts) != WouldRepair then []
    else
      (if d.json.Some? then [BackupJson] else []) +
      (if NeedsLedger(d, facts) then [BackupLedger, CommitLedger] else []) +
      (if NeedsJson(d, facts) then [ReplaceJson] else [])
  }

  function Save(backups: map<Payload, Backup>, p: Payload): Option<map<Payload, Backup>> {
    if p !in backups then Some(backups[p := Whole])
    else if backups[p] == Whole then Some(backups)
    else None
  }

  function FilledLedger(l: Ledger, updates: Identity): Ledger {
    var body := l.payload.(identity := l.payload.identity + updates);
    Ledger(l.revision + 1, body.(ledgerRevision := 0), body.(ledgerRevision := l.revision + 1))
  }

  function FilledJson(p: Payload, updates: Identity, ledger: Option<Ledger>): Payload {
    p.(identity := p.identity + updates, ledgerRevision := if ledger.Some? then ledger.value.revision else p.ledgerRevision)
  }

  // One action; None is an exception, which ends the session's turn.
  function Perform(d: Disk, facts: Facts, a: Action): Option<Disk> {
    match a
    case BackupJson =>
      if d.json.None? then None
      else
        var saved := Save(d.jsonBackups, d.json.value);
        if saved.Some? then Some(d.(jsonBackups := saved.value)) else None
    case BackupLedger =>
      if d.ledger.None? then None
      else
        var saved := Save(d.ledgerBackups, d.ledger.value.payload);
        if saved.Some? then Some(d.(ledgerBackups := saved.value)) else None
    case CommitLedger =>
      if !NeedsLedger(d, facts) then None
      else Some(d.(ledger := Some(FilledLedger(d.ledger.value, Updates(LedgerPayload(d), facts).value))))
    case ReplaceJson =>
      if !NeedsJson(d, facts) then None
      else Some(d.(json := Some(FilledJson(d.json.value, Updates(d.json, facts).value, d.ledger))))
  }

  // The actions one after the other, up to an exception.
  function Run(d: Disk, facts: Facts, actions: seq<Action>): (Disk, bool)
    decreases |actions|
  {
    if actions == [] then (d, true)
    else
      var next := Perform(d, facts, actions[0]);
      if next.None? then (d, false) else Run(next.value, facts, actions[1..])
  }

  function Rerun(d: Disk, facts: Facts): Disk {
    Run(d, facts, Plan(d, facts)).0
  }

  // ------------------------------------------------------------------------------------------
  // The script
  // ------------------------------------------------------------------------------------------

  type SessionId = string

  datatype Report = Report(sessions: nat, repaired: set<SessionId>, conflicts: set<SessionId>, statuses: map<SessionId, Status>)

  function Outcome(d: Disk, facts: Facts, apply: bool): Status {
    if Judge(d, facts) == WouldRepair && apply then
      if Run(d, facts, Plan(d, facts)).1 then Repaired else Failed
    else Judge(d, facts)
  }

  /** The database rows and files of all sessions. */
  class Stores {
    var disks: map<SessionId, Disk>
    const facts: map<SessionId, Facts>

    constructor (disks: map<SessionId, Disk>, facts: map<SessionId, Facts>)
      ensures this.disks == disks && this.facts == facts
    {
      this.disks, this.facts := disks, facts;
    }

    // One session's repair; `first` is the number of actions before a crash.
    method Repair(sid: SessionId, first: nat) returns (ok: bool)
      requires sid in disks && sid in facts
      modifies this`disks
      ensures var plan := Plan(old(disks)[sid], facts[sid]); var n := if first < |plan| then first else |plan|;
        disks == old(disks)[sid := Run(old(disks)[sid], facts[sid], plan[..n]).0]
        && ok == Run(old(disks)[sid], facts[sid], plan[..n]).1
    {
      var d := disks[sid];
      var plan := Plan(d, facts[sid]);
      var n := if first < |plan| then first else |plan|;
      var actions := plan[..n];
      var i := 0;
      while i < |actions|
        invariant i <= |actions| && disks == old(disks)[sid := d]
        invariant Run(old(disks)[sid], facts[sid], actions) == Run(d, facts[sid], actions[i..])
      {
        assert actions[i..][1..] == actions[i + 1..];
        var next := Perform(d, facts[sid], actions[i]);
        if next.None? {
          return false;
        }
        d := next.value;
        disks := disks[sid := d];
        i := i + 1;
      }
      ok := true;
    }

    /** The whole script: every session gets its own outcome, and nothing else is touched. */
    method BackfillAll(ids: set<SessionId>, apply: bool) returns (report: Report)
      requires ids <= disks.Keys && ids <= facts.Keys
      modifies this`disks
      ensures Processed(old(disks), disks, facts, ids, apply)
      ensures report.sessions == |ids| && Judged(old(disks), report.statuses, facts, ids, apply)
      ensures report.repaired == set sid | sid in ids && report.statuses[sid] == Repaired
      ensures report.conflicts == set sid | sid in ids && report.statuses[sid] == Conflict
    {
      report := Report(0, {}, {}, map[]);
      var todo := ids;
      while todo != {}
        invariant todo <= ids && report.sessions == |ids| - |todo| && Tallied(report)
        invariant Processed(old(disks), disks, facts, ids - todo, apply)
        invariant Judged(old(disks), report.statuses, facts, ids - todo, apply)
        decreases todo
      {
        var sid :| sid in todo;
        OneMoreProcessed(old(disks), disks, report.statuses, facts, ids - todo, apply, sid);
        var status := BackfillOne(sid, apply);
        report := Tally(report, sid, status);
        assert ids - (todo - {sid}) == ids - todo + {sid};
        todo := todo - {sid};
      }
      assert ids - todo == ids;
    }

    /** The repair of one session, stopped by a crash any number of times and started again each time. */
    method RepairThroughCrashes(sid: SessionId, crashes: seq<nat>) returns (ok: bool)
      requires sid in disks && sid in facts && Ready(disks[sid], facts[sid])
      modifies this`disks
      ensures ok && disks == old(disks)[sid := Rerun(old(disks)[sid], facts[sid])]
    {
      ghost var d := disks[sid];
      var i := 0;
      while i < |crashes|
        invariant i <= |crashes| && disks == old(disks)[sid := d]
        invariant Ready(d, facts[sid]) && Rerun(d, facts[sid]) == Rerun(old(disks)[sid], facts[sid])
      {
        d := CrashOnce(sid, crashes[i]);
        i := i + 1;
      }
      WholePlan(d, facts[sid]);
      RunsToGoal(d, facts[sid]);
      ok := Repair(sid, |Plan(disks[sid], facts[sid])|);
    }

    method CrashOnce(sid: SessionId, n: nat) returns (ghost d: Disk)
      requires sid in disks && sid in facts && Ready(disks[sid], facts[sid])
      modifies this`disks
      ensures disks == old(disks)[sid := d]
      ensures Ready(d, facts[sid]) && Rerun(d, facts[sid]) == Rerun(old(disks)[sid], facts[sid])
    {
      ghost var plan := Plan(disks[sid], facts[sid]);
      CrashThenRerun(disks[sid], facts[sid], if n < |plan| then n else |plan|);
      var _ := Repair(sid, n);
      d := disks[sid];
    }

    method BackfillOne(sid: SessionId, apply: bool) returns (status: Status)
      requires sid in disks && sid in facts
      modifies this`disks
      ensures disks == old(disks)[sid := Handled(old(disks)[sid], facts[sid], apply)]
      ensures status == Outcome(old(disks)[sid], facts[sid], apply)
    {
      status := Judge(disks[sid], facts[sid]);
      if status == WouldRepair && apply {
        WholePlan(disks[sid], facts[sid]);
        var ok := Repair(sid, |Plan(disks[sid], facts[sid])|);
        status := if ok then Repaired else Failed;
      }
    }
  }

  function Handled(d: Disk, facts: Facts, apply: bool): Disk {
    if apply then Rerun(d, facts) else d
  }

  predicate Processed(before: map<SessionId, Disk>, after: map<SessionId, Disk>, facts: map<SessionId, Facts>,
                      done: set<SessionId>, apply: bool)
    requires done <= facts.Keys
  {
    && after.Keys == before.Keys
    && forall sid | sid in before :: after[sid] == if sid in done then Handled(before[sid], facts[sid], apply) else before[sid]
  }

  predicate Judged(before: map<SessionId, Disk>, statuses: map<SessionId, Status>, facts: map<SessionId, Facts>,
                   done: set<SessionId>, apply: bool)
    requires done <= facts.Keys && done <= before.Keys
  {
    statuses.Keys == done && forall sid | sid in done :: statuses[sid] == Outcome(before[sid], facts[sid], apply)
  }

  lemma {:induction false} OneMoreProcessed(before: map<SessionId, Disk>, after: map<SessionId, Disk>, statuses: map<SessionId, Status>,
                         facts: map<SessionId, Facts>, done: set<SessionId>, apply: bool, sid: SessionId)
    requires done <= facts.Keys && done <= before.Keys && sid in before && sid in facts && sid !in done
    requires Processed(before, after, facts, done, apply) && Judged(before, statuses, facts, done, apply)
    ensures after[sid] == before[sid]
    ensures Processed(before, after[sid := Handled(before[sid], facts[sid], apply)], facts, done + {sid}, apply)
    ensures Judged(before, statuses[sid := Outcome(before[sid], facts[sid], apply)], facts, done + {sid}, apply)
  {
  }

  predicate Tallied(r: Report) {
    && r.repaired == (set sid | sid in r.statuses && r.statuses[sid] == Repaired)
    && r.conflicts == (set sid | sid in r.statuses && r.statuses[sid] == Conflict)
  }

  function Tally(r: Report, sid: SessionId, status: Status): (r': Report)
    requires Tallied(r) && sid !in r.statuses
    ensures Tallied(r')
  {
    Report(r.sessions + 1,
           if status == Repaired then r.repaired + {sid} else r.repaired,
           if status == Conflict then r.conflicts + {sid} else r.conflicts,
           r.statuses[sid := status])
  }

  lemma {:induction false} WholePlan(d: Disk, facts: Facts)
    ensures Plan(d, facts)[..|Plan(d, facts)|] == Plan(d, facts)
  {
  }

  // ------------------------------------------------------------------------------------------
  // Crash and rerun
  // ------------------------------------------------------------------------------------------

  // No backup that a repair needs was left half written by a crash inside that write.
  predicate Ready(d: Disk, facts: Facts) {
    Judge(d, facts) == WouldRepair ==>
      && (d.json.Some? && d.json.value in d.jsonBackups ==> d.jsonBackups[d.json.value] == Whole)
      && (NeedsLedger(d, facts) && d.ledger.value.payload in d.ledgerBackups ==>
            d.ledgerBackups[d.ledger.value.payload] == Whole)
  }

  // The disk with both backups taken.
  function BackedUp(d: Disk, facts: Facts): Disk {
    d.(jsonBackups := if d.json.Some? then d.jsonBackups[d.json.value := Whole] else d.jsonBackups,
       ledgerBackups := if NeedsLedger(d, facts) then d.ledgerBackups[d.ledger.value.payload := Whole] else d.ledgerBackups)
  }

  function LedgerDone(d: Disk, facts: Facts): Disk {
    if NeedsLedger(d, facts) then d.(ledger := Some(FilledLedger(d.ledger.value, Updates(LedgerPayload(d), facts).value))) else d
  }

  function JsonDone(d: Disk, facts: Facts): Disk {
    if NeedsJson(d, facts) then d.(json := Some(FilledJson(d.json.value, Updates(d.json, facts).value, d.ledger))) else d
  }

  // What a run that is not interrupted leaves.
  function Goal(d: Disk, facts: Facts): Disk {
    if Judge(d, facts) == WouldRepair then JsonDone(LedgerDone(BackedUp(d, facts), facts), facts) else d
  }

  // The disks passed through, one per action done.
  function Stages(d: Disk, facts: Facts): seq<Disk>
    requires Judge(d, facts) == WouldRepair
  {
    var two := BackedUp(d, facts);
    var three := LedgerDone(two, facts);
    [d] + (if d.json.Some? then [JsonSaved(d)] else []) + (if NeedsLedger(d, facts) then [two, three] else []) +
    (if NeedsJson(d, facts) then [JsonDone(three, facts)] else [])
  }

  lemma {:induction false} Chain(d: Disk, facts: Facts, actions: seq<Action>, states: seq<Disk>, n: nat)
    requires n <= |actions| && |states| == |actions| + 1 && states[0] == d
    requires forall i | 0 <= i < |actions| :: Perform(states[i], facts, actions[i]) == Some(states[i + 1])
    ensures Run(d, facts, actions[..n]) == (states[n], true)
    decreases n
  {
    if n > 0 {
      Chain(states[1], facts, actions[1..], states[1..], n - 1);
      assert actions[..n][1..] == actions[1..][..n - 1];
    }
  }

  // Once a payload is filled it needs nothing more.
  lemma {:induction false} LedgerDoneNeedsNothing(d: Disk, facts: Facts)
    requires Judge(d, facts) == WouldRepair
    ensures !NeedsLedger(LedgerDone(d, facts), facts) && Updates(LedgerPayload(LedgerDone(d, facts)), facts) == Ok(map[])
    ensures Judge(LedgerDone(d, facts), facts) == if NeedsJson(d, facts) then WouldRepair else Unchanged
  {
    if d.ledger.Some? {
      UpdatesFill(d.ledger.value.payload.identity, facts.conversation.value.identity);
    }
  }

  lemma {:induction false} JsonDoneNeedsNothing(d: Disk, facts: Facts)
    requires Judge(d, facts) == WouldRepair && !NeedsLedger(d, facts)
    ensures Judge(JsonDone(d, facts), facts) == Unchanged
  {
    if d.json.Some? {
      UpdatesFill(d.json.value.identity, facts.conversation.value.identity);
    }
  }

  lemma {:induction false} BackupsKeepJudgement(d: Disk, e: Disk, facts: Facts)
    requires e.json == d.json && e.ledger == d.ledger
    ensures Judge(e, facts) == Judge(d, facts) && NeedsLedger(e, facts) == NeedsLedger(d, facts)
    ensures NeedsJson(e, facts) == NeedsJson(d, facts)
  {
  }

  function JsonSaved(d: Disk): Disk {
    if d.json.Some? then d.(jsonBackups := d.jsonBackups[d.json.value := Whole]) else d
  }

  lemma {:induction false} SavedAgain(backups: map<Payload, Backup>, p: Payload)
    requires p in backups ==> backups[p] == Whole
    ensures Save(backups, p) == Some(backups[p := Whole])
  {
    assert p in backups ==> backups[p := Whole] == backups;
  }

  lemma {:induction false} BackupsPerform(d: Disk, facts: Facts)
    requires Judge(d, facts) == WouldRepair && Ready(d, facts)
    ensures d.json.Some? ==> Perform(d, facts, BackupJson) == Some(JsonSaved(d))
    ensures NeedsLedger(d, facts) ==> Perform(JsonSaved(d), facts, BackupLedger) == Some(BackedUp(d, facts))
    ensures !NeedsLedger(d, facts) ==> JsonSaved(d) == BackedUp(d, facts)
  {
    if d.json.Some? {
      SavedAgain(d.jsonBackups, d.json.value);
    }
    if NeedsLedger(d, facts) {
      SavedAgain(d.ledgerBackups, d.ledger.value.payload);
    }
  }

  lemma {:induction false} WritesPerform(d: Disk, facts: Facts)
    requires Judge(d, facts) == WouldRepair
    ensures NeedsLedger(d, facts) ==> Perform(d, facts, CommitLedger) == Some(LedgerDone(d, facts))
    ensures NeedsJson(LedgerDone(d, facts), facts) ==>
      Perform(LedgerDone(d, facts), facts, ReplaceJson) == Some(JsonDone(LedgerDone(d, facts), facts))
    ensures NeedsJson(LedgerDone(d, facts), facts) == NeedsJson(d, facts)
  {
  }

  lemma {:induction false} StagesCount(d: Disk, facts: Facts)
    requires Judge(d, facts) == WouldRepair
    ensures |Stages(d, facts)| == |Plan(d, facts)| + 1
  {
  }

  // Each stage is one action further.
  lemma {:induction false} StagesLead(d: Disk, facts: Facts)
    requires Judge(d, facts) == WouldRepair && Ready(d, facts)
    ensures |Stages(d, facts)| == |Plan(d, facts)| + 1
    ensures forall i | 0 <= i < |Plan(d, facts)| ::
      Perform(Stages(d, facts)[i], facts, Plan(d, facts)[i]) == Some(Stages(d, facts)[i + 1])
  {
    StagesCount(d, facts);
    BackupsPerform(d, facts);
    BackupsKeepJudgement(d, BackedUp(d, facts), facts);
    WritesPerform(BackedUp(d, facts), facts);
  }

  lemma {:induction false} GoalFromBackups(d: Disk, facts: Facts, e: Disk)
    requires Judge(d, facts) == WouldRepair && Ready(d, facts)
    requires e == d || e == JsonSaved(d) || e == BackedUp(d, facts)
    ensures Goal(e, facts) == Goal(d, facts) && Ready(e, facts)
  {
    BackupsKeepJudgement(d, e, facts);
    assert BackedUp(e, facts) == BackedUp(d, facts);
  }

  lemma {:induction false} GoalFromLedger(d: Disk, facts: Facts)
    requires Judge(d, facts) == WouldRepair && d == BackedUp(d, facts)
    ensures Goal(LedgerDone(d, facts), facts) == Goal(d, facts) && Ready(LedgerDone(d, facts), facts)
  {
    LedgerDoneNeedsNothing(d, facts);
    var three := LedgerDone(d, facts);
    assert d.json.Some? ==> d.json.value in d.jsonBackups && d.jsonBackups[d.json.value] == Whole;
    assert BackedUp(three, facts) == three;
    assert LedgerDone(three, facts) == three;
  }

  lemma {:induction false} GoalFromJson(d: Disk, facts: Facts)
    requires Judge(d, facts) == WouldRepair && NeedsJson(d, facts)
    ensures var four := JsonDone(LedgerDone(d, facts), facts); Goal(four, facts) == four && Ready(four, facts)
  {
    LedgerDoneNeedsNothing(d, facts);
    JsonDoneNeedsNothing(LedgerDone(d, facts), facts);
  }

  /** Every stage has the same goal. */
  lemma {:induction false} StagesHaveOneGoal(d: Disk, facts: Facts, e: Disk)
    requires Judge(d, facts) == WouldRepair && Ready(d, facts) && e in Stages(d, facts)
    ensures Goal(e, facts) == Goal(d, facts) && Ready(e, facts)
  {
    var two := BackedUp(d, facts);
    GoalFromBackups(d, facts, two);
    assert BackedUp(two, facts) == two by {
      BackupsKeepJudgement(d, two, facts);
    }
    if e == d || e == JsonSaved(d) || e == two {
      GoalFromBackups(d, facts, e);
    } else if e == LedgerDone(two, facts) {
      BackupsKeepJudgement(d, two, facts);
      GoalFromLedger(two, facts);
    } else {
      BackupsKeepJudgement(d, two, facts);
      GoalFromJson(two, facts);
    }
  }

  lemma {:induction false} RunsToGoal(d: Disk, facts: Facts)
    requires Ready(d, facts)
    ensures Rerun(d, facts) == Goal(d, facts) && Run(d, facts, Plan(d, facts)).1
  {
    if Judge(d, facts) == WouldRepair {
      StagesLead(d, facts);
      var plan := Plan(d, facts);
      Chain(d, facts, plan, Stages(d, facts), |plan|);
      assert plan[..|plan|] == plan;
    }
  }

  /** Stopping after any number of actions and running again gives the same ledger and files, backups
      included, as one run that is not interrupted. */
  lemma {:induction false} CrashThenRerun(d: Disk, facts: Facts, n: nat)
    requires Ready(d, facts) && n <= |Plan(d, facts)|
    ensures Ready(Run(d, facts, Plan(d, facts)[..n]).0, facts)
    ensures Rerun(Run(d, facts, Plan(d, facts)[..n]).0, facts) == Rerun(d, facts)
  {
    var plan := Plan(d, facts);
    if Judge(d, facts) == WouldRepair {
      StagesLead(d, facts);
      Chain(d, facts, plan, Stages(d, facts), n);
      StagesHaveOneGoal(d, facts, Stages(d, facts)[n]);
      RunsToGoal(Stages(d, facts)[n], facts);
    } else {
      assert plan[..n] == [];
    }
    RunsToGoal(d, facts);
  }

  // A run stopped after n actions, or finished if it has fewer.
  function Stopped(d: Disk, facts: Facts, n: nat): Disk {
    var plan := Plan(d, facts);
    Run(d, facts, plan[..if n < |plan| then n else |plan|]).0
  }

  function StoppedAgain(d: Disk, facts: Facts, crashes: seq<nat>): Disk
    decreases |crashes|
  {
    if crashes == [] then d else StoppedAgain(Stopped(d, facts, crashes[0]), facts, crashes[1..])
  }

  /** The same for any number of interrupted runs before the one that finishes. */
  lemma {:induction false} ManyCrashesThenRerun(d: Disk, facts: Facts, crashes: seq<nat>)
    requires Ready(d, facts)
    ensures Rerun(StoppedAgain(d, facts, crashes), facts) == Rerun(d, facts)
    decreases |crashes|
  {
    if crashes != [] {
      var plan := Plan(d, facts);
      CrashThenRerun(d, facts, if crashes[0] < |plan| then crashes[0] else |plan|);
      ManyCrashesThenRerun(Stopped(d, facts, crashes[0]), facts, crashes[1..]);
    }
  }

  /** A finished run leaves nothing to do: the next one writes nothing. */
  lemma {:induction false} NextRunWritesNothing(d: Disk, facts: Facts)
    requires Ready(d, facts)
    ensures Plan(Rerun(d, facts), facts) == []
  {
    RunsToGoal(d, facts);
    if Judge(d, facts) == WouldRepair {
      var two := BackedUp(d, facts);
      BackupsKeepJudgement(d, two, facts);
      LedgerDoneNeedsNothing(two, facts);
      if NeedsJson(d, facts) {
        JsonDoneNeedsNothing(LedgerDone(two, facts), facts);
      }
    }
  }

  // Only empty identity fields and the revision bookkeeping differ.
  predicate OnlyFilled(p: Payload, q: Payload) {
    q.rest == p.rest && q.readable == p.readable && forall f | f in p.identity && p.identity[f] != "" :: Get(q.identity, f) == p.identity[f]
  }

  /** What a repair may change: empty identity fields, the ledger's revision and digest, and the ledger revision
      noted in the payloads; the ledger moves by exactly one revision if its payload needed filling. */
  lemma {:induction false} RepairOnlyFills(d: Disk, facts: Facts)
    requires Ready(d, facts)
    ensures var e := Rerun(d, facts);
      && (d.json.Some? <==> e.json.Some?) && (d.json.Some? ==> OnlyFilled(d.json.value, e.json.value))
      && (d.ledger.Some? <==> e.ledger.Some?)
      && (d.ledger.Some? ==>
            && OnlyFilled(d.ledger.value.payload, e.ledger.value.payload)
            && (e.ledger == d.ledger || e.ledger.value.revision == d.ledger.value.revision + 1 == e.ledger.value.payload.ledgerRevision))
      && (d.json.Some? && d.ledger.Some? && e.json != d.json ==> e.json.value.ledgerRevision == e.ledger.value.revision)
  {
    RunsToGoal(d, facts);
    if Judge(d, facts) == WouldRepair {
      if d.json.Some? {
        UpdatesFill(d.json.value.identity, facts.conversation.value.identity);
      }
      if d.ledger.Some? {
        UpdatesFill(d.ledger.value.payload.identity, facts.conversation.value.identity);
      }
    }
  }

  /** A repair goes through exactly when no backup it needs was left half written; otherwise it fails and
      leaves ledger and file as they are, on this run and every later one. */
  lemma {:induction false} RepairFailsExactly(d: Disk, facts: Facts)
    ensures Run(d, facts, Plan(d, facts)).1 <==> Ready(d, facts)
    ensures !Ready(d, facts) ==>
      Rerun(d, facts).ledger == d.ledger && Rerun(d, facts).json == d.json && !Ready(Rerun(d, facts), facts)
  {
    if Ready(d, facts) {
      RunsToGoal(d, facts);
    } else {
      var plan := Plan(d, facts);
      if d.json.Some? && d.json.value in d.jsonBackups && d.jsonBackups[d.json.value] == Partial {
        assert Perform(d, facts, plan[0]) == None;
      } else {
        PartialLedgerBackup(d, facts);
      }
    }
  }

  lemma {:induction false} PartialLedgerBackup(d: Disk, facts: Facts)
    requires Judge(d, facts) == WouldRepair && NeedsLedger(d, facts)
    requires d.ledger.value.payload in d.ledgerBackups && d.ledgerBackups[d.ledger.value.payload] == Partial
    requires d.json.Some? && d.json.value in d.jsonBackups ==> d.jsonBackups[d.json.value] == Whole
    ensures Run(d, facts, Plan(d, facts)) == (JsonSaved(d), false) && !Ready(JsonSaved(d), facts)
  {
    var plan := Plan(d, facts);
    BackupsKeepJudgement(d, JsonSaved(d), facts);
    assert Perform(JsonSaved(d), facts, BackupLedger) == None;
    if d.json.Some? {
      SavedAgain(d.jsonBackups, d.json.value);
      assert plan[0] == BackupJson && plan[1..][0] == BackupLedger;
    } else {
      assert plan[0] == BackupLedger;
    }
  }

  /** Whatever the session, a backup of its file that a crash left half written stops every later run. */
  lemma {:induction false} HalfWrittenBackupBlocks(d: Disk, facts: Facts, e: Disk)
    requires Judge(d, facts) == WouldRepair && d.json.Some?
    requires e == d.(jsonBackups := d.jsonBackups[d.json.value := Partial])
    ensures Rerun(e, facts) == e && !Run(e, facts, Plan(e, facts)).1
  {
    BackupsKeepJudgement(d, e, facts);
    assert Plan(e, facts)[0] == BackupJson && Perform(e, facts, BackupJson) == None;
  }

  // ------------------------------------------------------------------------------------------
  // What becomes of a session
  // ------------------------------------------------------------------------------------------

  // A field of the payload is filled with something else than the conversation's value.
  predicate Differs(p: Option<Payload>, authority: Identity) {
    p.Some? && exists f :: Get(p.value.identity, f) != "" && Get(p.value.identity, f) != Get(authority, f)
  }

  // An empty field of the payload has a value in the conversation.
  predicate Lacks(p: Option<Payload>, authority: Identity) {
    p.Some? && exists f :: Get(p.value.identity, f) == "" && Get(authority, f) != ""
  }

  predicate Unreadable(p: Option<Payload>) {
    p.Some? && !p.value.readable
  }

  lemma {:induction false} UpdatesAre(p: Option<Payload>, facts: Facts)
    requires facts.conversation.Some?
    ensures Updates(p, facts).Err? <==> Differs(p, facts.conversation.value.identity)
    ensures Updates(p, facts).Ok? ==> (Updates(p, facts).value != map[] <==> Lacks(p, facts.conversation.value.identity))
  {
    if p.Some? {
      var current, authority := p.value.identity, facts.conversation.value.identity;
      RefusedExactly(current, authority);
      if Updates(p, facts).Ok? {
        var updates := Updates(p, facts).value;
        if f :| f in updates {
          assert Get(current, f) == "" && Get(authority, f) != "";
        } else {
          assert updates == map[];
          forall f ensures !(Get(current, f) == "" && Get(authority, f) != "") {
            assert f !in updates;
          }
        }
      }
    }
  }

  /** The status of a session, in the order of the checks. */
  lemma {:induction false} StatusMeans(d: Disk, facts: Facts, apply: bool)
    ensures Outcome(d, facts, apply) ==
      if Unreadable(d.json) || Unreadable(LedgerPayload(d)) then Failed
      else if facts.conversation.None? then NoConversation
      else if facts.conversation.value.deleted then Deleted
      else
        var authority := facts.conversation.value.identity;
        if Differs(d.json, authority) || Differs(LedgerPayload(d), authority) then Conflict
        else if !Lacks(d.json, authority) && !Lacks(LedgerPayload(d), authority) then Unchanged
        else if facts.activeRun then ActiveRunSkipped
        else if !apply then WouldRepair
        else if Ready(d, facts) then Repaired
        else Failed
  {
    if facts.conversation.Some? {
      UpdatesAre(d.json, facts);
      UpdatesAre(LedgerPayload(d), facts);
    }
    RepairFailsExactly(d, facts);
  }

  // Every field has the conversation's value.
  predicate Matches(p: Option<Payload>, authority: Identity) {
    p.Some? ==> forall f :: Get(p.value.identity, f) == Get(authority, f)
  }

  /** A session that counts as repaired has the conversation's identity in its ledger and in its file, and what was
      in them is backed up whole; any other session is as it was, up to backups. */
  lemma {:induction false} RepairedMeans(d: Disk, facts: Facts, apply: bool)
    ensures var e := Handled(d, facts, apply);
      if Outcome(d, facts, apply) == Repaired then
        && facts.conversation.Some?
        && Matches(e.json, facts.conversation.value.identity) && Matches(LedgerPayload(e), facts.conversation.value.identity)
        && (d.json.Some? ==> d.json.value in e.jsonBackups && e.jsonBackups[d.json.value] == Whole)
        && (e.ledger != d.ledger ==> d.ledger.Some? && LedgerPayload(d).value in e.ledgerBackups && e.ledgerBackups[LedgerPayload(d).value] == Whole)
      else e.json == d.json && e.ledger == d.ledger
  {
    RepairFailsExactly(d, facts);
    if Outcome(d, facts, apply) == Repaired {
      RunsToGoal(d, facts);
      GoalMatches(d, facts);
    }
  }

  lemma {:induction false} GoalMatches(d: Disk, facts: Facts)
    requires Judge(d, facts) == WouldRepair
    ensures Matches(Goal(d, facts).json, facts.conversation.value.identity)
    ensures Matches(LedgerPayload(Goal(d, facts)), facts.conversation.value.identity)
  {
    if d.json.Some? {
      UpdatesFill(d.json.value.identity, facts.conversation.value.identity);
    }
    if d.ledger.Some? {
      UpdatesFill(d.ledger.value.payload.identity, facts.conversation.value.identity);
    }
  }
}
