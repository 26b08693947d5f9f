/**
Publishing to the extension store (backend/app/services/extension_store_service.py, the transactions of
`publish` and `manage` and the usage count of `install`).

Transactions are serial, so each call is one step.  The rows of a version table are kept in the order in
which they were inserted.
*/
module Publishing {
  import opened Common

  type EntryId = string
  type Version = string
  type Author = string

  datatype Policy = CreatorOnly | PlatformMembers

  datatype Status = Active | Unlisted

  // Everything the fingerprint of a request is made of; fingerprints are taken to be injective.
  datatype Fingerprint = Fingerprint(raw: string, name: string, description: string, policy: Policy, author: Author,
                                     base: Option<Version>, expected: Option<nat>)

  datatype VersionRow = VersionRow(version: Version, base: Option<Version>, key: string, fingerprint: Fingerprint)

  datatype Entry = Entry(author: Author, platform: Option<nat>, kind: string, name: string, description: string,
                         policy: Policy, status: Status, revision: nat, current: Version, usage: nat)

  // `audit` holds the revisions of the entry's audit events.
  datatype Record = Record(entry: Entry, rows: seq<VersionRow>, audit: seq<nat>)

  // `valid` and `identityOk` stand for the checks of the arguments alone; an empty key is none.
  datatype Request = Request(valid: bool, identityOk: bool, id: EntryId, kind: string, name: string, description: string,
                             version: Version, raw: string, platform: Option<nat>, author: Author, policy: Option<Policy>,
                             expected: Option<nat>, base: Option<Version>, key: string)

  datatype Failure = Invalid | Forbidden | NotActive | VersionConflict | VersionExists | NameExists | NotFound | RevisionConflict

  datatype Outcome = Changed | Idempotent

  type Records = map<EntryId, Record>

  function Lookup(records: Records, id: EntryId): Option<Record> {
    if id in records then Some(records[id]) else None
  }

  // Position of the row of a version, or the number of rows.
  function RowOf(rows: seq<VersionRow>, v: Version): (n: nat)
    ensures n <= |rows|
    ensures n < |rows| ==> rows[n].version == v
    ensures forall i | 0 <= i < n :: rows[i].version != v
  {
    if rows == [] then 0 else if rows[0].version == v then 0 else 1 + RowOf(rows[1..], v)
  }

  predicate HasVersion(rows: seq<VersionRow>, v: Version) {
    RowOf(rows, v) < |rows|
  }

  // The policy a request ends up with.
  function PolicyFor(existing: Option<Entry>, r: Request): Policy {
    if existing.None? then (if r.policy.Some? then r.policy.value else CreatorOnly)
    else if r.author != existing.value.author then existing.value.policy
    else if r.policy.Some? then r.policy.value
    else existing.value.policy
  }

  function FingerprintOf(existing: Option<Entry>, r: Request): Fingerprint {
    Fingerprint(r.raw, r.name, r.description, PolicyFor(existing, r), r.author, r.base, r.expected)
  }

  predicate MayPublish(e: Entry, r: Request) {
    e.platform == r.platform && e.kind == r.kind && (e.author == r.author || e.policy == PlatformMembers)
  }

  predicate IsRetry(record: Record, r: Request) {
    && r.key != "" && HasVersion(record.rows, r.version)
    && var row := record.rows[RowOf(record.rows, r.version)];
       row.key == r.key && row.fingerprint == FingerprintOf(Some(record.entry), r)
  }

  // A platform's entries differ in author, kind or name.
  predicate NameTaken(records: Records, r: Request) {
    r.platform.Some? && exists id :: id in records && var e := records[id].entry;
      e.platform == r.platform && e.author == r.author && e.kind == r.kind && e.name == r.name
  }

  // What a publish request meets.
  function Verdict(records: Records, r: Request): Result<Outcome, Failure> {
    if !r.valid then Err(Invalid)
    else if !r.identityOk then Err(Forbidden)
    else if r.id !in records then (if NameTaken(records, r) then Err(NameExists) else Ok(Changed))
    else
      var record := records[r.id];
      if !MayPublish(record.entry, r) then Err(Forbidden)
      else if record.entry.status != Active then Err(NotActive)
      else if IsRetry(record, r) then Ok(Idempotent)
      else if r.expected != Some(record.entry.revision) || r.base != Some(record.entry.current) then Err(VersionConflict)
      else if HasVersion(record.rows, r.version) then Err(VersionExists)
      else Ok(Changed)
  }

  function NewRow(existing: Option<Entry>, r: Request): VersionRow {
    VersionRow(r.version, r.base, r.key, FingerprintOf(existing, r))
  }

  function Published(existing: Option<Record>, r: Request): Record {
    match existing
    case None =>
      Record(Entry(r.author, r.platform, r.kind, r.name, r.description, PolicyFor(None, r), Active, 1, r.version, 0),
             [NewRow(None, r)], [1])
    case Some(before) =>
      var e := before.entry;
      Record(e.(description := r.description, current := r.version, revision := e.revision + 1, policy := PolicyFor(Some(e), r)),
             before.rows + [NewRow(Some(e), r)], before.audit + [e.revision + 1])
  }

  // `allowed`: the actor is the creator or an administrator.
  datatype Change = Change(id: EntryId, platform: nat, allowed: bool, expected: nat, policy: Option<Policy>, status: Option<Status>)

  function Managed(before: Record, c: Change): Record {
    var e := before.entry;
    Record(e.(policy := if c.policy.Some? then c.policy.value else e.policy,
              status := if c.status.Some? then c.status.value else e.status, revision := e.revision + 1),
           before.rows, before.audit + [e.revision + 1])
  }

  function ManageVerdict(existing: Option<Record>, c: Change): Result<Outcome, Failure> {
    if existing.None? || existing.value.entry.platform != Some(c.platform) then Err(NotFound)
    else if !c.allowed then Err(Forbidden)
    else if existing.value.entry.revision != c.expected then Err(RevisionConflict)
    else Ok(Changed)
  }

  datatype Step = Publish(request: Request) | Manage(change: Change) | Install(id: EntryId)

  function Next(records: Records, m: Step): Records {
    match m
    case Publish(r) =>
      if Verdict(records, r) == Ok(Changed) then records[r.id := Published(Lookup(records, r.id), r)] else records
    case Manage(c) =>
      if ManageVerdict(Lookup(records, c.id), c).Ok? then records[c.id := Managed(records[c.id], c)] else records
    case Install(id) =>
      if id in records then
        var e := records[id].entry;
        records[id := records[id].(entry := e.(usage := e.usage + 1))]
      else records
  }

  /** The tables of the store. */
  class ExtensionStore {
    var records: Records

    constructor ()
      ensures records == map[]
    {
      records := map[];
    }

    method FindRow(rows: seq<VersionRow>, v: Version) returns (n: nat)
      ensures n == RowOf(rows, v)
    {
      n := 0;
      while n < |rows|
        invariant n <= |rows| && RowOf(rows, v) == n + RowOf(rows[n..], v)
      {
        if rows[n].version == v {
          return;
        }
        assert rows[n..][1..] == rows[n + 1..];
        n := n + 1;
      }
    }

    method Submit(r: Request) returns (result: Result<Outcome, Failure>)
      modifies this
      ensures result == Verdict(old(records), r)
      ensures records == Next(old(records), Publish(r))
    {
      if !r.valid {
        return Err(Invalid);
      }
      if !r.identityOk {
        return Err(Forbidden);
      }
      if r.id !in records {
        if NameTaken(records, r) {
          return Err(NameExists);
        }
        records := records[r.id := Published(None, r)];
        return Ok(Changed);
      }
      var record := records[r.id];
      var e := record.entry;
      if !MayPublish(e, r) {
        return Err(Forbidden);
      }
      if e.status != Active {
        return Err(NotActive);
      }
      var n := FindRow(record.rows, r.version);
      if n < |record.rows| && r.key != "" && record.rows[n].key == r.key && record.rows[n].fingerprint == FingerprintOf(Some(e), r) {
        return Ok(Idempotent);
      }
      if r.expected != Some(e.revision) || r.base != Some(e.current) {
        return Err(VersionConflict);
      }
      if n < |record.rows| {
        return Err(VersionExists);
      }
      records := records[r.id := Published(Some(record), r)];
      result := Ok(Changed);
    }

    method Administer(c: Change) returns (result: Result<Outcome, Failure>)
      modifies this
      ensures result == ManageVerdict(Lookup(old(records), c.id), c)
      ensures records == Next(old(records), Manage(c))
    {
      if c.id !in records || records[c.id].entry.platform != Some(c.platform) {
        return Err(NotFound);
      }
      if !c.allowed {
        return Err(Forbidden);
      }
      if records[c.id].entry.revision != c.expected {
        return Err(RevisionConflict);
      }
      records := records[c.id := Managed(records[c.id], c)];
      result := Ok(Changed);
    }

    method CountInstall(id: EntryId)
      modifies this
      ensures records == Next(old(records), Install(id))
    {
      if id in records {
        var e := records[id].entry;
        records := records[id := records[id].(entry := e.(usage := e.usage + 1))];
      }
    }
  }

  // ------------------------------------------------------------------------------------------
  // What every step keeps
  // ------------------------------------------------------------------------------------------

  // Versions are distinct, each but the first is based on the one before it, and the last is current.
  predicate Linear(rows: seq<VersionRow>, current: Version) {
    && rows != [] && rows[|rows| - 1].version == current
    && (forall i, j | 0 <= i < j < |rows| :: rows[i].version != rows[j].version)
    && (forall i | 1 <= i < |rows| :: rows[i].base == Some(rows[i - 1].version))
  }

  // One audit event for each revision.
  predicate Counted(audit: seq<nat>, revision: nat) {
    |audit| == revision && forall i | 0 <= i < |audit| :: audit[i] == i + 1
  }

  predicate Sound(record: Record) {
    Linear(record.rows, record.entry.current) && Counted(record.audit, record.entry.revision)
  }

  predicate AllSound(records: Records) {
    forall id | id in records :: Sound(records[id])
  }

  lemma {:induction false} PublishKeepsSound(records: Records, r: Request)
    requires AllSound(records) && Verdict(records, r) == Ok(Changed)
    ensures Sound(Published(Lookup(records, r.id), r))
  {
  }

  lemma {:induction false} StepKeepsSound(records: Records, m: Step)
    requires AllSound(records)
    ensures AllSound(Next(records, m))
  {
    match m
    case Publish(r) =>
      if Verdict(records, r) == Ok(Changed) {
        PublishKeepsSound(records, r);
      }
    case _ =>
  }

  function After(records: Records, steps: seq<Step>): Records
    decreases |steps|
  {
    if steps == [] then records else After(Next(records, steps[0]), steps[1..])
  }

  // Which steps change an entry's revision.
  predicate Touches(records: Records, m: Step, id: EntryId) {
    match m
    case Publish(r) => r.id == id && Verdict(records, r) == Ok(Changed)
    case Manage(c) => c.id == id && ManageVerdict(Lookup(records, id), c).Ok?
    case Install(_) => false
  }

  function Touched(records: Records, steps: seq<Step>, id: EntryId): nat
    decreases |steps|
  {
    if steps == [] then 0
    else (if Touches(records, steps[0], id) then 1 else 0) + Touched(Next(records, steps[0]), steps[1..], id)
  }

  function RevisionOf(records: Records, id: EntryId): nat {
    if id in records then records[id].entry.revision else 0
  }

  predicate Extends(rows: seq<VersionRow>, rows': seq<VersionRow>) {
    rows <= rows'
  }

  lemma {:induction false} OneStep(records: Records, m: Step, id: EntryId)
    requires AllSound(records)
    ensures RevisionOf(Next(records, m), id) == RevisionOf(records, id) + if Touches(records, m, id) then 1 else 0
    ensures id in records ==> id in Next(records, m) && Extends(records[id].rows, Next(records, m)[id].rows)
  {
  }

  /** Over any order of transactions: an entry's revision is the number of changes made to it since it was
      created, each with one audit event; version rows are only ever added; and the rows stay one line. */
  lemma {:induction false} RevisionsCountChanges(records: Records, steps: seq<Step>, id: EntryId)
    requires AllSound(records)
    ensures AllSound(After(records, steps))
    ensures RevisionOf(After(records, steps), id) == RevisionOf(records, id) + Touched(records, steps, id)
    ensures id in records ==> id in After(records, steps) && Extends(records[id].rows, After(records, steps)[id].rows)
    decreases |steps|
  {
    if steps != [] {
      StepKeepsSound(records, steps[0]);
      OneStep(records, steps[0], id);
      RevisionsCountChanges(Next(records, steps[0]), steps[1..], id);
    }
  }

  function Installs(steps: seq<Step>, id: EntryId): nat
    decreases |steps|
  {
    if steps == [] then 0 else (if steps[0] == Install(id) then 1 else 0) + Installs(steps[1..], id)
  }

  /** The usage of an entry is the number of its installations, and nothing else touches it. */
  lemma {:induction false} UsageCountsInstalls(records: Records, steps: seq<Step>, id: EntryId)
    requires id in records
    ensures id in After(records, steps)
    ensures After(records, steps)[id].entry.usage == records[id].entry.usage + Installs(steps, id)
    decreases |steps|
  {
    if steps != [] {
      UsageCountsInstalls(Next(records, steps[0]), steps[1..], id);
    }
  }

  /** Starting from an empty store, at any time the rows of every entry are one line and its revisions have their events. */
  lemma {:induction false} StoreStaysSound(steps: seq<Step>, id: EntryId)
    requires id in After(map[], steps)
    ensures var record := After(map[], steps)[id];
      && record.rows != [] && record.rows[|record.rows| - 1].version == record.entry.current
      && record.entry.revision == Touched(map[], steps, id) == |record.audit|
      && forall i | 0 <= i < |record.audit| :: record.audit[i] == i + 1
  {
    RevisionsCountChanges(map[], steps, id);
  }

  // ------------------------------------------------------------------------------------------
  // Who gets through
  // ------------------------------------------------------------------------------------------

  /** A first publication goes through exactly unless the platform has an entry of that author, kind and name; the
      entry is the author's, listed, at revision 1, and for the author alone unless asked otherwise. */
  lemma {:induction false} FirstPublicationIsTaken(records: Records, r: Request)
    requires r.valid && r.identityOk && r.id !in records
    ensures Next(records, Publish(r)) != records <==>
      r.platform.None? || forall id | id in records :: var e := records[id].entry;
        (e.platform, e.author, e.kind, e.name) != (r.platform, r.author, r.kind, r.name)
    ensures Next(records, Publish(r)) != records ==>
      && Next(records, Publish(r)).Keys == records.Keys + {r.id}
      && var record := Next(records, Publish(r))[r.id];
         && record.entry == Entry(r.author, r.platform, r.kind, r.name, r.description,
                                  if r.policy == Some(PlatformMembers) then PlatformMembers else CreatorOnly,
                                  Active, 1, r.version, 0)
         && |record.rows| == 1 && record.rows[0].version == r.version && record.rows[0].base == r.base
  {
    if NameTaken(records, r) {
      var id :| id in records && var e := records[id].entry;
        e.platform == r.platform && e.author == r.author && e.kind == r.kind && e.name == r.name;
      assert !((records[id].entry.platform, records[id].entry.author, records[id].entry.kind, records[id].entry.name)
               != (r.platform, r.author, r.kind, r.name));
    } else {
      assert r.id in Next(records, Publish(r)) && (r.policy.Some? ==> r.policy.value.CreatorOnly? || r.policy.value.PlatformMembers?);
      forall id | id in records && r.platform.Some?
        ensures var e := records[id].entry; (e.platform, e.author, e.kind, e.name) != (r.platform, r.author, r.kind, r.name)
      {
        var e := records[id].entry;
        assert !(e.platform == r.platform && e.author == r.author && e.kind == r.kind && e.name == r.name);
      }
    }
  }

  // The request names the entry as it is, and a version it does not have.
  predicate UpToDate(record: Record, r: Request) {
    && r.expected == Some(record.entry.revision) && r.base == Some(record.entry.current)
    && forall i | 0 <= i < |record.rows| :: record.rows[i].version != r.version
  }

  predicate MaintainedBy(e: Entry, author: Author) {
    author == e.author || e.policy == PlatformMembers
  }

  /** A later publication changes the entry exactly if its maintainer sends it up to date to a listed entry of the
      platform and kind.  It adds one version; only the creator can change the policy by it. */
  lemma {:induction false} PublicationIsTaken(records: Records, r: Request)
    requires r.valid && r.identityOk && r.id in records
    ensures var record := records[r.id]; var e := record.entry;
      Next(records, Publish(r)) != records <==>
        && (e.platform, e.kind) == (r.platform, r.kind) && MaintainedBy(e, r.author)
        && e.status == Active && UpToDate(record, r)
    ensures Next(records, Publish(r)) != records ==>
      var record := records[r.id]; var e := record.entry;
      && Next(records, Publish(r)).Keys == records.Keys
      && (forall id | id in records && id != r.id :: Next(records, Publish(r))[id] == records[id])
      && var now := Next(records, Publish(r))[r.id];
         && now.entry == e.(description := r.description, current := r.version, revision := e.revision + 1,
                            policy := if r.author == e.author && r.policy.Some? then r.policy.value else e.policy)
         && now.rows == record.rows + [now.rows[|record.rows|]]
  {
    var record := records[r.id];
    if UpToDate(record, r) {
      assert !HasVersion(record.rows, r.version);
    } else if r.expected == Some(record.entry.revision) && r.base == Some(record.entry.current) {
      assert HasVersion(record.rows, r.version);
    }
    var next := Published(Some(record), r);
    assert next.entry.revision != record.entry.revision;
  }

  /** Optimistic concurrency: of two requests that were made from one revision of an entry, the second changes
      nothing, whatever lies between and whoever sent it. */
  lemma {:induction false} OneOfTwoIsTaken(records: Records, first: Step, steps: seq<Step>, second: Step, id: EntryId, revision: nat)
    requires AllSound(records) && id in records && records[id].entry.revision == revision && Touches(records, first, id)
    requires match second
      case Publish(r) => r.id == id && r.expected == Some(revision)
      case Manage(c) => c.id == id && c.expected == revision
      case Install(_) => false
    ensures var later := After(Next(records, first), steps); Next(later, second) == later
  {
    StepKeepsSound(records, first);
    OneStep(records, first, id);
    RevisionsCountChanges(Next(records, first), steps, id);
  }

  /** A management change is carried out exactly if it is allowed, for this platform and up to date; what it does
      not name stays. */
  lemma {:induction false} ChangeIsTaken(records: Records, c: Change)
    requires c.id in records
    ensures var e := records[c.id].entry;
      Next(records, Manage(c)) ==
        if c.allowed && e.platform == Some(c.platform) && e.revision == c.expected then
          records[c.id := Record(e.(policy := if c.policy.Some? then c.policy.value else e.policy,
                                    status := if c.status.Some? then c.status.value else e.status,
                                    revision := e.revision + 1),
                                 records[c.id].rows, records[c.id].audit + [e.revision + 1])]
        else records
  {
  }

  // Nobody but strangers publishes to the entry, and nobody manages it.
  predicate OnlyStrangers(steps: seq<Step>, id: EntryId, author: Author) {
    forall m | m in steps ::
      && (m.Publish? && m.request.id == id ==> m.request.author != author)
      && (m.Manage? ==> m.change.id != id)
  }

  /** An entry that is for its author alone, or that is not listed, is changed by no stranger. */
  lemma {:induction false} StrangersStayOut(records: Records, steps: seq<Step>, id: EntryId)
    requires id in records && OnlyStrangers(steps, id, records[id].entry.author)
    requires records[id].entry.policy == CreatorOnly || records[id].entry.status == Unlisted
    ensures var later := After(records, steps);
      && id in later && later[id].rows == records[id].rows && later[id].audit == records[id].audit
      && later[id].entry == records[id].entry.(usage := later[id].entry.usage) && later[id].entry.usage >= records[id].entry.usage
    decreases |steps|
  {
    if steps != [] {
      assert steps[0] in steps && forall m | m in steps[1..] :: m in steps;
      StrangersStayOut(Next(records, steps[0]), steps[1..], id);
    }
  }

  // ------------------------------------------------------------------------------------------
  // Following base versions
  // ------------------------------------------------------------------------------------------

  function BaseOf(rows: seq<VersionRow>, v: Version): Option<Version> {
    if HasVersion(rows, v) then rows[RowOf(rows, v)].base else None
  }

  // The version reached after n steps back, while there is one.
  function Back(rows: seq<VersionRow>, v: Version, n: nat): Option<Version> {
    if n == 0 then Some(v)
    else
      var before := Back(rows, v, n - 1);
      if before.Some? && BaseOf(rows, before.value).Some? && HasVersion(rows, BaseOf(rows, before.value).value)
      then BaseOf(rows, before.value) else None
  }

  lemma {:induction false} RowAt(rows: seq<VersionRow>, i: nat, current: Version)
    requires Linear(rows, current) && i < |rows|
    ensures RowOf(rows, rows[i].version) == i
  {
    assert RowOf(rows, rows[i].version) <= i;
  }

  /** From the current version the base versions lead through every published version, newest to oldest. */
  lemma {:induction false} BackVisitsAll(rows: seq<VersionRow>, current: Version, n: nat)
    requires Linear(rows, current) && n < |rows|
    ensures Back(rows, current, n) == Some(rows[|rows| - 1 - n].version)
  {
    if n > 0 {
      BackVisitsAll(rows, current, n - 1);
      RowAt(rows, |rows| - n, current);
      RowAt(rows, |rows| - n - 1, current);
    }
  }

  // The base that the first publication named, which nothing checks.
  predicate FirstBaseUnknown(rows: seq<VersionRow>)
    requires rows != []
  {
    rows[0].base.None? || !HasVersion(rows, rows[0].base.value)
  }

  lemma {:induction false} EndsForGood(rows: seq<VersionRow>, v: Version, n: nat, more: nat)
    requires Back(rows, v, n) == None
    ensures Back(rows, v, n + more) == None
  {
    if more > 0 {
      EndsForGood(rows, v, n, more - 1);
    }
  }

  // If the first base is a version, going back never ends.
  lemma {:induction false} CycleNeverEnds(rows: seq<VersionRow>, current: Version, n: nat)
    requires Linear(rows, current) && !FirstBaseUnknown(rows)
    ensures Back(rows, current, n).Some? && HasVersion(rows, Back(rows, current, n).value)
  {
    RowAt(rows, |rows| - 1, current);
    if n > 0 {
      CycleNeverEnds(rows, current, n - 1);
      var i := RowOf(rows, Back(rows, current, n - 1).value);
      if i > 0 {
        RowAt(rows, i - 1, current);
      }
    }
  }

  /** Going back ends at the first version, each version visited once, exactly when the base named by the first
      publication is not one of the entry's versions. */
  lemma {:induction false} BackEndsExactly(rows: seq<VersionRow>, current: Version)
    requires Linear(rows, current)
    ensures FirstBaseUnknown(rows) <==> Back(rows, current, |rows|) == None
    ensures FirstBaseUnknown(rows) <==> exists n: nat :: Back(rows, current, n) == None
  {
    BackVisitsAll(rows, current, |rows| - 1);
    RowAt(rows, 0, current);
    if !FirstBaseUnknown(rows) {
      forall n: nat ensures Back(rows, current, n) != None {
        CycleNeverEnds(rows, current, n);
      }
    }
  }

  /** Nothing refuses a first publication that names a base, so a later version can close the circle. */
  lemma {:induction false} FirstBaseCanBeReused(first: Request, second: Request)
    requires first.valid && first.identityOk && first.base.Some? && first.base.value != first.version
    requires second == first.(version := first.base.value, base := Some(first.version), expected := Some(1), key := "")
    ensures var records := After(map[], [Publish(first), Publish(second)]);
      && first.id in records && |records[first.id].rows| == 2
      && Linear(records[first.id].rows, second.version) && !FirstBaseUnknown(records[first.id].rows)
  {
    var one := Next(map[], Publish(first));
    assert one == map[first.id := Published(None, first)];
    assert [Publish(first), Publish(second)][1..] == [Publish(second)] && [Publish(second)][1..] == [];
    assert After(one, [Publish(second)]) == Next(one, Publish(second));
    assert Verdict(one, second) == Ok(Changed) by {
      assert !HasVersion(one[first.id].rows, second.version);
    }
    var rows := Next(one, Publish(second))[first.id].rows;
    assert rows == [NewRow(None, first)] + [rows[1]] && rows[1].version == second.version;
    assert rows[0].base == Some(rows[1].version);
  }

  // ------------------------------------------------------------------------------------------
  // Retries
  // ------------------------------------------------------------------------------------------

  /** A request that has been carried out changes nothing when it is sent again, however many transactions
      lie between. */
  lemma {:induction false} RetryChangesNothing(records: Records, r: Request, steps: seq<Step>)
    requires AllSound(records) && Verdict(records, r) == Ok(Changed)
    ensures var later := After(Next(records, Publish(r)), steps); Next(later, Publish(r)) == later
  {
    var done := Next(records, Publish(r));
    StepKeepsSound(records, Publish(r));
    RevisionsCountChanges(done, steps, r.id);
    var rows, later := done[r.id].rows, After(done, steps)[r.id].rows;
    assert later[|rows| - 1] == rows[|rows| - 1] && later[|rows| - 1].version == r.version;
  }

  /** It is answered as already done exactly when the entry is still listed, the author may still maintain it,
      and the policy the request would now get is the one it got then. */
  lemma {:induction false} RetryRecognisedExactly(records: Records, r: Request, steps: seq<Step>)
    requires AllSound(records) && Verdict(records, r) == Ok(Changed) && r.key != ""
    ensures var done := Next(records, Publish(r)); var later := After(done, steps);
      r.id in later &&
      var e := later[r.id].entry;
      Verdict(later, r) == Ok(Idempotent) <==>
        MayPublish(e, r) && e.status == Active && PolicyFor(Some(e), r) == done[r.id].entry.policy
  {
    var done := Next(records, Publish(r));
    StepKeepsSound(records, Publish(r));
    RevisionsCountChanges(done, steps, r.id);
    var rows, later := done[r.id].rows, After(done, steps)[r.id].rows;
    assert later[|rows| - 1] == rows[|rows| - 1] && later[|rows| - 1].version == r.version;
    RowAt(later, |rows| - 1, After(done, steps)[r.id].entry.current);
  }
}
