/**
Installing the skills of one package into a directory, with rollback
(backend/app/services/skill_package.py, `install_package`).

Only directories are modelled.  Moving a directory to a path where one already exists puts it inside that
one, under its own name, which for a backup is its index.
*/
module SkillInstall {
  type Name = string

  // `inside` holds the backups that were moved into the directory.
  datatype Tree = Tree(content: string, inside: map<nat, Tree>)

  datatype Skill = Skill(name: Name, tree: Tree)

  datatype Backup = Backup(index: nat, name: Name, tree: Tree)

  // Where an iteration fails: while the old directory is moved away, or while the new one is copied.
  datatype Fault = InMove | InCopy(partial: Tree)

  type Listing = map<Name, Tree>

  predicate Plain(t: Tree) {
    t.inside == map[]
  }

  predicate AllPlain(entries: Listing) {
    forall x | x in entries :: Plain(entries[x])
  }

  function Names(skills: seq<Skill>): set<Name> {
    set s | s in skills :: s.name
  }

  predicate Distinct(skills: seq<Skill>) {
    forall i, j | 0 <= i < j < |skills| :: skills[i].name != skills[j].name
  }

  // The old entries with the named directories replaced; the last one of a name wins.
  function Replaced(entries: Listing, skills: seq<Skill>): Listing {
    if skills == [] then entries
    else
      var last := skills[|skills| - 1];
      Replaced(entries, skills[..|skills| - 1])[last.name := last.tree]
  }

  function Moved(entries: Listing, skills: seq<Skill>): seq<Backup> {
    if skills == [] then []
    else
      var n := |skills| - 1;
      var before := Replaced(entries, skills[..n]);
      Moved(entries, skills[..n]) +
      if skills[n].name in before then [Backup(n, skills[n].name, before[skills[n].name])] else []
  }

  function PutBackOne(entries: Listing, b: Backup): Listing {
    if b.name in entries then
      entries[b.name := entries[b.name].(inside := entries[b.name].inside[b.index := b.tree])]
    else entries[b.name := b.tree]
  }

  function PutBack(entries: Listing, backups: seq<Backup>): Listing {
    if backups == [] then entries
    else PutBackOne(PutBack(entries, backups[..|backups| - 1]), backups[|backups| - 1])
  }

  // The directory after a failure whose first n iterations had moved what they found.
  function RolledBack(entries: Listing, skills: seq<Skill>): Listing {
    PutBack(entries - Names(skills), Moved(entries, skills))
  }

  // Iterations whose old directory had been dealt with when it failed.
  function Begun(k: nat, fault: Fault): nat {
    if fault.InMove? then k else k + 1
  }

  /** The target directory. */
  class Target {
    var entries: Listing

    constructor (entries: Listing)
      ensures this.entries == entries
    {
      this.entries := entries;
    }

    // `fault` strikes in iteration k, if there is one.
    method Install(skills: seq<Skill>, k: nat, fault: Fault) returns (ok: bool)
      modifies this
      ensures ok <==> k >= |skills| || (fault.InMove? && skills[k].name !in Replaced(old(entries), skills[..k]))
      ensures ok ==> entries == Replaced(old(entries), skills)
      ensures !ok ==> entries == RolledBack(old(entries), skills[..Begun(k, fault)])
      ensures !ok && Distinct(skills) && AllPlain(old(entries)) ==> entries == old(entries)
    {
      ghost var was := entries;
      ok := CopyAll(skills, k, fault);
      if !ok && AllPlain(was) {
        RollbackRestoresExactly(was, skills[..Begun(k, fault)]);
      }
    }

    method CopyAll(skills: seq<Skill>, k: nat, fault: Fault) returns (ok: bool)
      modifies this
      ensures ok <==> k >= |skills| || (fault.InMove? && skills[k].name !in Replaced(old(entries), skills[..k]))
      ensures ok ==> entries == Replaced(old(entries), skills)
      ensures !ok ==> entries == RolledBack(old(entries), skills[..Begun(k, fault)])
    {
      ghost var was := entries;
      var installed: set<Name>, moved: seq<Backup> := {}, [];
      var i := 0;
      while i < |skills|
        invariant i <= |skills| && entries == Replaced(was, skills[..i])
        invariant installed == Names(skills[..i]) && moved == Moved(was, skills[..i])
        invariant i > k ==> fault.InMove? && skills[k].name !in Replaced(was, skills[..k])
      {
        var s := skills[i];
        ReplacedMore(was, skills, i);
        if s.name in entries {
          if i == k && fault.InMove? {
            OthersUntouched(was, skills[..i]);
            RollBack(installed, moved);
            return false;
          }
          moved := moved + [Backup(i, s.name, entries[s.name])];
          entries := entries - {s.name};
        }
        installed := installed + {s.name};
        if i == k && fault.InCopy? {
          CopyCleared(was, skills, i, entries, fault.partial);
          entries := entries[s.name := fault.partial];
          assert moved == Moved(was, skills[..i + 1]) && installed == Names(skills[..i + 1]);
          RollBack(installed, moved);
          return false;
        }
        entries := entries[s.name := s.tree];
        i := i + 1;
      }
      assert skills[..i] == skills;
      ok := true;
    }

    method RollBack(installed: set<Name>, moved: seq<Backup>)
      modifies this
      ensures entries == PutBack(old(entries) - installed, moved)
    {
      entries := entries - installed;
      ghost var cleared := entries;
      var i := 0;
      while i < |moved|
        invariant i <= |moved| && entries == PutBack(cleared, moved[..i])
      {
        assert moved[..i + 1][..i] == moved[..i];
        entries := PutBackOne(entries, moved[i]);
        i := i + 1;
      }
      assert moved[..i] == moved;
    }
  }

  lemma {:induction false} ReplacedMore(entries: Listing, skills: seq<Skill>, i: nat)
    requires i < |skills|
    ensures Replaced(entries, skills[..i + 1]) == Replaced(entries, skills[..i])[skills[i].name := skills[i].tree]
    ensures Names(skills[..i + 1]) == Names(skills[..i]) + {skills[i].name}
    ensures var before := Replaced(entries, skills[..i]);
      Moved(entries, skills[..i + 1]) == Moved(entries, skills[..i]) +
        if skills[i].name in before then [Backup(i, skills[i].name, before[skills[i].name])] else []
  {
    assert skills[..i + 1][..i] == skills[..i];
    assert skills[..i + 1] == skills[..i] + [skills[i]];
    assert forall s :: s in skills[..i] + [skills[i]] <==> s in skills[..i] || s == skills[i];
  }

  // Installing touches only the named directories.
  lemma {:induction false} OthersUntouched(entries: Listing, skills: seq<Skill>)
    ensures Replaced(entries, skills).Keys == entries.Keys + Names(skills)
    ensures forall x | x in entries && x !in Names(skills) :: Replaced(entries, skills)[x] == entries[x]
    ensures Replaced(entries, skills) - Names(skills) == entries - Names(skills)
  {
    if skills != [] {
      var n := |skills| - 1;
      OthersUntouched(entries, skills[..n]);
      ReplacedMore(entries, skills, n);
      assert skills[..n + 1] == skills;
    }
  }

  // Whatever the failed copy left is removed with the rest.
  lemma {:induction false} CopyCleared(was: Listing, skills: seq<Skill>, i: nat, entries: Listing, partial: Tree)
    requires i < |skills|
    requires entries == Replaced(was, skills[..i]) || entries == Replaced(was, skills[..i]) - {skills[i].name}
    ensures entries[skills[i].name := partial] - Names(skills[..i + 1]) == was - Names(skills[..i + 1])
  {
    OthersUntouched(was, skills[..i]);
    ReplacedMore(was, skills, i);
  }

  lemma {:induction false} DistinctMore(skills: seq<Skill>)
    requires skills != []
    ensures var n := |skills| - 1; Distinct(skills) <==> Distinct(skills[..n]) && skills[n].name !in Names(skills[..n])
  {
    var n := |skills| - 1;
    assert forall i | 0 <= i < n :: skills[..n][i] == skills[i] && skills[i] in skills[..n];
  }

  // ------------------------------------------------------------------------------------------
  // What a rollback restores
  // ------------------------------------------------------------------------------------------

  // With distinct names the backups are the old directories, and they return one by one.
  lemma {:induction false} BackupsAreOld(entries: Listing, skills: seq<Skill>, base: Listing)
    requires Distinct(skills) && forall x | x in base :: x !in Names(skills)
    ensures PutBack(base, Moved(entries, skills)) == Returned(entries, base, Names(skills))
  {
    if skills != [] {
      var n := |skills| - 1;
      var s := skills[n];
      DistinctMore(skills);
      OthersUntouched(entries, skills[..n]);
      ReplacedMore(entries, skills, n);
      assert skills[..n + 1] == skills;
      BackupsAreOld(entries, skills[..n], base);
      OneMoreReturns(entries, base, Names(skills[..n]), s.name, n);
      var moved := Moved(entries, skills[..n]);
      if s.name in entries {
        var b := Backup(n, s.name, entries[s.name]);
        assert Moved(entries, skills) == moved + [b] && (moved + [b])[..|moved|] == moved;
      } else {
        assert Moved(entries, skills) == moved;
      }
    }
  }

  function Returned(entries: Listing, base: Listing, names: set<Name>): Listing {
    base + map x | x in entries && x in names :: entries[x]
  }

  lemma {:induction false} OneMoreReturns(entries: Listing, base: Listing, names: set<Name>, x: Name, n: nat)
    requires x !in names && x !in base
    ensures Returned(entries, base, names + {x}) == if x in entries
      then PutBackOne(Returned(entries, base, names), Backup(n, x, entries[x])) else Returned(entries, base, names)
  {
  }

  lemma {:induction false} DistinctRestores(entries: Listing, skills: seq<Skill>)
    requires Distinct(skills)
    ensures RolledBack(entries, skills) == entries
  {
    BackupsAreOld(entries, skills, entries - Names(skills));
  }

  // The directory a repeated name is left with.
  predicate Spoiled(entries: Listing, entries': Listing, x: Name) {
    x in entries' && (x in entries ==> !Plain(entries'[x]))
  }

  // The last iteration keeps a spoiled directory spoiled, or spoils the one it repeats.
  lemma {:induction false} LastIterationSpoils(entries: Listing, skills: seq<Skill>, base: Listing, x: Name, spoiled: bool)
    requires skills != []
    requires var n := |skills| - 1; var returned := PutBack(base, Moved(entries, skills[..n]));
      if spoiled then Spoiled(entries, returned, x)
      else skills[n].name == x && x in Replaced(entries, skills[..n]) && (x in entries ==> x in returned)
    ensures Spoiled(entries, PutBack(base, Moved(entries, skills)), x)
  {
    var n := |skills| - 1;
    var moved := Moved(entries, skills[..n]);
    ReplacedMore(entries, skills, n);
    assert skills[..n + 1] == skills;
    if skills[n].name in Replaced(entries, skills[..n]) {
      var b := Backup(n, skills[n].name, Replaced(entries, skills[..n])[skills[n].name]);
      assert Moved(entries, skills) == moved + [b] && (moved + [b])[..|moved|] == moved;
      OneMoreBackup(entries, PutBack(base, moved), b, x, spoiled);
    } else {
      assert Moved(entries, skills) == moved;
    }
  }

  lemma {:induction false} RepeatSpoils(entries: Listing, skills: seq<Skill>, j: nat, base: Listing)
    requires j < |skills| && Distinct(skills[..j]) && skills[j].name in Names(skills[..j])
    requires forall x | x in base :: x !in Names(skills)
    ensures Spoiled(entries, PutBack(base, Moved(entries, skills)), skills[j].name)
    decreases |skills|
  {
    var n := |skills| - 1;
    assert skills[..n + 1] == skills;
    ReplacedMore(entries, skills, n);
    if j < n {
      assert skills[..n][..j] == skills[..j];
      RepeatSpoils(entries, skills[..n], j, base);
    } else {
      OthersUntouched(entries, skills[..n]);
      BackupsAreOld(entries, skills[..n], base);
    }
    LastIterationSpoils(entries, skills, base, skills[j].name, j < n);
  }

  lemma {:induction false} OneMoreBackup(entries: Listing, now: Listing, b: Backup, x: Name, spoiled: bool)
    requires if spoiled then Spoiled(entries, now, x) else b.name == x && (x in entries ==> x in now)
    ensures Spoiled(entries, PutBackOne(now, b), x)
  {
    if b.name == x && x in now {
      assert b.index in PutBackOne(now, b)[x].inside;
    }
  }

  lemma {:induction false} FirstRepeat(skills: seq<Skill>) returns (j: nat)
    requires !Distinct(skills)
    ensures j < |skills| && Distinct(skills[..j]) && skills[j].name in Names(skills[..j])
  {
    var n := |skills| - 1;
    DistinctMore(skills);
    if Distinct(skills[..n]) {
      j := n;
    } else {
      j := FirstRepeat(skills[..n]);
      assert skills[..n][..j] == skills[..j];
    }
  }

  /** A failed installation leaves the directory exactly as it was if and only if the names of the skills it
      had begun with are distinct. */
  lemma {:induction false} RollbackRestoresExactly(entries: Listing, skills: seq<Skill>)
    requires AllPlain(entries)
    ensures RolledBack(entries, skills) == entries <==> Distinct(skills)
  {
    if Distinct(skills) {
      DistinctRestores(entries, skills);
    } else {
      var j := FirstRepeat(skills);
      RepeatSpoils(entries, skills, j, entries - Names(skills));
    }
  }

  lemma {:induction false} InstalledAt(entries: Listing, skills: seq<Skill>, i: nat)
    requires Distinct(skills) && i < |skills|
    ensures skills[i].name in Replaced(entries, skills) && Replaced(entries, skills)[skills[i].name] == skills[i].tree
    decreases |skills|
  {
    var n := |skills| - 1;
    ReplacedMore(entries, skills, n);
    assert skills[..n + 1] == skills;
    if i < n {
      DistinctMore(skills);
      InstalledAt(entries, skills[..n], i);
    }
  }

  /** A finished installation is the old directory with exactly the named entries replaced. */
  lemma {:induction false} InstalledExactly(entries: Listing, skills: seq<Skill>)
    requires Distinct(skills)
    ensures Replaced(entries, skills).Keys == entries.Keys + Names(skills)
    ensures forall x | x in entries && x !in Names(skills) :: Replaced(entries, skills)[x] == entries[x]
    ensures forall i | 0 <= i < |skills| ::
      skills[i].name in Replaced(entries, skills) && Replaced(entries, skills)[skills[i].name] == skills[i].tree
  {
    OthersUntouched(entries, skills);
    forall i | 0 <= i < |skills|
      ensures skills[i].name in Replaced(entries, skills) && Replaced(entries, skills)[skills[i].name] == skills[i].tree
    {
      InstalledAt(entries, skills, i);
    }
  }

  /** Two skills of one name, the second of which fails: the first is left behind in an empty directory. */
  lemma {:induction false} FirstOfTwoStays(none: Listing, x: Name, a: Tree, b: Tree)
    requires none == map[]
    ensures RolledBack(none, [Skill(x, a), Skill(x, b)]) == none[x := a]
  {
    var skills := [Skill(x, a), Skill(x, b)];
    OneBackup(none, skills, x, a);
    OneReturns(none, Backup(1, x, a));
    assert none - Names(skills) == none;
  }

  lemma {:induction false} OneBackup(none: Listing, skills: seq<Skill>, x: Name, a: Tree)
    requires none == map[] && |skills| == 2 && skills[0] == Skill(x, a) && skills[1].name == x
    ensures Moved(none, skills) == [Backup(1, x, a)]
  {
    ReplacedMore(none, skills, 0);
    ReplacedMore(none, skills, 1);
    assert skills[..0] == [] && skills[..1 + 1] == skills;
    assert Replaced(none, skills[..0 + 1]) == none[x := a];
  }

  lemma {:induction false} OneReturns(entries: Listing, b: Backup)
    requires b.name !in entries
    ensures PutBack(entries, [b]) == entries[b.name := b.tree]
  {
    assert [b][..0] == [];
  }
}
