/** Which completed Backups of a schedule `keep` spares, and the order that decides it. */
module Retention {
  import opened Strings
  import opened Sorting
  import Backups

  datatype Backup = Backup(created: int, phase: Backups.Phase)

  /** A completed Backup as the pruning pass sorts it. */
  datatype Entry = Entry(created: int, name: string)

  predicate Newer(a: Entry, b: Entry)
  {
    a.created > b.created || (a.created == b.created && Less(b.name, a.name))
  }

  lemma NewerIsStrictTotal()
    ensures StrictTotal(Newer)
  {
    forall a: Entry ensures !Newer(a, a) {
      LessIrreflexive(a.name);
    }
    forall a, b, c | Newer(a, b) && Newer(b, c) ensures Newer(a, c) {
      if a.created == b.created == c.created {
        LessTransitive(c.name, b.name, a.name);
      }
    }
    forall a: Entry, b: Entry ensures a == b || Newer(a, b) || Newer(b, a) {
      LessTotal(a.name, b.name);
    }
  }

  function CompletedEntries(backups: map<string, Backup>): set<Entry>
  {
    set name | name in backups && backups[name].phase.Completed? :: Entry(backups[name].created, name)
  }

  /** How many completed Backups are newer. */
  function Rank(completed: set<Entry>, e: Entry): nat
  {
    |Before(completed, Newer, e)|
  }

  function Spared(completed: set<Entry>, keep: nat): set<Entry>
  {
    set e | e in completed && Rank(completed, e) < keep
  }

  /** The names to be deleted. */
  function Doomed(backups: map<string, Backup>, keep: nat): set<string>
  {
    var completed := CompletedEntries(backups);
    set e | e in completed && Rank(completed, e) >= keep :: e.name
  }

  lemma RankInSorted(sorted: seq<Entry>, i: nat)
    requires Sorted(sorted, Newer) && i < |sorted|
    ensures sorted[i] in Elements(sorted) && Rank(Elements(sorted), sorted[i]) == i
  {
    NewerIsStrictTotal();
    RankIsIndex(sorted, Newer, i);
  }

  /** Sorted newest first, what stands at `keep` and beyond is what has rank `keep` or more. */
  lemma TailIsDoomed(backups: map<string, Backup>, sorted: seq<Entry>, keep: nat)
    requires Sorted(sorted, Newer) && Elements(sorted) == CompletedEntries(backups)
    ensures Doomed(backups, keep) == set i | keep <= i < |sorted| :: sorted[i].name
  {
    forall i | 0 <= i < |sorted| ensures sorted[i] in Elements(sorted) && Rank(Elements(sorted), sorted[i]) == i {
      RankInSorted(sorted, i);
    }
  }

  /** Exactly the `keep` newest are spared, or all when there are fewer. */
  lemma SparedAreNewest(completed: set<Entry>, sorted: seq<Entry>, keep: nat)
    requires Sorted(sorted, Newer) && Elements(sorted) == completed
    ensures var n := if keep < |sorted| then keep else |sorted|;
            Spared(completed, keep) == Elements(sorted[..n]) && |Spared(completed, keep)| == n
  {
    var n := if keep < |sorted| then keep else |sorted|;
    forall i | 0 <= i < |sorted| ensures sorted[i] in completed && Rank(completed, sorted[i]) == i {
      RankInSorted(sorted, i);
    }
    forall e | e in Spared(completed, keep) ensures e in sorted[..n] {
      var i :| 0 <= i < |sorted| && sorted[i] == e;
      assert sorted[..n][i] == e;
    }
    assert Spared(completed, keep) == Elements(sorted[..n]);
    NewerIsStrictTotal();
    SizeOfSorted(sorted[..n], Newer);
  }

  lemma EntriesAre(backups: map<string, Backup>)
    ensures forall e :: e in CompletedEntries(backups)
              <==> e.name in backups && backups[e.name] == Backup(e.created, Backups.Completed)
  {
    forall e: Entry | e.name in backups && backups[e.name] == Backup(e.created, Backups.Completed)
      ensures e in CompletedEntries(backups)
    {
      assert Entry(backups[e.name].created, e.name) in CompletedEntries(backups);
    }
  }

  lemma EntriesAfterAdd(backups: map<string, Backup>, name: string, backup: Backup)
    requires name !in backups && !backup.phase.Completed?
    ensures CompletedEntries(backups[name := backup]) == CompletedEntries(backups)
  {
    EntriesAre(backups);
    EntriesAre(backups[name := backup]);
  }

  lemma EntriesAfterAdvance(backups: map<string, Backup>, name: string, phase: Backups.Phase)
    requires name in backups
    ensures var e := Entry(backups[name].created, name);
            CompletedEntries(backups[name := backups[name].(phase := phase)])
            == (CompletedEntries(backups) - {e}) + if phase.Completed? then {e} else {}
  {
    EntriesAre(backups);
    EntriesAre(backups[name := backups[name].(phase := phase)]);
  }

  lemma EntriesAfterDelete(backups: map<string, Backup>, name: string)
    ensures CompletedEntries(backups - {name}) == set e | e in CompletedEntries(backups) && e.name != name
  {
    EntriesAre(backups);
    EntriesAre(backups - {name});
  }

  lemma DoomedAreOld(backups: map<string, Backup>, keep: nat, name: string)
    requires name in Doomed(backups, keep)
    ensures name in backups && backups[name].phase.Completed?
    ensures Rank(CompletedEntries(backups), Entry(backups[name].created, name)) >= keep
  {
  }

  function Without(backups: map<string, Backup>, gone: set<string>): map<string, Backup>
  {
    backups - gone
  }

  lemma SparedOrDoomed(backups: map<string, Backup>, keep: nat, e: Entry)
    requires e in CompletedEntries(backups)
    ensures e.name in Doomed(backups, keep) <==> e !in Spared(CompletedEntries(backups), keep)
  {
    EntriesAre(backups);
    if e.name in Doomed(backups, keep) {
      DoomedAreOld(backups, keep, e.name);
    }
  }

  /** Spared ones are newer than doomed ones, and if anything is doomed there are exactly `keep` of them. */
  lemma SparedAreNewer(completed: set<Entry>, keep: nat, e: Entry)
    requires e in completed && Rank(completed, e) >= keep
    ensures |Spared(completed, keep)| == keep && Spared(completed, keep) <= Before(completed, Newer, e)
  {
    NewerIsStrictTotal();
    var sorted := Arrange(completed, Newer);
    SparedAreNewest(completed, sorted, keep);
    var k :| 0 <= k < |sorted| && sorted[k] == e;
    RankInSorted(sorted, k);
    forall d | d in Spared(completed, keep) ensures Newer(d, e) {
      var i :| 0 <= i < keep && i < |sorted| && sorted[i] == d;
    }
  }

  /** However far a prune got: what it was to spare is still there, nothing but doomed Backups is gone, and running it
      again finishes the same job. */
  lemma PartialPruneFinishes(backups: map<string, Backup>, keep: nat, gone: set<string>)
    requires gone <= Doomed(backups, keep)
    ensures var left := Without(backups, gone);
            && Spared(CompletedEntries(left), keep) == Spared(CompletedEntries(backups), keep)
            && Doomed(left, keep) == Doomed(backups, keep) - gone
  {
    var left := Without(backups, gone);
    var all, rest := CompletedEntries(backups), CompletedEntries(left);
    EntriesAre(backups);
    EntriesAre(left);
    forall e | e in all ensures e in rest <==> e.name !in gone {}
    forall e | e in rest ensures e in all && (Rank(rest, e) >= keep <==> Rank(all, e) >= keep) {
      RankAfterPrune(backups, keep, gone, e);
    }
    forall e | e in Spared(all, keep) ensures e in rest {
      SparedOrDoomed(backups, keep, e);
    }
    assert Spared(rest, keep) == Spared(all, keep);
    forall name ensures name in Doomed(left, keep) <==> name in Doomed(backups, keep) && name !in gone {
      if name in Doomed(backups, keep) && name !in gone {
        DoomedAreOld(backups, keep, name);
        assert Entry(backups[name].created, name) in rest;
      }
      if name in Doomed(left, keep) {
        DoomedAreOld(left, keep, name);
        assert Entry(left[name].created, name) in all;
      }
    }
  }

  lemma RankAfterPrune(backups: map<string, Backup>, keep: nat, gone: set<string>, e: Entry)
    requires gone <= Doomed(backups, keep) && e in CompletedEntries(Without(backups, gone))
    ensures e in CompletedEntries(backups)
    ensures Rank(CompletedEntries(Without(backups, gone)), e) >= keep <==> Rank(CompletedEntries(backups), e) >= keep
  {
    var all, rest := CompletedEntries(backups), CompletedEntries(Without(backups, gone));
    EntriesAre(backups);
    EntriesAre(Without(backups, gone));
    assert rest <= all;
    SubsetSize(Before(rest, Newer, e), Before(all, Newer, e));
    if Rank(all, e) >= keep {
      SparedAreNewer(all, keep, e);
      forall d | d in Spared(all, keep) ensures d in Before(rest, Newer, e) {
        SparedOrDoomed(backups, keep, d);
      }
      SubsetSize(Spared(all, keep), Before(rest, Newer, e));
    }
  }
}
