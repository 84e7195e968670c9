/** The Backups of one schedule over time: which were created by which run, which have completed, and what earlier
    listings of them said. */
module BackupStore {
  import opened Strings
  import opened Sorting
  import opened Retention
  import opened BackupNames
  import Backups

  function Cut(t: int): int
  {
    t - t % SECOND
  }

  /** One version of the list; `done` says how many completions there had been. */
  datatype Listing = Listing(backups: map<string, Backup>, done: nat)

  function Newest(lists: seq<Listing>): Listing
  {
    if lists == [] then Listing(map[], 0) else lists[|lists| - 1]
  }

  /** When the tick that created a Backup looked at the clock, and the creation time the API server gave the Backup. */
  datatype Origin = Origin(run: int, created: int)

  /** `lists` are all versions of the list and `listAt` the oldest one the cache may still show; `runs` holds every
      Backup ever created, `ever` every one that ever completed. `moved` names those that are there and were moved to
      another phase after they had completed, and have not completed again. */
  datatype Store = Store(
    lists: seq<Listing>, listAt: nat, runs: map<string, Origin>, ever: set<Entry>, moved: set<string>)
  {
    function Backups(): map<string, Backup>
    {
      Newest(lists).backups
    }

    function Done(): nat
    {
      Newest(lists).done
    }

    function Change(backups: map<string, Backup>, done: nat): Store
    {
      this.(lists := lists + [Listing(backups, done)])
    }

    /** An AlreadyExists answer changes nothing. */
    function Create(name: string, run: int, clock: int): Store
    {
      if name in Backups() then this
      else
        Change(Backups()[name := Backup(Cut(clock), Phase.New)], Done())
        .(runs := runs[name := Origin(run, Cut(clock))])
    }

    function Advance(name: string, phase: Phase): Store
      requires name in Backups()
    {
      var after := Backups()[name := Backups()[name].(phase := phase)];
      if phase.Completed?
      then Change(after, Done() + 1).(ever := ever + {Entry(Backups()[name].created, name)}, moved := moved - {name})
      else Change(after, Done()).(moved := if Backups()[name].phase.Completed? then moved + {name} else moved)
    }

    function Delete(name: string): Store
    {
      Change(Backups() - {name}, Done()).(moved := moved - {name})
    }
  }

  type Phase = Backups.Phase

  const NOTHING := Store([Listing(map[], 0)], 0, map[], {}, {})

  ghost predicate HasNewer(entries: set<Entry>, e: Entry)
  {
    exists d :: d in entries && Newer(d, e)
  }

  // Origins.

  /** Names follow the seconds of the runs that they are for. */
  ghost predicate Follows(named: int -> string)
  {
    forall t, u | FourDigitYear(t) && FourDigitYear(u) ::
      && (named(t) == named(u) <==> t / SECOND == u / SECOND)
      && (Less(named(t), named(u)) <==> t / SECOND < u / SECOND)
  }

  predicate OriginOf(named: int -> string, name: string, o: Origin, clock: int)
  {
    && FourDigitYear(o.run) && name == named(o.run)
    && o.created % SECOND == 0 && Cut(o.run) <= o.created <= clock
  }

  /** Later runs create later. */
  predicate InOrder(runs: map<string, Origin>)
  {
    forall n, m | n in runs && m in runs && runs[n].run / SECOND < runs[m].run / SECOND ::
      runs[n].created <= Cut(runs[m].run)
  }

  /** Backups that are gone were created in an earlier second than `t`. */
  predicate GoneBefore(s: Store, t: int)
  {
    forall n | n in s.runs && n !in s.Backups() :: s.runs[n].run / SECOND < t / SECOND
  }

  predicate EntryOf(runs: map<string, Origin>, e: Entry)
  {
    e.name in runs && e.created == runs[e.name].created
  }

  predicate RunsInv(runs: map<string, Origin>, named: int -> string, clock: int)
  {
    (forall n | n in runs :: OriginOf(named, n, runs[n], clock)) && InOrder(runs)
  }

  predicate OriginInv(s: Store, named: int -> string, clock: int)
  {
    && RunsInv(s.runs, named, clock) && GoneBefore(s, clock) && AllRecorded(s.runs, s.lists)
    && (forall e | e in s.ever :: EntryOf(s.runs, e))
  }

  predicate AllRecorded(runs: map<string, Origin>, lists: seq<Listing>)
  {
    forall v | 0 <= v < |lists| :: Recorded(runs, lists[v].backups)
  }

  predicate Recorded(runs: map<string, Origin>, backups: map<string, Backup>)
  {
    forall n | n in backups :: n in runs && backups[n].created == runs[n].created
  }

  lemma CutOrder(a: int, b: int)
    requires a <= b
    ensures Cut(a) <= Cut(b) <= b && Cut(a) % SECOND == 0 && a / SECOND <= b / SECOND
    ensures Cut(a) == Cut(b) <==> a / SECOND == b / SECOND
    ensures a / SECOND < b / SECOND ==> Cut(a) < Cut(b) && a < Cut(b)
  {
  }

  /** Among the Backups of one schedule, the order by creation time and name is that of their runs. */
  lemma NewerFollowsRuns(named: int -> string, runs: map<string, Origin>, clock: int, d: Entry, e: Entry)
    requires Follows(named) && RunsInv(runs, named, clock) && EntryOf(runs, d) && EntryOf(runs, e)
    ensures Newer(d, e) <==> runs[e.name].run / SECOND < runs[d.name].run / SECOND
  {
    var x, y := runs[d.name].run, runs[e.name].run;
    if y / SECOND < x / SECOND {
      assert e.created <= Cut(x) <= d.created;
    } else if x / SECOND < y / SECOND {
      assert d.created <= Cut(y) <= e.created;
      LessNotBoth(d.name, e.name);
    } else {
      LessIrreflexive(d.name);
    }
  }

  lemma LessNotBoth(a: string, b: string)
    requires Less(a, b)
    ensures !Less(b, a)
  {
    if Less(b, a) {
      LessTransitive(a, b, a);
      LessIrreflexive(a);
    }
  }

  /** A name is taken at its creation exactly when an earlier run of the same second created it, and that Backup is
      still there. */
  lemma TakenExactlyWhen(s: Store, named: int -> string, clock: int, now: int)
    requires Follows(named)
    requires OriginInv(s, named, clock) && GoneBefore(s, now) && FourDigitYear(now) && s.lists != []
    ensures var name := named(now);
            && (name in s.Backups() <==> exists n :: n in s.runs && s.runs[n].run / SECOND == now / SECOND)
            && (name in s.runs <==> name in s.Backups())
  {
    var name := named(now);
    if name in s.Backups() {
      assert Recorded(s.runs, s.lists[|s.lists| - 1].backups);
    }
    forall n | n in s.runs ensures n == name <==> s.runs[n].run / SECOND == now / SECOND {
      assert named(s.runs[n].run) == n;
    }
  }

  lemma OriginsAfterCreate(s: Store, named: int -> string, clock: int, now: int)
    requires Follows(named)
    requires OriginInv(s, named, clock) && GoneBefore(s, now) && FourDigitYear(now) && now <= clock && s.lists != []
    requires forall n | n in s.runs :: s.runs[n].created <= Cut(now)
    ensures OriginInv(s.Create(named(now), now, clock), named, clock)
  {
    var name := named(now);
    TakenExactlyWhen(s, named, clock, now);
    if name !in s.Backups() {
      RunsAfterCreate(s.runs, named, clock, name, now);
      RecordedAfterCreate(s, name, now, clock);
      GoneAfterCreate(s, clock, name, now);
    }
  }

  lemma GoneAfterCreate(s: Store, clock: int, name: string, run: int)
    requires GoneBefore(s, clock) && name !in s.Backups()
    ensures GoneBefore(s.Create(name, run, clock), clock)
  {
  }

  lemma GoneAfterAdvance(s: Store, clock: int, name: string, phase: Phase)
    requires GoneBefore(s, clock) && name in s.Backups()
    ensures GoneBefore(s.Advance(name, phase), clock)
  {
  }

  lemma GoneAfterDelete(s: Store, clock: int, name: string)
    requires GoneBefore(s, clock) && name in s.runs && s.runs[name].run / SECOND < clock / SECOND
    ensures GoneBefore(s.Delete(name), clock)
  {
  }

  lemma RunsAfterCreate(runs: map<string, Origin>, named: int -> string, clock: int, name: string, now: int)
    requires RunsInv(runs, named, clock) && FourDigitYear(now) && now <= clock && name == named(now)
    requires name !in runs && forall n | n in runs :: runs[n].created <= Cut(now)
    ensures RunsInv(runs[name := Origin(now, Cut(clock))], named, clock)
  {
    CutOrder(now, clock);
    forall n | n in runs ensures runs[n].run / SECOND <= now / SECOND {
      CutOrder(runs[n].run, runs[n].run);
    }
  }

  lemma RecordedAfterCreate(s: Store, name: string, run: int, clock: int)
    requires AllRecorded(s.runs, s.lists) && s.lists != [] && name !in s.runs && name !in s.Backups()
    ensures AllRecorded(s.Create(name, run, clock).runs, s.Create(name, run, clock).lists)
  {
    var s' := s.Create(name, run, clock);
    forall v | 0 <= v < |s'.lists| ensures Recorded(s'.runs, s'.lists[v].backups) {
      assert Recorded(s.runs, s.lists[if v < |s.lists| then v else v - 1].backups);
    }
  }

  lemma RecordedAfterChange(s: Store, backups: map<string, Backup>, done: nat)
    requires AllRecorded(s.runs, s.lists) && Recorded(s.runs, backups)
    ensures AllRecorded(s.runs, s.Change(backups, done).lists)
  {
  }

  lemma OriginsAfterAdvance(s: Store, named: int -> string, clock: int, name: string, phase: Phase)
    requires OriginInv(s, named, clock) && name in s.Backups()
    ensures OriginInv(s.Advance(name, phase), named, clock)
  {
    assert Recorded(s.runs, s.lists[|s.lists| - 1].backups);
    GoneAfterAdvance(s, clock, name, phase);
    RecordedAfterChange(s, s.Backups()[name := s.Backups()[name].(phase := phase)], s.Advance(name, phase).Done());
  }

  lemma OriginsAfterDelete(s: Store, named: int -> string, clock: int, name: string, e: Entry)
    requires Follows(named)
    requires OriginInv(s, named, clock) && s.lists != []
    requires e.name == name && EntryOf(s.runs, e) && HasNewer(s.ever, e)
    ensures OriginInv(s.Delete(name), named, clock)
  {
    DoomedAreEarlier(s, named, clock, e);
    assert Recorded(s.runs, s.lists[|s.lists| - 1].backups);
    GoneAfterDelete(s, clock, name);
    RecordedAfterChange(s, s.Backups() - {name}, s.Done());
  }

  /** What has something newer was not created in this second. */
  lemma DoomedAreEarlier(s: Store, named: int -> string, clock: int, e: Entry)
    requires Follows(named)
    requires OriginInv(s, named, clock) && EntryOf(s.runs, e) && HasNewer(s.ever, e)
    ensures s.runs[e.name].run / SECOND < clock / SECOND
  {
    var d :| d in s.ever && Newer(d, e);
    NewerFollowsRuns(named, s.runs, clock, d, e);
    CutOrder(Cut(s.runs[d.name].run), clock);
    CutOrder(s.runs[d.name].run, s.runs[d.name].run);
  }

  lemma OriginsLater(s: Store, named: int -> string, clock: int, later: int)
    requires OriginInv(s, named, clock) && clock <= later
    ensures OriginInv(s, named, later)
  {
    CutOrder(clock, later);
  }

  // Completions.

  /** Whatever ever completed and has nothing newer is still there; what completed and is there is completed unless it
      was moved; and each version of the list lacks no more of the completed ones than completed since. */
  ghost predicate KeptInv(s: Store)
  {
    s.lists != [] && s.listAt < |s.lists| && KeptLists(s.lists, s.ever, s.moved)
  }

  ghost predicate KeptLists(lists: seq<Listing>, ever: set<Entry>, moved: set<string>)
  {
    && (forall v | 0 <= v < |lists| ::
          CompletedEntries(lists[v].backups) <= ever && lists[v].done <= Newest(lists).done)
    && (forall e | e in ever :: HasNewer(ever, e) || e.name in Newest(lists).backups)
    && (forall e | e in ever && e.name in Newest(lists).backups ::
          Newest(lists).backups[e.name].created == e.created
          && (Newest(lists).backups[e.name].phase.Completed? <==> e.name !in moved))
    && (forall v | 0 <= v < |lists| :: FewSince(lists, v))
  }

  /** Unless it was moved, it is completed. */
  predicate Stands(s: Store, e: Entry)
    requires e.name in s.Backups()
  {
    s.Backups()[e.name].created == e.created && (s.Backups()[e.name].phase.Completed? <==> e.name !in s.moved)
  }

  predicate FewSince(lists: seq<Listing>, v: nat)
    requires v < |lists|
  {
    |CompletedEntries(Newest(lists).backups) - CompletedEntries(lists[v].backups)| <= Newest(lists).done - lists[v].done
  }

  lemma KeptAfterCreate(s: Store, name: string, run: int, clock: int)
    requires KeptInv(s) && (name !in s.Backups() ==> forall e | e in s.ever :: e.name != name)
    ensures KeptInv(s.Create(name, run, clock))
  {
    if name !in s.Backups() {
      var s' := s.Create(name, run, clock);
      forall v | 0 <= v < |s'.lists|
        ensures FewSince(s'.lists, v) && CompletedEntries(s'.lists[v].backups) <= s.ever
            && s'.lists[v].done <= s'.Done()
      {
        FewAfterCreate(s, name, run, clock, v);
      }
    }
  }

  lemma FewAfterCreate(s: Store, name: string, run: int, clock: int, v: nat)
    requires KeptInv(s) && name !in s.Backups() && v <= |s.lists|
    ensures var s' := s.Create(name, run, clock);
            && |s'.lists| == |s.lists| + 1 && s'.lists[v].done <= s'.Done()
            && FewSince(s'.lists, v) && CompletedEntries(s'.lists[v].backups) <= s.ever
  {
    var u := if v < |s.lists| then v else v - 1;
    EntriesAfterAdd(s.Backups(), name, Backup(Cut(clock), Backups.New));
    assert FewSince(s.lists, u) && CompletedEntries(s.lists[u].backups) <= s.ever && s.lists[u].done <= s.Done();
  }

  lemma KeptAfterAdvance(s: Store, name: string, phase: Phase)
    requires KeptInv(s) && name in s.Backups()
    ensures KeptInv(s.Advance(name, phase))
  {
    var s' := s.Advance(name, phase);
    forall v | 0 <= v < |s'.lists|
      ensures FewSince(s'.lists, v) && CompletedEntries(s'.lists[v].backups) <= s'.ever && s'.lists[v].done <= s'.Done()
    {
      FewAfterAdvance(s, name, phase, v);
    }
    forall e | e in s'.ever
      ensures HasNewer(s'.ever, e) || e.name in s'.Backups()
      ensures e.name in s'.Backups() ==> Stands(s', e)
    {
      EverAfterAdvance(s, name, phase, e);
    }
  }

  lemma FewAfterAdvance(s: Store, name: string, phase: Phase, v: nat)
    requires KeptInv(s) && name in s.Backups() && v <= |s.lists|
    ensures var s' := s.Advance(name, phase);
            && |s'.lists| == |s.lists| + 1 && s'.lists[v].done <= s'.Done()
            && FewSince(s'.lists, v) && CompletedEntries(s'.lists[v].backups) <= s'.ever
  {
    var s' := s.Advance(name, phase);
    EntriesAfterAdvance(s.Backups(), name, phase);
    if v < |s.lists| {
      OldFewAfterAdvance(s, name, phase, v);
    } else {
      assert CompletedEntries(s'.Backups()) - CompletedEntries(s'.lists[v].backups) == {};
      assert CompletedEntries(s.lists[|s.lists| - 1].backups) <= s.ever;
    }
  }

  lemma OldFewAfterAdvance(s: Store, name: string, phase: Phase, v: nat)
    requires name in s.Backups() && v < |s.lists| && FewSince(s.lists, v)
    requires CompletedEntries(s.lists[v].backups) <= s.ever && s.lists[v].done <= s.Done()
    ensures var s' := s.Advance(name, phase);
            && |s'.lists| == |s.lists| + 1 && s'.lists[v].done <= s'.Done()
            && FewSince(s'.lists, v) && CompletedEntries(s'.lists[v].backups) <= s'.ever
  {
    var s' := s.Advance(name, phase);
    assert s'.lists[v] == s.lists[v];
    EntriesAfterAdvance(s.Backups(), name, phase);
    GrowsByOne(CompletedEntries(s.Backups()), CompletedEntries(s'.Backups()), CompletedEntries(s.lists[v].backups),
               Entry(s.Backups()[name].created, name), phase.Completed?);
  }

  lemma EverAfterAdvance(s: Store, name: string, phase: Phase, e: Entry)
    requires KeptInv(s) && name in s.Backups() && e in s.Advance(name, phase).ever
    ensures var s' := s.Advance(name, phase);
            && (HasNewer(s'.ever, e) || e.name in s'.Backups())
            && (e.name in s'.Backups() ==> Stands(s', e))
  {
    var s' := s.Advance(name, phase);
    if e.name == name && e !in s.ever {
      assert e == Entry(s.Backups()[name].created, name);
    }
    if s.Backups()[name].phase.Completed? {
      assert Entry(s.Backups()[name].created, name) in CompletedEntries(s.lists[|s.lists| - 1].backups);
    }
    if e in s.ever && HasNewer(s.ever, e) {
      var d :| d in s.ever && Newer(d, e);
      assert d in s'.ever;
    }
  }

  lemma GrowsByOne(before: set<Entry>, after: set<Entry>, old_: set<Entry>, e: Entry, grows: bool)
    requires after <= before + if grows then {e} else {}
    ensures |after - old_| <= |before - old_| + if grows then 1 else 0
  {
    SubsetSize(after - old_, (before - old_) + if grows then {e} else {});
  }

  lemma KeptAfterDelete(s: Store, name: string)
    requires KeptInv(s) && forall e | e in s.ever && e.name == name :: HasNewer(s.ever, e)
    ensures KeptInv(s.Delete(name))
  {
    var s' := s.Delete(name);
    forall v | 0 <= v < |s'.lists|
      ensures FewSince(s'.lists, v) && CompletedEntries(s'.lists[v].backups) <= s.ever && s'.lists[v].done <= s'.Done()
    {
      FewAfterDelete(s, name, v);
    }
  }

  lemma FewAfterDelete(s: Store, name: string, v: nat)
    requires KeptInv(s) && v <= |s.lists|
    ensures var s' := s.Delete(name);
            && |s'.lists| == |s.lists| + 1 && s'.lists[v].done <= s'.Done()
            && FewSince(s'.lists, v) && CompletedEntries(s'.lists[v].backups) <= s.ever
  {
    var s', u := s.Delete(name), if v < |s.lists| then v else v - 1;
    EntriesAfterDelete(s.Backups(), name);
    assert FewSince(s.lists, u) && CompletedEntries(s.lists[u].backups) <= s.ever;
    SubsetSize(CompletedEntries(s'.Backups()) - CompletedEntries(s'.lists[v].backups),
               CompletedEntries(s.Backups()) - CompletedEntries(s.lists[u].backups));
  }

  // Pruning by a version of the list.

  /** The completed Backups that a prune will leave. */
  function Remaining(backups: map<string, Backup>, doomed: set<string>): set<Entry>
  {
    set e | e in CompletedEntries(backups) && e.name !in doomed
  }

  /** What is to be deleted had completed and has something newer. */
  ghost predicate Dispensable(s: Store, doomed: set<string>)
  {
    forall name | name in doomed :: exists e :: e in s.ever && e.name == name && HasNewer(s.ever, e)
  }

  lemma ListDooms(s: Store, v: nat, keep: nat)
    requires KeptInv(s) && v < |s.lists| && 0 < keep
    ensures Dispensable(s, Doomed(s.lists[v].backups, keep))
  {
    var listed := s.lists[v].backups;
    forall name | name in Doomed(listed, keep)
      ensures exists e :: e in s.ever && e.name == name && HasNewer(s.ever, e)
    {
      DoomedAreOld(listed, keep, name);
      var e := Entry(listed[name].created, name);
      assert e in CompletedEntries(listed);
      var d :| d in Before(CompletedEntries(listed), Newer, e);
      assert d in s.ever;
    }
  }

  /** Deleting what an old version of the list dooms leaves no more than `keep` and those completed since that
      version. */
  lemma ListBounds(s: Store, v: nat, keep: nat)
    requires KeptInv(s) && v < |s.lists|
    ensures |Remaining(s.Backups(), Doomed(s.lists[v].backups, keep))| <= keep + (s.Done() - s.lists[v].done)
  {
    var listed := s.lists[v].backups;
    var completed, since := CompletedEntries(listed), CompletedEntries(s.Backups()) - CompletedEntries(listed);
    forall e | e in completed ensures e.name in Doomed(listed, keep) <==> e !in Spared(completed, keep) {
      SparedOrDoomed(listed, keep, e);
    }
    assert FewSince(s.lists, v);
    SubsetSize(Remaining(s.Backups(), Doomed(listed, keep)), Spared(completed, keep) + since);
    SparedFit(completed, keep);
    UnionSize(Spared(completed, keep), since);
  }

  lemma SparedFit(completed: set<Entry>, keep: nat)
    ensures |Spared(completed, keep)| <= keep
  {
    NewerIsStrictTotal();
    var sorted := Arrange(completed, Newer);
    SparedAreNewest(completed, sorted, keep);
  }

  lemma UnionSize(a: set<Entry>, b: set<Entry>)
    ensures |a + b| <= |a| + |b|
  {
    assert a + b == a + (b - a);
    SubsetSize(b - a, b);
  }

  /** A bound on what will remain allows for one more whenever one more completes. */
  lemma RemainingAfterAdvance(s: Store, doomed: set<string>, name: string, phase: Phase)
    requires name in s.Backups()
    ensures |Remaining(s.Advance(name, phase).Backups(), doomed)|
            <= |Remaining(s.Backups(), doomed)| + if phase.Completed? then 1 else 0
  {
    EntriesAfterAdvance(s.Backups(), name, phase);
    var e := Entry(s.Backups()[name].created, name);
    SubsetSize(Remaining(s.Advance(name, phase).Backups(), doomed),
               Remaining(s.Backups(), doomed) + if phase.Completed? then {e} else {});
  }

  lemma RemainingAfterDelete(s: Store, doomed: set<string>, name: string)
    ensures |Remaining(s.Delete(name).Backups(), doomed - {name})| <= |Remaining(s.Backups(), doomed)|
    ensures |Remaining(s.Delete(name).Backups(), {})| <= |Remaining(s.Backups(), {})|
  {
    EntriesAfterDelete(s.Backups(), name);
    SubsetSize(Remaining(s.Delete(name).Backups(), doomed - {name}), Remaining(s.Backups(), doomed));
    SubsetSize(Remaining(s.Delete(name).Backups(), {}), Remaining(s.Backups(), {}));
  }

  lemma RemainingAfterCreate(s: Store, doomed: set<string>, name: string, run: int, clock: int)
    ensures Remaining(s.Create(name, run, clock).Backups(), doomed) == Remaining(s.Backups(), doomed)
  {
    if name !in s.Backups() {
      EntriesAfterAdd(s.Backups(), name, Backup(Cut(clock), Backups.New));
    }
  }
}
