/** What pruning spares over whole runs of a schedule, with its Backups changing phase meanwhile, and how their names
    and their order follow the runs that created them. */
module KeptBackups {
  import opened Machines
  import opened Sorting
  import opened Strings
  import opened Retention
  import opened Schedules
  import opened BackupNames
  import opened BackupStore
  import Backups

  /** The tick that is about to create works at a time after all that was created, in a later second than anything
      gone. */
  predicate PendingInv(s: State)
  {
    s.progress.Missed? ==>
      && s.progress.now <= s.clock && GoneBefore(s.store, s.progress.now)
      && (forall n | n in s.store.runs :: s.store.runs[n].created <= Cut(s.progress.now))
  }

  predicate KeepsSome(s: State)
  {
    && (forall k | 0 <= k < |s.objects| :: s.objects[k].spec.keep != Some(0))
    && (!s.progress.Idle? ==> s.progress.work.copy.spec.keep != Some(0))
  }

  ghost predicate PruningInv(s: State)
  {
    s.progress.Pruning? ==>
      && s.progress.work.copy.spec.keep.Some? && Dispensable(s.store, s.progress.doomed)
      && s.progress.doneBefore <= s.store.Done()
      && |Remaining(s.store.Backups(), s.progress.doomed)|
         <= s.progress.work.copy.spec.keep.value + (s.store.Done() - s.progress.doneBefore)
  }

  predicate PrunedInv(s: State)
  {
    s.pruned.Some? ==>
      && s.pruned.value.1 <= s.store.Done()
      && |Remaining(s.store.Backups(), {})| <= s.pruned.value.0 + (s.store.Done() - s.pruned.value.1)
  }

  ghost predicate StoreInv(s: State, named: int -> string)
  {
    && OriginInv(s.store, named, s.clock) && KeptInv(s.store) && PendingInv(s) && KeepsSome(s)
    && PruningInv(s) && PrunedInv(s)
  }

  lemma StoreInvStep(s: State, e: Event, named: int -> string)
    requires NamesOf(s.name, named)
    requires StoreInv(s, named) && Enabled(s, e)
    ensures StoreInv(Step(s, e), named)
  {
    match e {
      case PassTime(duration) => TimeKeepsStore(s, duration, named);
      case AdvanceBackup(backup, phase) => AdvanceKeepsStore(s, backup, phase, named);
      case CheckDue => DecisionKeepsStore(s, named);
      case CreateBackup => CreateKeepsStore(s, named);
      case ListBackups(v) => ListKeepsStore(s, v, named);
      case DeleteBackup(backup) => DeleteKeepsStore(s, backup, named);
      case FinishPrune => FinishKeepsStore(s, named);
      case _ => SameStore(s, e, named);
    }
  }

  /** `named` gives the names of the schedule's Backups. */
  ghost predicate NamesOf(schedule: string, named: int -> string)
  {
    Follows(named) && forall t | FourDigitYear(t) :: named(t) == BackupName(schedule, t)
  }

  function Naming(schedule: string): int -> string
  {
    t => if FourDigitYear(t) then BackupName(schedule, t) else ""
  }

  lemma NamingFollows(schedule: string)
    ensures NamesOf(schedule, Naming(schedule))
  {
    forall t, u | FourDigitYear(t) && FourDigitYear(u)
      ensures Naming(schedule)(t) == Naming(schedule)(u) <==> t / SECOND == u / SECOND
      ensures Less(Naming(schedule)(t), Naming(schedule)(u)) <==> t / SECOND < u / SECOND
    {
      NamesFollowTime(schedule, t, u);
    }
  }

  lemma SameStore(s: State, e: Event, named: int -> string)
    requires StoreInv(s, named) && Enabled(s, e) && (e.EditSpec? || e.Begin? || e.Rest? || e.PatchStatus? || e.Crash?)
    ensures StoreInv(Step(s, e), named)
  {
    var s' := Step(s, e);
    assert s'.store == s.store && s'.clock == s.clock && s'.name == s.name && s'.pruned == s.pruned;
    assert !s'.progress.Pruning? || s'.progress == s.progress;
    assert !s'.progress.Missed? || s'.progress == s.progress;
    SpecsKeepSome(s, e);
  }

  lemma SpecsKeepSome(s: State, e: Event)
    requires KeepsSome(s) && Enabled(s, e)
    ensures KeepsSome(Step(s, e))
  {
  }

  lemma TimeKeepsStore(s: State, duration: nat, named: int -> string)
    requires StoreInv(s, named) && Enabled(s, PassTime(duration))
    ensures StoreInv(Step(s, PassTime(duration)), named)
  {
    OriginsLater(s.store, named, s.clock, s.clock + duration);
  }

  lemma AdvanceKeepsStore(s: State, backup: string, phase: Backups.Phase, named: int -> string)
    requires StoreInv(s, named) && Enabled(s, AdvanceBackup(backup, phase))
    ensures StoreInv(Step(s, AdvanceBackup(backup, phase)), named)
  {
    var s' := s.(store := s.store.Advance(backup, phase));
    assert s' == Step(s, AdvanceBackup(backup, phase));
    OriginsAfterAdvance(s.store, named, s.clock, backup, phase);
    KeptAfterAdvance(s.store, backup, phase);
    RemainingAfterAdvance(s.store, {}, backup, phase);
    AdvanceKeepsPruning(s, s', backup, phase);
    AdvanceKeepsPending(s, s', backup, phase);
  }

  lemma AdvanceKeepsPending(s: State, s': State, backup: string, phase: Backups.Phase)
    requires PendingInv(s) && backup in s.store.Backups() && s' == s.(store := s.store.Advance(backup, phase))
    ensures PendingInv(s')
  {
    if s.progress.Missed? {
      GoneAfterAdvance(s.store, s.progress.now, backup, phase);
    }
  }

  lemma AdvanceKeepsPruning(s: State, s': State, backup: string, phase: Backups.Phase)
    requires PruningInv(s) && backup in s.store.Backups()
    requires s' == s.(store := s.store.Advance(backup, phase))
    ensures PruningInv(s')
  {
    if s.progress.Pruning? {
      RemainingAfterAdvance(s.store, s.progress.doomed, backup, phase);
      DispensableStays(s.store, s'.store, s.progress.doomed);
    }
  }

  lemma DispensableStays(s: Store, s': Store, doomed: set<string>)
    requires Dispensable(s, doomed) && s.ever <= s'.ever
    ensures Dispensable(s', doomed)
  {
    forall name | name in doomed ensures exists e :: e in s'.ever && e.name == name && HasNewer(s'.ever, e) {
      var e :| e in s.ever && e.name == name && HasNewer(s.ever, e);
      var d :| d in s.ever && Newer(d, e);
      assert d in s'.ever && e in s'.ever;
    }
  }

  lemma DecisionKeepsStore(s: State, named: int -> string)
    requires StoreInv(s, named) && Enabled(s, CheckDue)
    ensures StoreInv(Step(s, CheckDue), named)
  {
    forall n | n in s.store.runs ensures s.store.runs[n].created <= Cut(s.clock) {
      CutOrder(s.store.runs[n].created, s.clock);
    }
  }

  lemma CreateKeepsStore(s: State, named: int -> string)
    requires NamesOf(s.name, named)
    requires StoreInv(s, named) && Enabled(s, CreateBackup)
    ensures StoreInv(Step(s, CreateBackup), named)
  {
    var now, name := s.progress.now, BackupName(s.name, s.progress.now);
    TakenExactlyWhen(s.store, named, s.clock, now);
    OriginsAfterCreate(s.store, named, s.clock, now);
    KeptAfterCreate(s.store, name, now, s.clock);
    RemainingAfterCreate(s.store, {}, name, now, s.clock);
    CreatedState(s, Step(s, CreateBackup), named);
  }

  lemma CreatedState(s: State, s': State, named: int -> string)
    requires StoreInv(s, named) && Enabled(s, CreateBackup) && s' == Step(s, CreateBackup)
    requires OriginInv(s'.store, named, s.clock) && KeptInv(s'.store)
    requires Remaining(s'.store.Backups(), {}) == Remaining(s.store.Backups(), {})
    ensures StoreInv(s', named)
  {
    assert s'.store.Done() == s.store.Done();
  }

  lemma ListKeepsStore(s: State, v: nat, named: int -> string)
    requires StoreInv(s, named) && Enabled(s, ListBackups(v))
    ensures StoreInv(Step(s, ListBackups(v)), named)
  {
    var p := s.progress;
    if p.work.copy.spec.keep.Some? {
      var keep, list := p.work.copy.spec.keep.value, s.store.lists[v];
      var s' := s.(store := s.store.(listAt := v),
                   progress := Pruning(p.work, p.now, Doomed(list.backups, keep), list.done));
      assert Step(s, ListBackups(v)) == s';
      SeenKeepsStore(s.store, v, named, s.clock);
      ListedPruning(s, s', v, keep);
    }
  }

  lemma ListedPruning(s: State, s': State, v: nat, keep: nat)
    requires KeptInv(s.store) && v < |s.store.lists| && keep > 0 && s'.store == s.store.(listAt := v)
    requires s'.progress.Pruning? && s'.progress.work.copy.spec.keep == Some(keep)
    requires s'.progress.doomed == Doomed(s.store.lists[v].backups, keep)
    requires s'.progress.doneBefore == s.store.lists[v].done
    ensures PruningInv(s')
  {
    ListDooms(s.store, v, keep);
    ListBounds(s.store, v, keep);
    DispensableStays(s.store, s'.store, s'.progress.doomed);
    assert s'.store.Backups() == s.store.Backups() && s'.store.Done() == s.store.Done();
  }

  lemma SeenKeepsStore(s: Store, v: nat, named: int -> string, clock: int)
    requires OriginInv(s, named, clock) && KeptInv(s) && v < |s.lists|
    ensures OriginInv(s.(listAt := v), named, clock) && KeptInv(s.(listAt := v))
  {
  }

  lemma DeleteKeepsStore(s: State, backup: string, named: int -> string)
    requires Follows(named)
    requires StoreInv(s, named) && Enabled(s, DeleteBackup(backup))
    ensures StoreInv(Step(s, DeleteBackup(backup)), named)
  {
    var s' := s.(store := s.store.Delete(backup), progress := s.progress.(doomed := s.progress.doomed - {backup}));
    assert s' == Step(s, DeleteBackup(backup));
    var e :| e in s.store.ever && e.name == backup && HasNewer(s.store.ever, e);
    OriginsAfterDelete(s.store, named, s.clock, backup, e);
    EverNamed(s.store, named, s.clock, e);
    KeptAfterDelete(s.store, backup);
    DeleteKeepsPruning(s, s', backup);
  }

  /** One entry for a name. */
  lemma EverNamed(s: Store, named: int -> string, clock: int, e: Entry)
    requires OriginInv(s, named, clock) && e in s.ever
    ensures forall d | d in s.ever && d.name == e.name :: d == e
  {
    assert EntryOf(s.runs, e);
  }

  lemma DeleteKeepsPruning(s: State, s': State, backup: string)
    requires PruningInv(s) && PrunedInv(s) && s.progress.Pruning?
    requires s' == s.(store := s.store.Delete(backup), progress := s.progress.(doomed := s.progress.doomed - {backup}))
    ensures PruningInv(s') && PrunedInv(s')
  {
    RemainingAfterDelete(s.store, s.progress.doomed, backup);
    assert s'.store.ever == s.store.ever && s'.store.Done() == s.store.Done();
  }

  lemma FinishKeepsStore(s: State, named: int -> string)
    requires StoreInv(s, named) && Enabled(s, FinishPrune)
    ensures StoreInv(Step(s, FinishPrune), named)
  {
  }

  lemma StoreInvAlways(start: State, fires: int -> bool, run: Run<State, Event>, i: nat, named: int -> string)
    requires ValidStart(start, fires) && run.Of(Protocol(start)) && i < |run.states| && NamesOf(start.name, named)
    ensures StoreInv(run.states[i], named) && run.states[i].name == start.name
  {
    assert CompletedEntries(NOTHING.Backups()) == {};
    forall s, e | StoreInv(s, named) && s.name == start.name && Enabled(s, e)
      ensures StoreInv(Step(s, e), named) && Step(s, e).name == start.name
    {
      StoreInvStep(s, e, named);
      NothingFixedChanges(s, e);
    }
    Invariance(Protocol(start), s => StoreInv(s, named) && s.name == start.name, run, i);
  }

  /** At every moment of every run: of all Backups that ever completed the newest is still there, completed unless it
      was moved; a completed one exists if and only if not all that are there were moved; and there are no more
      completed ones than the last full prune kept plus those completed since the version of the list it worked on. */
  lemma NewestIsKept(start: State, fires: int -> bool, run: Run<State, Event>, i: nat)
    requires ValidStart(start, fires) && run.Of(Protocol(start)) && i < |run.states|
    ensures var s, completed := run.states[i].store, CompletedEntries(run.states[i].store.Backups());
            && (forall e | e in s.ever && !HasNewer(s.ever, e) :: e.name in s.Backups() && Stands(s, e))
            && (completed != {} <==> exists e :: e in s.ever && e.name in s.Backups() && e.name !in s.moved)
            && (run.states[i].pruned.Some? ==>
                  |completed| <= run.states[i].pruned.value.0 + (s.Done() - run.states[i].pruned.value.1))
  {
    NamingFollows(start.name);
    StoreInvAlways(start, fires, run, i, Naming(start.name));
    var s := run.states[i].store;
    assert Remaining(s.Backups(), {}) == CompletedEntries(s.Backups());
    CompletedUnlessMoved(s);
  }

  lemma CompletedUnlessMoved(s: Store)
    requires KeptInv(s)
    ensures forall e | e in s.ever && e.name in s.Backups() :: Stands(s, e)
    ensures forall e | e in s.ever && !HasNewer(s.ever, e) :: e.name in s.Backups()
    ensures CompletedEntries(s.Backups()) != {}
            <==> exists e :: e in s.ever && e.name in s.Backups() && e.name !in s.moved
  {
    EntriesAre(s.Backups());
    assert CompletedEntries(s.lists[|s.lists| - 1].backups) <= s.ever;
    if e :| e in s.ever && e.name in s.Backups() && e.name !in s.moved {
      assert e in CompletedEntries(s.Backups());
    }
  }

  /** A Backup joins the moved ones only by a move that no pass over a present copy makes. */
  lemma OnlyOldPassesMove(start: State, run: Run<State, Event>, i: nat, name: string)
    requires run.Of(Protocol(start)) && i < |run.events|
    requires name !in run.states[i].store.moved && name in run.states[i + 1].store.moved
    ensures run.events[i].AdvanceBackup? && run.events[i].backup == name && name in run.states[i].store.Backups()
    ensures !Backups.MayBecome(run.states[i].store.Backups()[name].phase, run.events[i].phase)
  {
    assert Enabled(run.states[i], run.events[i]);
    MovedBy(run.states[i], run.events[i], name);
  }

  lemma MovedBy(s: State, e: Event, name: string)
    requires Enabled(s, e) && name !in s.store.moved && name in Step(s, e).store.moved
    ensures e.AdvanceBackup? && e.backup == name && name in s.store.Backups()
    ensures s.store.Backups()[name].phase.Completed? && !e.phase.Completed?
  {
  }

  /** As long as all moves are of passes over present copies: once one has completed, a completed Backup exists, the
      newest that ever completed among them. */
  lemma KeptOverPresentCopies(start: State, fires: int -> bool, run: Run<State, Event>, i: nat)
    requires ValidStart(start, fires) && run.Of(Protocol(start)) && i < |run.states|
    requires forall k | 0 <= k < i :: PresentMove(run.states[k], run.events[k])
    ensures var s, completed := run.states[i].store, CompletedEntries(run.states[i].store.Backups());
            && (s.ever != {} <==> completed != {})
            && (forall e | e in s.ever && !HasNewer(s.ever, e) :: e in completed)
  {
    NewestIsKept(start, fires, run, i);
    NothingMoved(start, run, i);
    var s := run.states[i].store;
    EntriesAre(s.Backups());
    if s.ever != {} {
      var newest := NewestOf(s.ever);
    }
  }

  predicate PresentMove(s: State, e: Event)
  {
    e.AdvanceBackup? && e.backup in s.store.Backups() ==>
      Backups.MayBecome(s.store.Backups()[e.backup].phase, e.phase)
  }

  lemma {:induction false} NothingMoved(start: State, run: Run<State, Event>, i: nat)
    requires start.store.moved == {} && run.Of(Protocol(start)) && i < |run.states|
    requires forall k | 0 <= k < i :: PresentMove(run.states[k], run.events[k])
    ensures run.states[i].store.moved == {}
  {
    if i > 0 {
      NothingMoved(start, run, i - 1);
      assert PresentMove(run.states[i - 1], run.events[i - 1]);
      PresentMovesNothing(run.states[i - 1], run.events[i - 1]);
    }
  }

  lemma PresentMovesNothing(s: State, e: Event)
    requires Enabled(s, e) && PresentMove(s, e)
    ensures Step(s, e).store.moved <= s.store.moved
  {
  }

  lemma NewestOf(entries: set<Entry>) returns (newest: Entry)
    requires entries != {}
    ensures newest in entries && !HasNewer(entries, newest)
  {
    NewerIsStrictTotal();
    var sorted := Arrange(entries, Newer);
    var e :| e in Elements(sorted);
    newest := sorted[0];
    assert newest in Elements(sorted);
    forall d | d in entries ensures !Newer(d, newest) {
      var j :| 0 <= j < |sorted| && sorted[j] == d;
      assert j == 0 || Newer(newest, d);
    }
  }

  /** Whatever old list a prune works on, what it deletes is older than one that completed, and had completed itself; it
      is unfinished now if and only if it was moved since. */
  lemma OnlyOldOnesGo(start: State, fires: int -> bool, run: Run<State, Event>, i: nat)
    requires ValidStart(start, fires) && run.Of(Protocol(start)) && i < |run.events| && run.events[i].DeleteBackup?
    ensures var s, name := run.states[i].store, run.events[i].backup;
            name in s.Backups() ==>
              var e := Entry(s.Backups()[name].created, name);
              && e in s.ever && HasNewer(s.ever, e)
              && (s.Backups()[name].phase.Completed? <==> name !in s.moved)
  {
    NamingFollows(start.name);
    StoreInvAlways(start, fires, run, i, Naming(start.name));
    assert Enabled(run.states[i], run.events[i]);
    var s, name := run.states[i].store, run.events[i].backup;
    var e :| e in s.ever && e.name == name && HasNewer(s.ever, e);
    CompletedUnlessMoved(s);
  }

  /** A create that finds its name taken comes from a second run within the same second, and the Backup of the first is
      still there. */
  lemma TakenBySameSecond(start: State, fires: int -> bool, run: Run<State, Event>, i: nat)
    requires ValidStart(start, fires) && run.Of(Protocol(start)) && i < |run.events| && run.events[i].CreateBackup?
    ensures run.states[i].progress.Missed? && FourDigitYear(run.states[i].progress.now)
    ensures var s, now := run.states[i].store, run.states[i].progress.now;
            BackupName(start.name, now) in s.Backups()
            <==> exists n :: n in s.runs && s.runs[n].run / SECOND == now / SECOND
  {
    NamingFollows(start.name);
    StoreInvAlways(start, fires, run, i, Naming(start.name));
    assert Enabled(run.states[i], run.events[i]);
    TakenExactlyWhen(run.states[i].store, Naming(start.name), run.states[i].clock, run.states[i].progress.now);
  }

  /** At every moment of every run the order in which a prune looks at the Backups that completed is the order of the
      runs that created them. */
  lemma OrderFollowsRuns(start: State, fires: int -> bool, run: Run<State, Event>, i: nat, d: Entry, e: Entry)
    requires ValidStart(start, fires) && run.Of(Protocol(start)) && i < |run.states|
    requires d in run.states[i].store.ever && e in run.states[i].store.ever
    ensures var runs := run.states[i].store.runs;
            && d.name in runs && e.name in runs
            && (Newer(d, e) <==> runs[e.name].run / SECOND < runs[d.name].run / SECOND)
  {
    NamingFollows(start.name);
    StoreInvAlways(start, fires, run, i, Naming(start.name));
    NewerFollowsRuns(Naming(start.name), run.states[i].store.runs, run.states[i].clock, d, e);
  }

  // Runs in which passes over old copies move Backups that have completed.

  const FIRST := Object(Spec(false, true, Some(1)), Status(None, None, ""))

  function AtOnce(name: string, next: int -> int): State
  {
    Start(name, 0, Some(next), FIRST.spec)
  }

  /** The Backup of this second, completed. */
  function Completing(s: Store, name: string, clock: int): Store
    requires name !in s.Backups()
  {
    s.Create(name, clock, clock).Advance(name, Backups.Completed)
  }

  /** A tick over the first copy as far as its create, and the Backup completes. */
  lemma CreateAndComplete(start: State, run: Run<State, Event>) returns (later: Run<State, Event>)
    requires run.Of(Protocol(start)) && run.Last().progress.Idle? && run.Last().next.Some?
    requires run.Last().objects != [] && run.Last().seen == 0 && run.Last().objects[0] == FIRST
    requires FourDigitYear(run.Last().clock)
    requires BackupName(run.Last().name, run.Last().clock) !in run.Last().store.Backups()
    ensures later.Of(Protocol(start))
    ensures var s, s' := run.Last(), later.Last();
            && s'.progress.Created? && s'.progress.work.copy == FIRST
            && s' == s.(progress := s'.progress, tally := s'.tally,
                        store := Completing(s.store, BackupName(s.name, s.clock), s.clock))
  {
    var backup := BackupName(run.Last().name, run.Last().clock);
    later := Prolong(Protocol(start), run, Begin(0));
    later := Prolong(Protocol(start), later, CheckDue);
    assert later.Last().progress == Missed(Work(FIRST, FIRST.status != run.Last().Latest().status, FIRST.status),
                                           run.Last().clock);
    later := Prolong(Protocol(start), later, CreateBackup);
    assert later.Last().store.Backups()[backup].phase.New?;
    later := Prolong(Protocol(start), later, AdvanceBackup(backup, Backups.Completed));
  }

  lemma StartsAtOnce(name: string, next: int -> int, fires: int -> bool)
    requires NextOf(next, fires)
    ensures ValidStart(AtOnce(name, next), fires)
  {
  }

  lemma OneCompleted(name: string, next: int -> int) returns (run: Run<State, Event>)
    ensures FourDigitYear(0)
    ensures run.Of(Protocol(AtOnce(name, next)))
    ensures var s := run.Last();
            && s.progress.Created?
            && s == AtOnce(name, next).(progress := s.progress, tally := s.tally,
                                       store := Completing(NOTHING, BackupName(name, 0), 0))
  {
    EpochYears();
    run := Run([AtOnce(name, next)], []);
    run := CreateAndComplete(AtOnce(name, next), run);
  }

  /** A Backup has completed and none is completed. */
  lemma CompletedStatusLost(name: string, next: int -> int) returns (run: Run<State, Event>)
    ensures run.Of(Protocol(AtOnce(name, next)))
    ensures run.Last().store.ever != {} && CompletedEntries(run.Last().store.Backups()) == {}
  {
    run := OneCompleted(name, next);
    var backup := BackupName(name, 0);
    OnlyBackup(backup);
    run := Prolong(Protocol(AtOnce(name, next)), run, AdvanceBackup(backup, Backups.Failed));
  }

  lemma OnlyBackup(name: string)
    ensures var s := Completing(NOTHING, name, 0);
            && s.Backups() == map[name := Backup(0, Backups.Completed)] && s.ever == {Entry(0, name)}
            && CompletedEntries(s.Advance(name, Backups.Failed).Backups()) == {}
  {
    var s := Completing(NOTHING, name, 0);
    assert s.Backups() == map[name := Backup(0, Backups.Completed)];
    EntriesAre(s.Advance(name, Backups.Failed).Backups());
  }

  /** A prune that lists two completed Backups deletes the older one although it is back at work by then. */
  lemma UnfinishedDeleted(name: string, next: int -> int) returns (run: Run<State, Event>, later: Run<State, Event>)
    ensures FourDigitYear(0) && run.Of(Protocol(AtOnce(name, next)))
    ensures var s, backup := run.Last(), BackupName(name, 0);
            && backup in s.store.Backups() && s.store.Backups()[backup].phase.Running?
            && later.Of(Protocol(AtOnce(name, next))) && later.events == run.events + [DeleteBackup(backup)]
            && backup !in later.Last().store.Backups()
  {
    run := TwoCompleted(name, next);
    var m, backup := Protocol(AtOnce(name, next)), BackupName(name, 0);
    run := Prolong(m, run, AdvanceBackup(backup, Backups.Running));
    later := Prolong(m, run, DeleteBackup(backup));
  }

  lemma TwoCompleted(name: string, next: int -> int) returns (run: Run<State, Event>)
    ensures FourDigitYear(0) && run.Of(Protocol(AtOnce(name, next)))
    ensures var s, backup := run.Last(), BackupName(name, 0);
            && s.progress.Pruning? && backup in s.progress.doomed
            && backup in s.store.Backups() && s.store.Backups()[backup].phase.Completed?
  {
    EpochYears();
    run := NextSecond(name, next);
    NamesFollowTime(name, 0, SECOND);
    BothListed(BackupName(name, 0), BackupName(name, SECOND));
    run := CreateAndComplete(AtOnce(name, next), run);
    run := ListLatest(AtOnce(name, next), run);
  }

  lemma NextSecond(name: string, next: int -> int) returns (run: Run<State, Event>)
    ensures FourDigitYear(0) && FourDigitYear(SECOND) && run.Of(Protocol(AtOnce(name, next)))
    ensures var s := run.Last();
            && s.progress.Idle?
            && s == AtOnce(name, next).(progress := s.progress, tally := s.tally, clock := SECOND,
                                       store := Completing(NOTHING, BackupName(name, 0), 0))
  {
    EpochYears();
    run := OneCompleted(name, next);
    run := Prolong(Protocol(AtOnce(name, next)), run, Crash);
    run := Prolong(Protocol(AtOnce(name, next)), run, PassTime(SECOND));
  }

  lemma ListLatest(start: State, run: Run<State, Event>) returns (later: Run<State, Event>)
    requires run.Of(Protocol(start)) && run.Last().progress.Created? && run.Last().next.Some?
    requires run.Last().progress.work.copy == FIRST
    requires run.Last().store.lists != [] && run.Last().store.listAt < |run.Last().store.lists|
    ensures later.Of(Protocol(start)) && later.Last().progress.Pruning?
    ensures later.Last().store.Backups() == run.Last().store.Backups()
    ensures later.Last().progress.doomed == Doomed(run.Last().store.Backups(), 1)
  {
    later := Prolong(Protocol(start), run, ListBackups(|run.Last().store.lists| - 1));
  }

  lemma BothListed(a: string, b: string)
    requires a != b
    ensures var s := Completing(NOTHING, a, 0);
            && b !in s.Backups()
            && var t := Completing(s, b, SECOND);
               && t.lists != [] && t.listAt == 0 && a in Doomed(t.Backups(), 1)
               && a in t.Backups() && t.Backups()[a].phase.Completed?
  {
    OnlyBackup(a);
    var t := Completing(Completing(NOTHING, a, 0), b, SECOND);
    assert t.Backups() == map[a := Backup(0, Backups.Completed), b := Backup(SECOND, Backups.Completed)];
    OlderIsDoomed(t.Backups(), a, b);
  }

  lemma OlderIsDoomed(backups: map<string, Backup>, a: string, b: string)
    requires backups == map[a := Backup(0, Backups.Completed), b := Backup(SECOND, Backups.Completed)] && a != b
    ensures a in Doomed(backups, 1)
  {
    EntriesAre(backups);
    var older, newer := Entry(0, a), Entry(SECOND, b);
    assert newer in Before(CompletedEntries(backups), Newer, older);
    SubsetSize({newer}, Before(CompletedEntries(backups), Newer, older));
    assert older in CompletedEntries(backups);
  }
}
