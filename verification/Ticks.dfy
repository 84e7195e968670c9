/** One tick of a ScheduledBackup as the controller runs it: decide, create, prune, and store the status. */
module Ticks {
  import opened Machines
  import opened Sorting
  import opened Retention
  import opened Schedules
  import opened BackupNames
  import opened BackupStore
  import Backups

  ghost predicate Ticks(w: World<State, Event>, start: State)
    reads w`run, w`state
  {
    w.Runs(Protocol(start))
  }

  /** What the controller's own progress, the stored status, the counters and the names of the Backups have in common
      before and after others acted. */
  ghost predicate Undisturbed(before: State, s: State)
  {
    && s.progress == before.progress && s.next == before.next && s.createdAt == before.createdAt
    && s.name == before.name
    && s.tally == before.tally && before.objects <= s.objects && s.Latest().status == before.Latest().status
    && s.store.Backups().Keys == before.store.Backups().Keys && before.store.lists <= s.store.lists
    && (FourDigitYear(before.clock) ==> FourDigitYear(s.clock))
  }

  lemma OthersDisturbNothing(before: State, s: State, e: Event)
    requires Undisturbed(before, s) && Enabled(s, e) && External(e)
    ensures Undisturbed(before, Step(s, e))
  {
  }

  method Interfere(ghost start: State, w: World<State, Event>)
    requires Ticks(w, start)
    modifies w
    ensures Ticks(w, start) && w.run.Continues(old(w.run)) && Undisturbed(old(w.state), w.state)
    ensures w.faults == old(w.faults)
  {
    ghost var before, entry := |w.run.events|, w.state;
    w.Others();
    forall s, e | Undisturbed(entry, s) && Enabled(s, e) && External(e) ensures Undisturbed(entry, Step(s, e)) {
      OthersDisturbNothing(entry, s, e);
    }
    ExternalInvariance(Protocol(start), (s: State) => Undisturbed(entry, s), w.run, before, |w.run.events|);
  }

  /** The listed Backups are filtered in whatever order they come. */
  method Completed(backups: map<string, Backup>) returns (completed: seq<Entry>)
    ensures Distinct(completed) && Elements(completed) == CompletedEntries(backups)
  {
    completed := [];
    var rest := backups.Keys;
    EntriesAre(backups);
    while rest != {}
      invariant rest <= backups.Keys
      invariant Distinct(completed)
      invariant forall e :: e in completed <==> e in CompletedEntries(backups) && e.name !in rest
    {
      var name :| name in rest;
      rest := rest - {name};
      if backups[name].phase.Completed? {
        completed := completed + [Entry(backups[name].created, name)];
      }
    }
  }

  method NewestFirst(backups: map<string, Backup>) returns (sorted: seq<Entry>)
    ensures Sorted(sorted, Newer) && Elements(sorted) == CompletedEntries(backups)
  {
    var completed := Completed(backups);
    NewerIsStrictTotal();
    SortSorts(completed, Newer);
    sorted := Sort(completed, Newer);
  }

  /** What deleting `doomed` does to the names in the store, all of it or only a part. */
  predicate Pruned(before: set<string>, after: set<string>, doomed: set<string>, all: bool)
  {
    if all then after == before - doomed else before - doomed <= after <= before
  }

  /** What stays over the later part of a tick. */
  ghost predicate SameBut(before: State, s: State)
  {
    && s.next == before.next && s.createdAt == before.createdAt && s.name == before.name && s.tally == before.tally
    && s.Latest().status == before.Latest().status && (FourDigitYear(before.clock) ==> FourDigitYear(s.clock))
    && before.store.lists <= s.store.lists && |before.objects| <= |s.objects|
  }

  predicate IsVersion(lists: seq<Listing>, backups: map<string, Backup>)
  {
    exists v | 0 <= v < |lists| :: lists[v].backups == backups
  }

  /** Works on the list as the cache shows it, and deletes from the newest-first list on from index `keep`. A prune
      that goes through deletes exactly what it was not to spare; cut short it has deleted nothing else. */
  method Prune(ghost start: State, w: World<State, Event>) returns (ok: bool, ghost listed: map<string, Backup>)
    requires Ticks(w, start) && w.state.progress.Created? && w.state.next.Some?
    modifies w
    ensures Ticks(w, start) && w.run.Continues(old(w.run)) && SameBut(old(w.state), w.state) && !w.state.progress.Idle?
    ensures ok ==>
              w.state.progress
                  == Scheduled(old(w.state).progress.work, old(w.state).progress.now, old(w.state).next.value)
    ensures var keep := old(w.state).progress.work.copy.spec.keep;
            Pruned(old(w.state).store.Backups().Keys, w.state.store.Backups().Keys,
                   if keep.None? then {} else Doomed(listed, keep.value), ok)
            && (ok && keep.Some? ==> IsVersion(w.state.store.lists, listed)) && (keep.None? ==> ok)
    ensures w.faults >= old(w.faults) && (!ok ==> w.faults > old(w.faults))
  {
    var keep := w.state.progress.work.copy.spec.keep;
    listed := map[];
    if keep.None? {
      w.Do(ListBackups(0));
      return true, map[];
    }
    Interfere(start, w);
    var v: int := *;
    if !(w.state.store.listAt <= v < |w.state.store.lists|) {
      // The Backups could not be listed.
      w.Fault();
      return false, map[];
    }
    listed := w.state.store.lists[v].backups;
    ghost var lists := w.state.store.lists;
    ok := PruneListed(start, w, keep.value, v);
    assert w.state.store.lists[v] == lists[v];
  }

  method PruneListed(ghost start: State, w: World<State, Event>, keep: nat, v: nat) returns (ok: bool)
    requires Ticks(w, start) && w.state.progress.Created? && w.state.next.Some?
    requires w.state.progress.work.copy.spec.keep == Some(keep) && w.state.store.listAt <= v < |w.state.store.lists|
    modifies w
    ensures Ticks(w, start) && w.run.Continues(old(w.run)) && SameBut(old(w.state), w.state) && !w.state.progress.Idle?
    ensures Pruned(old(w.state).store.Backups().Keys, w.state.store.Backups().Keys,
                   Doomed(old(w.state).store.lists[v].backups, keep), ok)
    ensures ok ==>
              w.state.progress
                  == Scheduled(old(w.state).progress.work, old(w.state).progress.now, old(w.state).next.value)
    ensures w.faults >= old(w.faults) && (!ok ==> w.faults > old(w.faults))
  {
    var list := w.state.store.lists[v];
    var sorted := NewestFirst(list.backups);
    List(start, w, keep, v);
    ok := DeleteFrom(start, w, sorted, keep, list.backups);
    if ok {
      Finish(start, w);
    }
  }

  method List(ghost start: State, w: World<State, Event>, keep: nat, v: nat)
    requires Ticks(w, start) && w.state.progress.Created? && w.state.next.Some?
    requires w.state.progress.work.copy.spec.keep == Some(keep) && w.state.store.listAt <= v < |w.state.store.lists|
    modifies w
    ensures Ticks(w, start) && w.run.Continues(old(w.run)) && SameBut(old(w.state), w.state)
    ensures w.state.store == old(w.state).store.(listAt := v)
    ensures var p, list := old(w.state).progress, old(w.state).store.lists[v];
            w.state.progress == Pruning(p.work, p.now, Doomed(list.backups, keep), list.done)
    ensures w.faults == old(w.faults)
  {
    w.Do(ListBackups(v));
  }

  method Finish(ghost start: State, w: World<State, Event>)
    requires Ticks(w, start) && w.state.progress.Pruning? && w.state.progress.doomed == {} && w.state.next.Some?
    requires w.state.progress.work.copy.spec.keep.Some?
    modifies w
    ensures Ticks(w, start) && w.run.Continues(old(w.run)) && SameBut(old(w.state), w.state)
    ensures w.state.store == old(w.state).store && w.faults == old(w.faults)
    ensures w.state.progress
        == Scheduled(old(w.state).progress.work, old(w.state).progress.now, old(w.state).next.value)
  {
    w.Do(FinishPrune);
  }

  /** The loop of the prune. */
  method DeleteFrom(ghost start: State, w: World<State, Event>, sorted: seq<Entry>, keep: nat,
                    ghost listed: map<string, Backup>) returns (ok: bool)
    requires Ticks(w, start) && w.state.progress.Pruning? && w.state.progress.doomed == Doomed(listed, keep)
    requires Sorted(sorted, Newer) && Elements(sorted) == CompletedEntries(listed)
    modifies w
    ensures Ticks(w, start) && w.run.Continues(old(w.run)) && SameBut(old(w.state), w.state)
    ensures SamePrune(old(w.state).progress, w.state.progress) && (ok ==> w.state.progress.doomed == {})
    ensures Pruned(old(w.state).store.Backups().Keys, w.state.store.Backups().Keys, Doomed(listed, keep), ok)
    ensures w.faults == old(w.faults) + if ok then 0 else 1
  {
    ok := true;
    TailIsDoomed(listed, sorted, keep);
    ghost var all := w.state.store.Backups().Keys;
    var i := keep;
    while i < |sorted|
      invariant keep <= i && ok && w.faults == old(w.faults)
      invariant Ticks(w, start) && w.run.Continues(old(w.run)) && SameBut(old(w.state), w.state)
      invariant SamePrune(old(w.state).progress, w.state.progress)
      invariant w.state.progress.doomed == NamesFrom(sorted, i)
      invariant w.state.store.Backups().Keys == all - (Doomed(listed, keep) - w.state.progress.doomed)
    {
      NextName(listed, sorted, i);
      ok := DeleteOne(start, w, sorted[i].name);
      if !ok {
        return;
      }
      i := i + 1;
    }
  }

  /** Only what is left to delete differs. */
  predicate SamePrune(before: Progress, after: Progress)
  {
    before.Pruning? && after.Pruning? && after == before.(doomed := after.doomed)
  }

  /** A request that failed may still have gone through. */
  method DeleteOne(ghost start: State, w: World<State, Event>, name: string) returns (ok: bool)
    requires Ticks(w, start) && w.state.progress.Pruning? && name in w.state.progress.doomed
    modifies w
    ensures Ticks(w, start) && w.run.Continues(old(w.run)) && SameBut(old(w.state), w.state)
    ensures var p, names := old(w.state).progress, old(w.state).store.Backups().Keys;
            || (w.state.store.Backups().Keys == names - {name} && w.state.progress == p.(doomed := p.doomed - {name}))
            || (!ok && w.state.store.Backups().Keys == names && w.state.progress == p)
    ensures w.faults == old(w.faults) + if ok then 0 else 1
  {
    Interfere(start, w);
    var failed := w.Fails();
    var arrived: bool := *;
    if !failed || arrived {
      w.Do(DeleteBackup(name));
    }
    ok := !failed;
  }

  function NamesFrom(sorted: seq<Entry>, i: nat): set<string>
  {
    set j | i <= j < |sorted| :: sorted[j].name
  }

  lemma NextName(backups: map<string, Backup>, sorted: seq<Entry>, i: nat)
    requires Sorted(sorted, Newer) && Elements(sorted) == CompletedEntries(backups) && i < |sorted|
    ensures NamesFrom(sorted, i + 1) == NamesFrom(sorted, i) - {sorted[i].name}
        && sorted[i].name in NamesFrom(sorted, i)
  {
    NamesDiffer(backups, sorted);
  }

  lemma NamesDiffer(backups: map<string, Backup>, sorted: seq<Entry>)
    requires Sorted(sorted, Newer) && Elements(sorted) == CompletedEntries(backups)
    ensures forall i, j | 0 <= i < j < |sorted| :: sorted[i].name != sorted[j].name
  {
    NewerIsStrictTotal();
    EntriesAre(backups);
    forall i, j | 0 <= i < j < |sorted| ensures sorted[i].name != sorted[j].name {
      assert sorted[i] in Elements(sorted) && sorted[j] in Elements(sorted);
      assert Newer(sorted[i], sorted[j]);
    }
  }

  /** A Backup is made only if none has the name already. */
  function Fresh(s: State, name: string): nat
  {
    if name in s.store.Backups() then 0 else 1
  }

  method CreateBackup(ghost start: State, w: World<State, Event>, work: Work, now: int) returns (ok: bool, done: Work)
    requires Ticks(w, start) && w.state.progress == Missed(work, now) && FourDigitYear(now)
    modifies w
    ensures Ticks(w, start) && w.run.Continues(old(w.run))
    ensures var s, name := old(w.state), BackupName(old(w.state).name, now);
            && done == work.(status := work.status.(last := Some(now), lastBackup := name))
            && (|| (w.state.progress == Schedules.Created(done, now)
                    && w.state.tally.made == s.tally.made + Fresh(s, name))
                || (!ok && w.state.progress == s.progress && w.state.tally == s.tally))
            && w.state.next == s.next && w.state.createdAt == s.createdAt && w.state.name == s.name
            && w.state.Latest().status == s.Latest().status && (FourDigitYear(s.clock) ==> FourDigitYear(w.state.clock))
    ensures w.faults == old(w.faults) + (if ok then 0 else 1) && |old(w.state).objects| <= |w.state.objects|
  {
    Interfere(start, w);
    var name := BackupName(w.state.name, now);
    done := work.(status := work.status.(last := Some(now)));
    done := done.(status := done.status.(lastBackup := name));
    var failed := w.Fails();
    var arrived: bool := *;
    if !failed || arrived {
      SendCreate(start, w, done);
    }
    ok := !failed;
  }

  method SendCreate(ghost start: State, w: World<State, Event>, ghost done: Work)
    requires Ticks(w, start) && w.state.progress.Missed? && FourDigitYear(w.state.progress.now)
    requires var p := w.state.progress;
             var status := p.work.status.(last := Some(p.now), lastBackup := BackupName(w.state.name, p.now));
             done == p.work.(status := status)
    modifies w
    ensures Ticks(w, start) && w.run.Continues(old(w.run)) && w.faults == old(w.faults)
    ensures var s := old(w.state);
            && w.state.progress == Schedules.Created(done, s.progress.now)
            && w.state.tally.made == s.tally.made + Fresh(s, done.status.lastBackup)
            && w.state.next == s.next && w.state.createdAt == s.createdAt && w.state.name == s.name
            && w.state.objects == s.objects && w.state.clock == s.clock
  {
    w.Do(Event.CreateBackup);
  }

  /** What a tick over `copy` that looked at the clock at `now` makes of the status. */
  ghost predicate Ticked(s: State, s': State, copy: Object, now: int, status: Status)
    requires s.next.Some?
  {
    && status.next == Some(s.next.value(now))
    && if IsDue(s, copy, now)
       then && status.last == Some(now) && FourDigitYear(now) && status.lastBackup == BackupName(s.name, now)
            && s'.tally.made == s.tally.made + Fresh(s, status.lastBackup)
       else && status.last == copy.status.last && status.lastBackup == copy.status.lastBackup
            && s'.tally.made == s.tally.made
  }

  method CreateAndPrune(ghost start: State, w: World<State, Event>, work: Work, now: int) returns (ok: bool, done: Work)
    requires Ticks(w, start) && w.state.progress == Missed(work, now) && FourDigitYear(now) && w.state.next.Some?
    modifies w
    ensures Ticks(w, start) && w.run.Continues(old(w.run)) && !w.state.progress.Idle?
    ensures var s, name := old(w.state), BackupName(old(w.state).name, now);
            && done == work.(status := work.status.(last := Some(now), lastBackup := name))
            && (w.state.tally.made == s.tally.made + Fresh(s, name) || (!ok && w.state.tally.made == s.tally.made))
            && (ok ==> w.state.progress == Scheduled(done, now, s.next.value))
            && w.state.next == s.next && w.state.createdAt == s.createdAt
            && w.state.Latest().status == s.Latest().status && (FourDigitYear(s.clock) ==> FourDigitYear(w.state.clock))
    ensures w.faults >= old(w.faults) && (!ok ==> w.faults > old(w.faults))
    ensures |old(w.state).objects| <= |w.state.objects|
  {
    ok, done := CreateBackup(start, w, work, now);
    if ok {
      ghost var listed;
      ok, listed := Prune(start, w);
    }
  }

  /** Never more than one Backup, and none unless due; a tick that goes through did all of its work. */
  method Tick(ghost start: State, w: World<State, Event>, work: Work) returns (ok: bool, done: Work, now: int)
    requires Ticks(w, start) && w.state.progress == Begun(work) && work.status == work.copy.status
    requires FourDigitYear(w.state.clock) && w.state.next.Some? && !work.copy.spec.suspend
    modifies w
    ensures Ticks(w, start) && w.run.Continues(old(w.run)) && w.state.Latest().status == old(w.state).Latest().status
    ensures now == old(w.state).clock && !w.state.progress.Idle? && w.state.next == old(w.state).next
    ensures old(w.state).tally.made <= w.state.tally.made <= old(w.state).tally.made + 1
    ensures w.state.tally.made != old(w.state).tally.made ==> IsDue(old(w.state), work.copy, now)
    ensures FourDigitYear(w.state.clock) && done.copy == work.copy
    ensures ok ==> Ticked(old(w.state), w.state, work.copy, now, done.status)
                   && w.state.progress.Decided? && w.state.progress.work == done
    ensures !IsDue(old(w.state), work.copy, now) ==> ok
    ensures w.faults >= old(w.faults) && (!ok ==> w.faults > old(w.faults))
    ensures |old(w.state).objects| <= |w.state.objects|
  {
    now := w.state.clock;
    done, ok := work, true;
    var due := Due(work.copy.status.last, w.state.createdAt, work.copy.spec.immediate, w.state.next.value, now);
    Look(start, w, work, due);
    if due {
      ok, done := CreateAndPrune(start, w, work, now);
    }
    done := done.(status := done.status.(next := Some(w.state.next.value(now))));
  }

  /** Whether a tick is due is decided at one moment. */
  method Look(ghost start: State, w: World<State, Event>, ghost work: Work, ghost due: bool)
    requires Ticks(w, start) && w.state.progress == Begun(work) && work.status == work.copy.status
    requires FourDigitYear(w.state.clock) && w.state.next.Some? && !work.copy.spec.suspend
    requires due == Due(work.copy.status.last, w.state.createdAt, work.copy.spec.immediate, w.state.next.value,
                        w.state.clock)
    modifies w
    ensures Ticks(w, start) && w.run.Continues(old(w.run)) && w.faults == old(w.faults)
    ensures w.state == old(w.state).(progress := w.state.progress)
    ensures due == IsDue(old(w.state), work.copy, w.state.clock)
    ensures w.state.progress == if due then Missed(work, w.state.clock)
                                else Decided(WithNext(work, Some(w.state.next.value(w.state.clock))),
                                             Some(w.state.clock), false)
  {
    w.Do(CheckDue);
  }

  /** One pass over version `v` of the schedule, if the cache shows it. On success with a usable schedule that is not
      suspended, the stored status is changed by what the tick at `now` made of its copy, the last time cut to whole
      seconds; on failure either the same was `stored` and only the answer got lost, or nothing was. */
  method Reconcile(ghost start: State, w: World<State, Event>, v: nat)
    returns (ok: bool, found: bool, copy: Object, now: int, status: Status, ghost stored: bool)
    requires Ticks(w, start) && w.state.progress.Idle? && FourDigitYear(w.state.clock)
    modifies w
    ensures Ticks(w, start) && w.run.Continues(old(w.run)) && w.state.progress.Idle?
    ensures found <==> old(w.state).seen <= v < |old(w.state).objects|
    ensures found ==> copy == old(w.state).objects[v]
    ensures w.state.tally.made <= old(w.state).tally.made + 1
    ensures w.state.tally.made != old(w.state).tally.made ==>
              found && old(w.state).next.Some? && !copy.spec.suspend && IsDue(old(w.state), copy, now)
    ensures var s := old(w.state);
            w.state.Latest().status
            == if stored then Merged(s.Latest().status, copy.status, Stored(status)) else s.Latest().status
    ensures ok && found ==> stored
    ensures !found ==> ok && w.state == old(w.state)
    ensures stored ==> found && Worked(old(w.state), w.state, copy, now, status)
    ensures !ok ==> w.faults > old(w.faults)
  {
    now, ok, found, stored := w.state.clock, true, false, false;
    copy := w.state.Latest();
    status := copy.status;
    if w.state.seen <= v < |w.state.objects| {
      found, copy := true, w.state.objects[v];
      ok, now, status, stored := WorkOn(start, w, v, copy);
    }
  }

  method WorkOn(ghost start: State, w: World<State, Event>, v: nat, copy: Object)
    returns (ok: bool, now: int, status: Status, ghost stored: bool)
    requires Ticks(w, start) && w.state.progress.Idle? && FourDigitYear(w.state.clock)
    requires w.state.seen <= v < |w.state.objects| && copy == w.state.objects[v]
    modifies w
    ensures Ticks(w, start) && w.run.Continues(old(w.run)) && w.state.progress.Idle?
    ensures w.state.tally.made <= old(w.state).tally.made + 1
    ensures w.state.tally.made != old(w.state).tally.made ==>
              old(w.state).next.Some? && !copy.spec.suspend && IsDue(old(w.state), copy, now)
    ensures var s := old(w.state);
            w.state.Latest().status
            == if stored then Merged(s.Latest().status, copy.status, Stored(status)) else s.Latest().status
    ensures ok ==> stored
    ensures stored ==> Worked(old(w.state), w.state, copy, now, status)
    ensures !ok ==> w.faults > old(w.faults)
  {
    var done;
    ok, done, now := Decide(start, w, v, copy);
    status := done.status;
    ok, stored := Patch(start, w, ok, done);
  }

  /** What a pass over `copy` makes of the status. */
  ghost predicate Worked(s: State, s': State, copy: Object, now: int, status: Status)
  {
    if s.next.None? || copy.spec.suspend then status == copy.status.(next := None) else Ticked(s, s', copy, now, status)
  }

  method Decide(ghost start: State, w: World<State, Event>, v: nat, copy: Object)
    returns (ok: bool, done: Work, now: int)
    requires Ticks(w, start) && w.state.progress.Idle? && FourDigitYear(w.state.clock)
    requires w.state.seen <= v < |w.state.objects| && copy == w.state.objects[v]
    modifies w
    ensures Ticks(w, start) && w.run.Continues(old(w.run)) && !w.state.progress.Idle?
    ensures w.state.Latest().status == old(w.state).Latest().status && done.copy == copy
    ensures w.state.tally.made <= old(w.state).tally.made + 1
    ensures w.state.tally.made != old(w.state).tally.made ==>
              old(w.state).next.Some? && !copy.spec.suspend && IsDue(old(w.state), copy, now)
    ensures ok ==> w.state.progress.Decided? && w.state.progress.work == done
                   && Worked(old(w.state), w.state, copy, now, done.status)
    ensures old(w.state).next.None? || copy.spec.suspend || !IsDue(old(w.state), copy, now) ==> ok
    ensures w.faults >= old(w.faults) && (!ok ==> w.faults > old(w.faults))
    ensures w.state.objects != []
  {
    now := w.state.clock;
    BeginOn(start, w, v);
    done := w.state.progress.work;
    if w.state.next.None? || copy.spec.suspend {
      done := done.(status := done.status.(next := None));
      w.Do(Rest);
      ok := true;
    } else {
      ok, done, now := Tick(start, w, done);
    }
  }

  method BeginOn(ghost start: State, w: World<State, Event>, v: nat)
    requires Ticks(w, start) && w.state.progress.Idle? && w.state.seen <= v < |w.state.objects|
    modifies w
    ensures Ticks(w, start) && w.run.Continues(old(w.run))
    ensures w.state == old(w.state).(seen := v, progress := w.state.progress) && w.state.progress.Begun?
    ensures w.state.progress.work.copy == old(w.state).objects[v]
    ensures w.state.progress.work.status == old(w.state).objects[v].status
    ensures w.faults == old(w.faults)
  {
    w.Do(Begin(v));
  }

  method Patch(ghost start: State, w: World<State, Event>, decided: bool, work: Work)
    returns (ok: bool, ghost stored: bool)
    requires Ticks(w, start) && !w.state.progress.Idle? && w.state.objects != []
    requires decided ==> w.state.progress.Decided? && w.state.progress.work == work
    modifies w
    ensures Ticks(w, start) && w.run.Continues(old(w.run)) && w.state.progress.Idle?
    ensures w.state.tally.made == old(w.state).tally.made && (ok ==> stored) && (stored ==> decided)
    ensures w.state.Latest().status
            == if stored then Merged(old(w.state).Latest().status, work.copy.status, Stored(work.status))
               else old(w.state).Latest().status
    ensures w.faults >= old(w.faults) && (!ok ==> !decided || w.faults > old(w.faults))
  {
    Interfere(start, w);
    var failed := w.Fails();
    stored := decided && !failed;
    if stored {
      PatchedStatus(w.state);
    }
    w.Do(if decided && !failed then PatchStatus else Crash);
    // The answer may get lost.
    var lost := w.Fails();
    ok := decided && !failed && !lost;
  }

  lemma PatchedStatus(s: State)
    requires s.progress.Decided? && s.objects != []
    ensures var s', work := Step(s, PatchStatus), s.progress.work;
            && s'.Latest().status == Merged(s.Latest().status, work.copy.status, Stored(work.status))
            && s'.tally.made == s.tally.made && s'.progress.Idle?
  {
  }
}
