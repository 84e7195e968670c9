/** A ScheduledBackup: when a tick is due, the Backup it creates, the Backups it prunes, and the status it leaves. The
    schedule with its status and the list of Backups are read from a cache that may be old but never goes back. Nobody
    else deletes or creates the schedule's Backups; their phases may change in any way, since passes over old copies
    may move them back. The clock does not run backwards and stays within four-digit years. Times are nanoseconds
    since the Unix epoch; stored times are cut to whole seconds. */
module Schedules {
  import opened Machines
  import opened Sorting
  import opened Retention
  import opened BackupNames
  import opened BackupStore
  import Backups

  /** `next` answers with the least fire time strictly after its argument, and fire times are whole seconds. */
  ghost predicate NextOf(next: int -> int, fires: int -> bool)
  {
    && (forall f :: fires(f) ==> f % SECOND == 0)
    && (forall t :: t < next(t) && fires(next(t)))
    && (forall t, f :: fires(f) && t < f ==> next(t) <= f)
  }

  ghost function FiresIn(fires: int -> bool, after: int, upTo: int): set<int>
  {
    set f: int | after < f <= upTo && fires(f)
  }

  datatype Spec = Spec(suspend: bool, immediate: bool, keep: Option<nat>)
  datatype Status = Status(last: Option<int>, next: Option<int>, lastBackup: string)

  predicate Due(last: Option<int>, createdAt: int, immediate: bool, next: int -> int, now: int)
  {
    match last
    case None => immediate || now >= next(createdAt)
    case Some(l) => now >= next(l)
  }

  function Base(last: Option<int>, createdAt: int): int
  {
    if last.Some? then last.value else createdAt
  }

  /** A status as the API server returns it after a write. */
  function Stored(status: Status): Status
  {
    status.(last := if status.last.Some? then Some(Cut(status.last.value)) else None,
            next := if status.next.Some? then Some(Cut(status.next.value)) else None)
  }

  /** A merge patch: what a tick changed of its copy, and the present values of the rest. */
  function Merged(present: Status, copy: Status, status: Status): Status
  {
    Status(
      if status.last != copy.last then status.last else present.last,
      if status.next != copy.next then status.next else present.next,
      if status.lastBackup != copy.lastBackup then status.lastBackup else present.lastBackup)
  }

  /** A patch carries what differs and no more: nothing changed leaves the present status, over the present one it gives
      the new one, and one changed field is set without touching the others. */
  lemma MergeLaws(present: Status, copy: Status, status: Status)
    ensures Merged(present, copy, copy) == present && Merged(copy, copy, status) == status
    ensures var s := copy.(last := status.last);
            s != copy ==> Merged(present, copy, s) == present.(last := status.last)
    ensures var s := copy.(next := status.next);
            s != copy ==> Merged(present, copy, s) == present.(next := status.next)
    ensures var s := copy.(lastBackup := status.lastBackup);
            s != copy ==> Merged(present, copy, s) == present.(lastBackup := status.lastBackup)
  {
  }

  lemma DueExactlyWhenFired(
      last: Option<int>, createdAt: int, immediate: bool, next: int -> int, now: int, fires: int -> bool)
    requires NextOf(next, fires)
    ensures Due(last, createdAt, immediate, next, now)
            <==> (last.None? && immediate) || FiresIn(fires, Base(last, createdAt), now) != {}
  {
    var base := Base(last, createdAt);
    if now >= next(base) {
      assert next(base) in FiresIn(fires, base, now);
    }
  }

  lemma NextAgrees(a: int, b: int, next: int -> int, fires: int -> bool)
    requires NextOf(next, fires) && a <= b < next(a)
    ensures next(a) == next(b) && FiresIn(fires, a, b) == {}
  {
  }

  lemma CutHidesNoFire(t: int, next: int -> int, fires: int -> bool)
    requires NextOf(next, fires)
    ensures Cut(t) <= t < next(Cut(t)) && next(Cut(t)) == next(t) && Cut(t) % SECOND == 0
  {
    NextAgrees(Cut(t), t, next, fires);
  }

  /** A ScheduledBackup as the cache shows it. */
  datatype Object = Object(spec: Spec, status: Status)

  /** What a tick works on: the copy it read, whether its status was an old one, and the status it makes of it. */
  datatype Work = Work(copy: Object, old_: bool, status: Status)

  /** How far the running tick has come; `at` is None when it did not look at the clock. */
  datatype Progress =
    | Idle
    | Begun(work: Work)
    | Missed(work: Work, now: int)
    | Created(work: Work, now: int)
    | Pruning(work: Work, now: int, doomed: set<string>, doneBefore: nat)
    | Decided(work: Work, at: Option<int>, created: bool)

  /** Backups `made`; ticks `broken` off after theirs was created; finished ticks that created one for an old status
      (`stale`); finished ticks that were due only for being the first immediate one (`bonus`). */
  datatype Tally = Tally(made: nat, broken: nat, stale: nat, bonus: nat)

  /** `objects` are all versions of the ScheduledBackup. `pruned` holds, for the last prune that went through, its
      `keep` and how many completions there had been in the version of the list it worked on. */
  datatype State = State(
    name: string, createdAt: int, next: Option<int -> int>, objects: seq<Object>, seen: nat, everImmediate: bool,
    store: Store, clock: int, progress: Progress, tally: Tally, pruned: Option<(nat, nat)>)
  {
    function Latest(): Object
    {
      if objects == [] then Object(Spec(true, false, None), Status(None, None, "")) else objects[|objects| - 1]
    }
  }

  datatype Event =
    | PassTime(duration: nat)
    | EditSpec(spec: Spec)
    | AdvanceBackup(backup: string, phase: Backups.Phase)
    | Begin(copy: nat)
    | Rest
    | CheckDue
    | CreateBackup
    | ListBackups(copy: nat)
    | DeleteBackup(backup: string)
    | FinishPrune
    | PatchStatus
    | Crash

  predicate External(e: Event)
  {
    e.PassTime? || e.EditSpec? || e.AdvanceBackup?
  }

  predicate HasCreated(p: Progress)
  {
    p.Created? || p.Pruning? || (p.Decided? && p.created)
  }

  predicate Enabled(s: State, e: Event)
  {
    match e
    case PassTime(duration) => FourDigitYear(s.clock + duration)
    case EditSpec(spec) => spec.keep != Some(0) && s.objects != []
    case AdvanceBackup(backup, phase) =>
      backup in s.store.Backups() && s.store.Backups()[backup].phase != phase
    case Begin(v) => s.progress.Idle? && s.seen <= v < |s.objects|
    case Rest => s.progress.Begun? && (s.next.None? || s.progress.work.copy.spec.suspend)
    case CheckDue => s.progress.Begun? && s.next.Some? && !s.progress.work.copy.spec.suspend
    case CreateBackup => s.progress.Missed? && FourDigitYear(s.progress.now)
    // Nothing is listed without a `keep`.
    case ListBackups(v) =>
      && s.progress.Created? && s.next.Some?
      && (s.progress.work.copy.spec.keep.Some? ==> s.store.listAt <= v < |s.store.lists|)
    case DeleteBackup(backup) => s.progress.Pruning? && backup in s.progress.doomed
    case FinishPrune =>
      s.progress.Pruning? && s.progress.doomed == {} && s.next.Some? && s.progress.work.copy.spec.keep.Some?
    case PatchStatus => s.progress.Decided? && s.objects != []
    case Crash => !s.progress.Idle?
  }

  function Step(s: State, e: Event): State
  {
    if !Enabled(s, e) then s else
    match e
    case PassTime(duration) => s.(clock := s.clock + duration)
    case EditSpec(spec) =>
      s.(objects := s.objects + [s.Latest().(spec := spec)], everImmediate := s.everImmediate || spec.immediate)
    case AdvanceBackup(backup, phase) => s.(store := s.store.Advance(backup, phase))
    case Begin(v) =>
      s.(seen := v,
         progress := Begun(Work(s.objects[v], s.objects[v].status != s.Latest().status, s.objects[v].status)))
    case Rest => s.(progress := Decided(WithNext(s.progress.work, None), None, false))
    case CheckDue =>
      if IsDue(s, s.progress.work.copy, s.clock) then s.(progress := Missed(s.progress.work, s.clock))
      else s.(progress := Decided(WithNext(s.progress.work, Some(s.next.value(s.clock))), Some(s.clock), false))
    case CreateBackup =>
      var backup, p := BackupName(s.name, s.progress.now), s.progress;
      s.(store := s.store.Create(backup, p.now, s.clock),
         tally := if backup in s.store.Backups() then s.tally else s.tally.(made := s.tally.made + 1),
         progress := Created(p.work.(status := p.work.status.(last := Some(p.now), lastBackup := backup)), p.now))
    case ListBackups(v) =>
      var p := s.progress;
      if p.work.copy.spec.keep.None? then s.(progress := Scheduled(p.work, p.now, s.next.value))
      else
        var keep, list := p.work.copy.spec.keep.value, s.store.lists[v];
        s.(store := s.store.(listAt := v), progress := Pruning(p.work, p.now, Doomed(list.backups, keep), list.done))
    case DeleteBackup(backup) =>
      s.(store := s.store.Delete(backup), progress := s.progress.(doomed := s.progress.doomed - {backup}))
    case FinishPrune =>
      s.(progress := Scheduled(s.progress.work, s.progress.now, s.next.value),
         pruned := Some((s.progress.work.copy.spec.keep.value, s.progress.doneBefore)))
    case PatchStatus => Patched(s, s.progress.work)
    case Crash =>
      s.(progress := Idle, tally := if HasCreated(s.progress) then s.tally.(broken := s.tally.broken + 1) else s.tally)
  }

  predicate IsDue(s: State, copy: Object, now: int)
    requires s.next.Some?
  {
    Due(copy.status.last, s.createdAt, copy.spec.immediate, s.next.value, now)
  }

  function WithNext(work: Work, next: Option<int>): Work
  {
    work.(status := work.status.(next := next))
  }

  function Scheduled(work: Work, now: int, next: int -> int): Progress
  {
    Decided(WithNext(work, Some(next(now))), Some(now), true)
  }

  function Patched(s: State, work: Work): State
    requires s.progress.Decided? && s.objects != []
  {
    var status := Merged(s.Latest().status, work.copy.status, Stored(work.status));
    s.(objects := s.objects + [s.Latest().(status := status)],
       tally := if s.progress.created then Counted(s.tally, work) else s.tally,
       progress := Idle)
  }

  function Counted(tally: Tally, work: Work): Tally
  {
    if work.old_ then tally.(stale := tally.stale + 1)
    else if work.copy.spec.immediate && work.copy.status.last.None? then tally.(bonus := tally.bonus + 1)
    else tally
  }

  function Start(name: string, createdAt: int, next: Option<int -> int>, spec: Spec): State
  {
    State(name, createdAt, next, [Object(spec, Status(None, None, ""))], 0, spec.immediate, NOTHING, createdAt, Idle,
          Tally(0, 0, 0, 0), None)
  }

  function Protocol(start: State): Machine<State, Event>
  {
    Machine(start, Enabled, Step, External)
  }

  // Due times and the number of Backups.

  function BaseOf(s: State): int
  {
    Base(s.Latest().status.last, s.createdAt)
  }

  /** Every version of the ScheduledBackup stands for a base that is not after the present one. */
  predicate PastOf(s: State, o: Object)
  {
    && s.createdAt <= Base(o.status.last, s.createdAt) <= BaseOf(s) && Base(o.status.last, s.createdAt) % SECOND == 0
    && (s.Latest().status.last.None? ==> o.status.last.None?)
    && (o.spec.immediate ==> s.everImmediate) && o.spec.keep != Some(0)
  }

  predicate HistoryInv(s: State)
  {
    && s.objects != [] && s.seen < |s.objects| && s.createdAt % SECOND == 0 && BaseOf(s) <= s.clock
    && forall k | 0 <= k < |s.objects| :: PastOf(s, s.objects[k])
  }

  predicate WorkInv(s: State, w: Work)
  {
    PastOf(s, w.copy) && (!w.old_ ==> w.copy.status == s.Latest().status)
  }

  /** The tick that looked at `now` was due and has not been recorded. */
  predicate DueInv(s: State, w: Work, now: int)
  {
    s.next.Some? && WorkInv(s, w) && BaseOf(s) <= now <= s.clock && IsDue(s, w.copy, now)
  }

  predicate TickInv(s: State)
  {
    match s.progress
    case Idle => true
    case Begun(w) => WorkInv(s, w) && w.status == w.copy.status
    case Missed(w, now) => DueInv(s, w, now) && w.status == w.copy.status
    case Created(w, now) => DueInv(s, w, now) && w.status.last == Some(now)
    case Pruning(w, now, _, _) => DueInv(s, w, now) && w.status.last == Some(now)
    case Decided(w, at, created) =>
      if created then at.Some? && DueInv(s, w, at.value) && w.status.last == Some(at.value)
                      && w.status.next == Some(s.next.value(at.value))
      else WorkInv(s, w) && w.status.last == w.copy.status.last
           && (at.Some? ==> s.next.Some? && BaseOf(s) <= at.value <= s.clock && !IsDue(s, w.copy, at.value)
                            && w.status.next == Some(s.next.value(at.value)))
  }

  ghost predicate CountInv(s: State, fires: int -> bool)
  {
    && s.tally.made <= |FiresIn(fires, s.createdAt, BaseOf(s))| + s.tally.bonus + s.tally.broken + s.tally.stale
                       + (if HasCreated(s.progress) then 1 else 0)
    && s.tally.bonus <= (if s.everImmediate && s.Latest().status.last.Some? then 1 else 0)
  }

  ghost predicate ScheduleInv(s: State, fires: int -> bool)
  {
    HistoryInv(s) && TickInv(s) && CountInv(s, fires) && (s.next.Some? ==> NextOf(s.next.value, fires))
  }

  lemma ScheduleInvStep(s: State, e: Event, fires: int -> bool)
    requires ScheduleInv(s, fires) && Enabled(s, e)
    ensures ScheduleInv(Step(s, e), fires)
  {
    match e {
      case EditSpec(spec) => EditKeepsSchedule(s, spec, fires);
      case PatchStatus => PatchKeepsSchedule(s, fires);
      case CheckDue => DecisionKeepsSchedule(s, fires);
      case Begin(_) => QuietTickKeepsSchedule(s, e, fires);
      case Rest => QuietTickKeepsSchedule(s, e, fires);
      case CreateBackup => LateTickKeepsSchedule(s, e, fires);
      case ListBackups(_) => LateTickKeepsSchedule(s, e, fires);
      case FinishPrune => LateTickKeepsSchedule(s, e, fires);
      case Crash => CrashKeepsSchedule(s, fires);
      case _ => OthersKeepSchedule(s, e, fires);
    }
  }

  lemma OthersKeepSchedule(s: State, e: Event, fires: int -> bool)
    requires ScheduleInv(s, fires) && Enabled(s, e) && (e.PassTime? || e.AdvanceBackup? || e.DeleteBackup?)
    ensures ScheduleInv(Step(s, e), fires)
  {
    if e.DeleteBackup? {
      DeletionKeepsSchedule(s, e.backup, fires);
    } else {
      SameTickKeepsSchedule(s, Step(s, e), fires);
    }
  }

  lemma DeletionKeepsSchedule(s: State, backup: string, fires: int -> bool)
    requires ScheduleInv(s, fires) && Enabled(s, DeleteBackup(backup))
    ensures ScheduleInv(Step(s, DeleteBackup(backup)), fires)
  {
  }

  /** What others can change of what decides due times and counts: the clock goes on, and specs come. */
  ghost predicate SameTick(s: State, s': State)
  {
    && s'.progress == s.progress && s'.next == s.next && s'.createdAt == s.createdAt && s'.tally == s.tally
    && s'.seen == s.seen && s.clock <= s'.clock && (s.everImmediate ==> s'.everImmediate)
    && s.objects <= s'.objects && s'.Latest().status == s.Latest().status
    && (s.objects != [] ==> |s'.objects| <= |s.objects| + 1)
    && (s'.Latest().spec.immediate ==> s'.everImmediate) && s'.Latest().spec.keep != Some(0)
  }

  lemma SameTickKeepsSchedule(s: State, s': State, fires: int -> bool)
    requires ScheduleInv(s, fires) && SameTick(s, s')
    ensures ScheduleInv(s', fires)
  {
    forall k | 0 <= k < |s'.objects| ensures PastOf(s', s'.objects[k]) {
      if k < |s.objects| {
        assert s'.objects[k] == s.objects[k] && PastOf(s, s.objects[k]);
      } else {
        assert PastOf(s, s.objects[|s.objects| - 1]);
      }
    }
  }

  lemma EditKeepsSchedule(s: State, spec: Spec, fires: int -> bool)
    requires ScheduleInv(s, fires) && Enabled(s, EditSpec(spec))
    ensures ScheduleInv(Step(s, EditSpec(spec)), fires)
  {
    SameTickKeepsSchedule(s, Step(s, EditSpec(spec)), fires);
  }

  lemma QuietTickKeepsSchedule(s: State, e: Event, fires: int -> bool)
    requires ScheduleInv(s, fires) && Enabled(s, e) && (e.Begin? || e.Rest?)
    ensures ScheduleInv(Step(s, e), fires)
  {
  }

  lemma DecisionKeepsSchedule(s: State, fires: int -> bool)
    requires ScheduleInv(s, fires) && Enabled(s, CheckDue)
    ensures ScheduleInv(Step(s, CheckDue), fires)
  {
    var s', w := Step(s, CheckDue), s.progress.work;
    assert s' == s.(progress := s'.progress) && !HasCreated(s'.progress);
    if IsDue(s, w.copy, s.clock) {
      assert s'.progress == Missed(w, s.clock);
    } else {
      assert s'.progress == Decided(WithNext(w, Some(s.next.value(s.clock))), Some(s.clock), false);
    }
    SameObjects(s, s', fires);
  }

  /** Only the tick has gone on, without creating anything. */
  lemma SameObjects(s: State, s': State, fires: int -> bool)
    requires ScheduleInv(s, fires) && s' == s.(progress := s'.progress)
    requires !HasCreated(s.progress) && !HasCreated(s'.progress)
    ensures HistoryInv(s') && CountInv(s', fires)
    ensures forall o :: PastOf(s, o) <==> PastOf(s', o)
  {
    forall o ensures PastOf(s, o) <==> PastOf(s', o) {}
  }

  lemma LateTickKeepsSchedule(s: State, e: Event, fires: int -> bool)
    requires ScheduleInv(s, fires) && Enabled(s, e) && (e.CreateBackup? || e.ListBackups? || e.FinishPrune?)
    ensures ScheduleInv(Step(s, e), fires)
  {
    var s' := Step(s, e);
    assert s' == s.(store := s'.store, progress := s'.progress, tally := s'.tally, pruned := s'.pruned);
    if e.CreateBackup? {
      ProgressKeepsSchedule(s, s', s.progress.now, fires);
    } else {
      ProgressKeepsSchedule(s, s', s.progress.now, fires);
    }
  }

  /** A due tick goes on. */
  lemma ProgressKeepsSchedule(s: State, s': State, now: int, fires: int -> bool)
    requires ScheduleInv(s, fires) && (s.progress.Missed? || s.progress.Created? || s.progress.Pruning?)
    requires s' == s.(store := s'.store, progress := s'.progress, tally := s'.tally, pruned := s'.pruned)
    requires s.progress.now == now && HasCreated(s'.progress) && s'.progress.work.copy == s.progress.work.copy
    requires s'.progress.work.old_ == s.progress.work.old_ && s'.progress.work.status.last == Some(now)
    requires if s'.progress.Decided? then s'.progress.at == Some(now) && s.next.Some?
                                          && s'.progress.work.status.next == Some(s.next.value(now))
             else s'.progress.now == now
    requires s'.tally == s.tally || (s.progress.Missed? && s'.tally == s.tally.(made := s.tally.made + 1))
    ensures ScheduleInv(s', fires)
  {
    assert forall k | 0 <= k < |s.objects| :: PastOf(s, s.objects[k]) ==> PastOf(s', s'.objects[k]);
  }

  lemma CrashKeepsSchedule(s: State, fires: int -> bool)
    requires ScheduleInv(s, fires) && Enabled(s, Crash)
    ensures ScheduleInv(Step(s, Crash), fires)
  {
  }

  /** What a patch does to the base. */
  lemma PatchedBase(s: State)
    requires HistoryInv(s) && TickInv(s) && s.progress.Decided?
    ensures var s', w := Patched(s, s.progress.work), s.progress.work;
            && BaseOf(s) <= BaseOf(s') <= s.clock && BaseOf(s') % SECOND == 0
            && (s'.Latest().status.last.None? ==> s.Latest().status.last.None?)
            && (if s.progress.created
                then s'.Latest().status.last.Some?
                    && (BaseOf(s') == Cut(s.progress.at.value) || BaseOf(s') == BaseOf(s))
                     && (!w.old_ ==> BaseOf(s') == Cut(s.progress.at.value))
                else s'.Latest().status.last == s.Latest().status.last)
  {
    if s.progress.created {
      CutOrder(BaseOf(s), s.progress.at.value);
    }
  }

  lemma PatchKeepsSchedule(s: State, fires: int -> bool)
    requires ScheduleInv(s, fires) && Enabled(s, PatchStatus)
    ensures ScheduleInv(Step(s, PatchStatus), fires)
  {
    var s' := Patched(s, s.progress.work);
    PatchedBase(s);
    forall k | 0 <= k < |s'.objects| ensures PastOf(s', s'.objects[k]) {
      assert PastOf(s, s.objects[if k < |s.objects| then k else k - 1]);
    }
    PatchKeepsCount(s, s', fires);
  }

  lemma PatchKeepsCount(s: State, s': State, fires: int -> bool)
    requires ScheduleInv(s, fires) && Enabled(s, PatchStatus) && s' == Patched(s, s.progress.work)
    ensures CountInv(s', fires)
  {
    PatchedBase(s);
    var base, base' := BaseOf(s), BaseOf(s');
    SubsetSize(FiresIn(fires, s.createdAt, base), FiresIn(fires, s.createdAt, base'));
    if s.progress.created && !s.progress.work.old_ {
      FiresGrow(s.createdAt, base, s.progress.at.value, s.next.value, fires);
    }
  }

  /** Moving the stored last time on to `now` takes in the fire that made the tick due. */
  lemma FiresGrow(from: int, base: int, now: int, next: int -> int, fires: int -> bool)
    requires NextOf(next, fires) && from <= base <= now && base % SECOND == 0
    ensures |FiresIn(fires, from, base)| + (if next(base) <= now then 1 else 0) <= |FiresIn(fires, from, Cut(now))|
  {
    CutHidesNoFire(now, next, fires);
    var before, after := FiresIn(fires, from, base), FiresIn(fires, from, Cut(now));
    assert before <= after;
    assert next(base) <= now ==> next(base) in after && next(base) !in before;
    SubsetSize(before, after);
  }

  ghost predicate ValidStart(start: State, fires: int -> bool)
  {
    && start == Start(start.name, start.createdAt, start.next, start.Latest().spec)
    && start.createdAt % SECOND == 0 && start.Latest().spec.keep != Some(0)
    && (start.next.Some? ==> NextOf(start.next.value, fires))
  }

  ghost predicate ScheduleInvFrom(start: State, fires: int -> bool, s: State)
  {
    ScheduleInv(s, fires) && s.name == start.name && s.createdAt == start.createdAt && s.next == start.next
  }

  lemma NothingFixedChanges(s: State, e: Event)
    ensures var s' := Step(s, e); s'.name == s.name && s'.createdAt == s.createdAt && s'.next == s.next
  {
  }

  lemma ScheduleInvAlways(start: State, fires: int -> bool, run: Run<State, Event>, i: nat)
    requires ValidStart(start, fires) && run.Of(Protocol(start)) && i < |run.states|
    ensures ScheduleInvFrom(start, fires, run.states[i])
  {
    forall s, e | ScheduleInvFrom(start, fires, s) && Enabled(s, e) ensures ScheduleInvFrom(start, fires, Step(s, e)) {
      ScheduleInvStep(s, e, fires);
      NothingFixedChanges(s, e);
    }
    Invariance(Protocol(start), s => ScheduleInvFrom(start, fires, s), run, i);
  }

  /** At every moment of every run: no more Backups than fire times so far, one for an immediate start, one for every
      tick that broke off after creating its own or created it for an old status, and the one of the running tick. */
  lemma BackupsAreCounted(start: State, fires: int -> bool, run: Run<State, Event>, i: nat)
    requires ValidStart(start, fires) && run.Of(Protocol(start)) && i < |run.states|
    ensures var s := run.states[i];
            s.tally.made <= |FiresIn(fires, start.createdAt, s.clock)| + (if s.everImmediate then 1 else 0)
                            + s.tally.broken + s.tally.stale + if HasCreated(s.progress) then 1 else 0
  {
    ScheduleInvAlways(start, fires, run, i);
    var s := run.states[i];
    SubsetSize(FiresIn(fires, start.createdAt, BaseOf(s)), FiresIn(fires, start.createdAt, s.clock));
  }

  /** After a tick that looked at the clock and whose status was stored, with the spec as the tick read it: no fire
      time up to then is uncovered, and the schedule is due again exactly from the next fire time on, although the
      stored last time lost its fraction. That next time is what the status announces if and only if the patch wrote
      it or it was there already; for a copy that was not old it always is. */
  lemma TickAnnouncesNextDue(start: State, fires: int -> bool, run: Run<State, Event>, i: nat, t: int)
    requires ValidStart(start, fires) && run.Of(Protocol(start)) && i < |run.events| && run.events[i].PatchStatus?
    requires var p := run.states[i].progress;
             p.Decided? && p.at.Some? && run.states[i].Latest().spec == p.work.copy.spec
    ensures var p, present, s := run.states[i].progress, run.states[i].Latest().status, run.states[i + 1];
            var now := p.at.value;
            && s.next.Some? && FiresIn(fires, BaseOf(s), now) == {}
            && (now <= t ==> (IsDue(s, s.Latest(), t) <==> t >= s.next.value(now)))
            && (s.Latest().status.next == Some(s.next.value(now))
                <==> p.work.copy.status.next != Some(s.next.value(now)) || present.next == Some(s.next.value(now)))
            && (!p.work.old_ ==> s.Latest().status.next == Some(s.next.value(now)))
  {
    ScheduleInvAlways(start, fires, run, i);
    ScheduleInvAlways(start, fires, run, i + 1);
    var s := run.states[i];
    assert Enabled(s, run.events[i]);
    PatchedBase(s);
    AnnouncedAfterPatch(s, fires, t);
  }

  lemma AnnouncedAfterPatch(s: State, fires: int -> bool, t: int)
    requires ScheduleInv(s, fires) && s.progress.Decided? && s.progress.at.Some?
    requires s.Latest().spec == s.progress.work.copy.spec
    ensures var p, s' := s.progress, Patched(s, s.progress.work);
            var now := p.at.value;
            && s'.next.Some? && FiresIn(fires, BaseOf(s'), now) == {}
            && (now <= t ==> (IsDue(s', s'.Latest(), t) <==> t >= s'.next.value(now)))
            && (s'.Latest().status.next == Some(s.next.value(now))
                <==> || p.work.copy.status.next != Some(s.next.value(now))
                     || s.Latest().status.next == Some(s.next.value(now)))
            && (!p.work.old_ ==> s'.Latest().status.next == Some(s.next.value(now)))
  {
    var next, now, s' := s.next.value, s.progress.at.value, Patched(s, s.progress.work);
    PatchedBase(s);
    CutHidesNoFire(now, next, fires);
    assert next(now) % SECOND == 0;
    CoveredAfterPatch(s, fires);
    NextAgrees(BaseOf(s'), now, next, fires);
  }

  lemma CoveredAfterPatch(s: State, fires: int -> bool)
    requires ScheduleInv(s, fires) && s.progress.Decided? && s.progress.at.Some?
    ensures s.next.Some? && BaseOf(Patched(s, s.progress.work)) <= s.progress.at.value
                         < s.next.value(BaseOf(Patched(s, s.progress.work)))
  {
    var next, now, s' := s.next.value, s.progress.at.value, Patched(s, s.progress.work);
    PatchedBase(s);
    CutHidesNoFire(now, next, fires);
    CutOrder(BaseOf(s), now);
  }

  /** A tick over an old status makes one more Backup: the schedule is immediate, its first tick has been stored, and
      the second one reads the copy from before, in the next second and long before the first fire time. */
  lemma OldStatusMakesAnother(name: string, next: int -> int, fires: int -> bool) returns (run: Run<State, Event>)
    requires NextOf(next, fires) && SECOND < next(0)
    ensures ValidStart(Start(name, 0, Some(next), Spec(false, true, None)), fires)
    ensures run.Of(Protocol(Start(name, 0, Some(next), Spec(false, true, None))))
    ensures run.Last().tally == Tally(2, 0, 1, 1) && FiresIn(fires, 0, run.Last().clock) == {}
  {
    var start := Start(name, 0, Some(next), Spec(false, true, None));
    EpochYears();
    run := FirstTick(name, next);
    NamesFollowTime(name, 0, SECOND);
    run := Prolong(Protocol(start), run, PassTime(SECOND));
    assert run.Last().clock == SECOND && run.Last().store.Backups().Keys == {BackupName(name, 0)};
    run := Again(start, run);
    NothingFires(next, fires);
  }

  lemma NothingFires(next: int -> int, fires: int -> bool)
    requires NextOf(next, fires) && SECOND < next(0)
    ensures FiresIn(fires, 0, SECOND) == {}
  {
  }

  lemma EpochYears()
    ensures FourDigitYear(0) && FourDigitYear(SECOND)
  {
    EpochIsNewYear1970();
    SameDay();
  }

  lemma SameDay()
    ensures Seconds(0) / DAY == Seconds(SECOND) / DAY && 0 <= Seconds(SECOND)
  {
  }

  ghost predicate FirstCopyTicks(start: State, run: Run<State, Event>)
  {
    && run.Of(Protocol(start)) && run.Last().progress.Idle? && run.Last().objects != [] && run.Last().seen == 0
    && run.Last().objects[0] == Object(Spec(false, true, None), Status(None, None, "")) && run.Last().next.Some?
    && FourDigitYear(run.Last().clock)
  }

  /** One whole tick over the first copy, without a `keep`, that is due for being immediate. */
  lemma Again(start: State, run: Run<State, Event>) returns (later: Run<State, Event>)
    requires FirstCopyTicks(start, run)
    requires BackupName(run.Last().name, run.Last().clock) !in run.Last().store.Backups()
    ensures later.Of(Protocol(start)) && later.Last() == AfterTick(run.Last())
  {
    later := Missing(start, run);
    later := MakeAndPatch(start, later, run.Last());
  }

  lemma Missing(start: State, run: Run<State, Event>) returns (later: Run<State, Event>)
    requires FirstCopyTicks(start, run)
    ensures later.Of(Protocol(start))
    ensures var s, o := run.Last(), run.Last().objects[0];
            later.Last() == s.(progress := Missed(Work(o, o.status != s.Latest().status, o.status), s.clock))
  {
    later := Prolong(Protocol(start), run, Begin(0));
    later := Prolong(Protocol(start), later, CheckDue);
  }

  lemma MakeAndPatch(start: State, run: Run<State, Event>, s: State) returns (later: Run<State, Event>)
    requires run.Of(Protocol(start)) && s.objects != [] && s.next.Some? && FourDigitYear(s.clock) && s.progress.Idle?
    requires s.objects[0] == Object(Spec(false, true, None), Status(None, None, ""))
    requires var o := s.objects[0];
             run.Last() == s.(progress := Missed(Work(o, o.status != s.Latest().status, o.status), s.clock))
    requires BackupName(s.name, s.clock) !in s.store.Backups()
    ensures later.Of(Protocol(start)) && later.Last() == AfterTick(s)
  {
    later := Making(start, run, s);
    MadeIsPatched(s);
    later := Prolong(Protocol(start), later, PatchStatus);
  }

  /** The tick has made its Backup and decided on the status. */
  function Made(s: State): State
    requires s.objects != [] && s.next.Some? && FourDigitYear(s.clock)
  {
    s.(progress := Decided(WorkOf(s), Some(s.clock), true),
       store := s.store.Create(BackupName(s.name, s.clock), s.clock, s.clock),
       tally := s.tally.(made := s.tally.made + 1))
  }

  lemma MadeIsPatched(s: State)
    requires s.objects != [] && s.next.Some? && FourDigitYear(s.clock) && s.progress.Idle?
    ensures Enabled(Made(s), PatchStatus) && Step(Made(s), PatchStatus) == AfterTick(s)
  {
  }

  lemma Making(start: State, run: Run<State, Event>, s: State) returns (later: Run<State, Event>)
    requires run.Of(Protocol(start)) && s.objects != [] && s.next.Some? && FourDigitYear(s.clock)
    requires s.objects[0] == Object(Spec(false, true, None), Status(None, None, ""))
    requires var o := s.objects[0];
             run.Last() == s.(progress := Missed(Work(o, o.status != s.Latest().status, o.status), s.clock))
    requires BackupName(s.name, s.clock) !in s.store.Backups()
    ensures later.Of(Protocol(start)) && later.Last() == Made(s)
  {
    later := Prolong(Protocol(start), run, CreateBackup);
    later := Prolong(Protocol(start), later, ListBackups(0));
  }

  function AfterTick(s: State): State
    requires s.objects != [] && s.next.Some? && FourDigitYear(s.clock)
  {
    var work, present := WorkOf(s), s.Latest().status;
    s.(objects := s.objects + [s.Latest().(status := Merged(present, work.copy.status, Stored(work.status)))],
       store := s.store.Create(BackupName(s.name, s.clock), s.clock, s.clock),
       tally := Counted(s.tally.(made := s.tally.made + 1), work))
  }

  /** What that tick makes of the copy. */
  function WorkOf(s: State): Work
    requires s.objects != [] && s.next.Some? && FourDigitYear(s.clock)
  {
    Work(s.objects[0], s.objects[0].status != s.Latest().status,
         Status(Some(s.clock), Some(s.next.value(s.clock)), BackupName(s.name, s.clock)))
  }

  lemma FirstTick(name: string, next: int -> int) returns (run: Run<State, Event>)
    requires FourDigitYear(0)
    ensures var start := Start(name, 0, Some(next), Spec(false, true, None)); run.Of(Protocol(start))
    ensures var s := run.Last();
            && s.progress.Idle? && s.clock == 0 && s.seen == 0 && s.name == name && s.next == Some(next)
            && s.tally == Tally(1, 0, 0, 1) && s.store.Backups().Keys == {BackupName(name, 0)}
            && |s.objects| == 2 && s.objects[0] == Object(Spec(false, true, None), Status(None, None, ""))
            && s.Latest().status.last == Some(0)
  {
    var start := Start(name, 0, Some(next), Spec(false, true, None));
    run := Run([start], []);
    run := Again(start, run);
  }
}
