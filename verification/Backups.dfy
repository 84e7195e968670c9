/** One Backup: a CHECKPOINT on the server, a VolumeSnapshot of the claim the server mounts, and the phase reported
    meanwhile. No snapshot of the Backup's name exists beforehand and nobody else creates one. The Backup and its
    SereneDB are read from a cache that may be old but never goes back; snapshots are read from the API server itself.
    The clock does not run backwards and times are stored in whole seconds. */
module Backups {
  import opened Machines

  const METHOD_VOLUME_SNAPSHOT := "volumeSnapshot"
  const DATA_VOLUME := "data"

  datatype Phase = New | Pending | Running | Completed | Failed
  datatype Status = Status(
    phase: Phase, startedAt: Option<nat>, completedAt: Option<nat>, snapshotName: string, error: string)
  datatype Database = Database(name: string, existingClaim: string)

  /** `checkpoint` is the number of the CHECKPOINT in the pass that created the snapshot. */
  datatype Snapshot = Snapshot(claim: string, ready: bool, failure: string, checkpoint: nat)

  /** How far the running pass has come. Decided holds the copy it read and the status it made of it; `started` is the
      number of its CHECKPOINT if it asked for a snapshot, `made` whether it created one. */
  datatype Progress =
    | Idle
    | Begun(copy: Status)
    | Connecting(copy: Status, db: Database)
    | Checkpointed(copy: Status, db: Database, number: nat)
    | Decided(copy: Status, status: Status, started: nat, made: bool)

  /** `statuses` are all versions of the Backup's status, `dbs` those of its SereneDB, `times` those of the successful
      CHECKPOINTs. `created` and `deleted` count the snapshots of this name. `started` is the number of the CHECKPOINT
      whose time the status shows, 0 if none; `own` says that the snapshot there is was created by the pass that wrote
      it. `lagged` says that some pass worked on an old copy whose status is not the present one. */
  datatype State = State(
    name: string, backupMethod: string, statuses: seq<Status>, seen: nat, dbs: seq<Option<Database>>, dbSeen: nat,
    snapshot: Option<Snapshot>, clock: nat, times: seq<nat>, created: nat, deleted: nat, started: nat, own: bool,
    lagged: bool, progress: Progress)
  {
    function Status(): Status
      requires statuses != []
    {
      statuses[|statuses| - 1]
    }
  }

  datatype Event =
    | PassTime(seconds: nat)
    | ChangeDatabase(db: Option<Database>)
    | ReportSnapshot(ready: bool, failure: string)
    | DeleteSnapshot
    | Begin(copy: nat)
    | RejectMethod(message: string)
    | ReadDatabase(copy: nat, message: string)
    | Block(message: string)
    | Checkpoint
    | CreateSnapshot
    | MissingApi(message: string)
    | ObserveSnapshot(message: string)
    | PatchStatus
    | Crash

  function DataClaimName(db: Database): string
  {
    if db.existingClaim != "" then db.existingClaim else DATA_VOLUME + "-" + db.name + "-0"
  }

  /** The claim the pod of the server mounts as its data volume: the existing claim, or the one the StatefulSet
      controller names after the claim template and the pod. */
  function MountedClaim(db: Database): string
  {
    if db.existingClaim != "" then db.existingClaim else DATA_VOLUME + "-" + PodName(db)
  }

  function PodName(db: Database): string
  {
    db.name + "-0"
  }

  function PendingWith(copy: Status, message: string): Status
  {
    copy.(phase := Pending, error := message)
  }

  function FailedWith(copy: Status, message: string): Status
  {
    copy.(phase := Failed, error := message)
  }

  /** A merge patch: what a pass changed of its copy, and the present values of the rest. */
  function Merged(present: Status, copy: Status, status: Status): Status
  {
    Status(
      if status.phase != copy.phase then status.phase else present.phase,
      if status.startedAt != copy.startedAt then status.startedAt else present.startedAt,
      if status.completedAt != copy.completedAt then status.completedAt else present.completedAt,
      if status.snapshotName != copy.snapshotName then status.snapshotName else present.snapshotName,
      if status.error != copy.error then status.error else present.error)
  }

  /** A patch carries what differs and no more: nothing changed leaves the present status, over the present one it gives
      the new one, and one changed field is set without touching the others. */
  lemma MergeLaws(present: Status, copy: Status, status: Status)
    ensures Merged(present, copy, copy) == present && Merged(copy, copy, status) == status
    ensures var s := copy.(phase := status.phase);
            s != copy ==> Merged(present, copy, s) == present.(phase := status.phase)
    ensures var s := copy.(startedAt := status.startedAt);
            s != copy ==> Merged(present, copy, s) == present.(startedAt := status.startedAt)
    ensures var s := copy.(completedAt := status.completedAt);
            s != copy ==> Merged(present, copy, s) == present.(completedAt := status.completedAt)
    ensures var s := copy.(snapshotName := status.snapshotName);
            s != copy ==> Merged(present, copy, s) == present.(snapshotName := status.snapshotName)
    ensures var s := copy.(error := status.error);
            s != copy ==> Merged(present, copy, s) == present.(error := status.error)
  {
  }

  predicate Supported(backupMethod: string)
  {
    backupMethod == "" || backupMethod == METHOD_VOLUME_SNAPSHOT
  }

  predicate Terminal(phase: Phase)
  {
    phase.Completed? || phase.Failed?
  }

  predicate External(e: Event)
  {
    e.PassTime? || e.ChangeDatabase? || e.ReportSnapshot? || e.DeleteSnapshot?
  }

  function Lookup(s: State, name: string): Option<Snapshot>
  {
    if name == s.name then s.snapshot else None
  }

  predicate Starting(s: State)
  {
    s.progress.Begun? && !s.progress.copy.phase.Running?
  }

  predicate Enabled(s: State, e: Event)
  {
    match e
    case PassTime(_) => true
    case ChangeDatabase(_) => true
    case ReportSnapshot(_, _) => s.snapshot.Some?
    case DeleteSnapshot => s.snapshot.Some?
    case Begin(v) => s.progress.Idle? && s.seen <= v < |s.statuses| && !Terminal(s.statuses[v].phase)
    case RejectMethod(message) => Starting(s) && !Supported(s.backupMethod) && message != ""
    case ReadDatabase(v, _) => Starting(s) && Supported(s.backupMethod) && s.dbSeen <= v < |s.dbs|
    // A CHECKPOINT whose answer got lost is reported like one that failed.
    case Block(_) => s.progress.Connecting? || s.progress.Checkpointed?
    case Checkpoint => s.progress.Connecting?
    case CreateSnapshot => s.progress.Checkpointed? && 0 < s.progress.number <= |s.times|
    case MissingApi(message) => s.progress.Checkpointed? && message != ""
    case ObserveSnapshot(message) => s.progress.Begun? && s.progress.copy.phase.Running? && message != ""
    case PatchStatus => s.progress.Decided? && s.statuses != []
    case Crash => !s.progress.Idle?
  }

  function Step(s: State, e: Event): State
  {
    if !Enabled(s, e) then s else
    match e
    case PassTime(seconds) => s.(clock := s.clock + seconds)
    case ChangeDatabase(db) => s.(dbs := s.dbs + [db])
    case ReportSnapshot(ready, failure) => s.(snapshot := Some(s.snapshot.value.(ready := ready, failure := failure)))
    case DeleteSnapshot => s.(snapshot := None, deleted := s.deleted + 1)
    case Begin(v) =>
      s.(seen := v, lagged := s.lagged || s.statuses[v] != s.Status(), progress := Begun(s.statuses[v]))
    case RejectMethod(message) => Decide(s, FailedWith(s.progress.copy, message))
    case ReadDatabase(v, message) =>
      if s.dbs[v].None? then Decide(s, PendingWith(s.progress.copy, message)).(dbSeen := v)
      else s.(dbSeen := v, progress := Connecting(s.progress.copy, s.dbs[v].value))
    case Block(message) => Decide(s, PendingWith(s.progress.copy, message))
    case Checkpoint =>
      s.(times := s.times + [s.clock], progress := Checkpointed(s.progress.copy, s.progress.db, |s.times| + 1))
    case CreateSnapshot => Requested(s, s.progress.number)
    case MissingApi(message) => Decide(s, FailedWith(s.progress.copy, message))
    case ObserveSnapshot(message) => Decide(s, Observed(s, message))
    case PatchStatus => Patched(s)
    case Crash => s.(progress := Idle)
  }

  function Decide(s: State, status: Status): State
    requires !s.progress.Idle?
  {
    s.(progress := Decided(s.progress.copy, status, 0, false))
  }

  function Requested(s: State, number: nat): State
    requires s.progress.Checkpointed? && 0 < number <= |s.times|
  {
    var copy := s.progress.copy;
    var at := s.times[number - 1];
    var running := copy.(phase := Running, startedAt := Some(at), snapshotName := s.name, error := "");
    // An AlreadyExists answer is swallowed.
    if s.snapshot.Some? then s.(progress := Decided(copy, running, number, false))
    else s.(snapshot := Some(Snapshot(DataClaimName(s.progress.db), false, "", number)), created := s.created + 1,
            own := false, progress := Decided(copy, running, number, true))
  }

  function Observed(s: State, message: string): Status
    requires s.progress.Begun?
  {
    var copy := s.progress.copy;
    match Lookup(s, copy.snapshotName)
    case None => FailedWith(copy, message)
    case Some(snapshot) =>
      if snapshot.failure != "" then FailedWith(copy, snapshot.failure)
      else if !snapshot.ready then copy
      else copy.(phase := Completed, completedAt := Some(s.clock))
  }

  function Patched(s: State): State
    requires s.progress.Decided? && s.statuses != []
  {
    var Decided(copy, status, started, made) := s.progress;
    var writes := started != 0 && status.startedAt != copy.startedAt;
    s.(statuses := s.statuses + [Merged(s.Status(), copy, status)],
       started := if writes then started else s.started,
       own := if writes then made else s.own,
       progress := Idle)
  }

  function Protocol(name: string, backupMethod: string): Machine<State, Event>
  {
    Machine(State(name, backupMethod, [Status(New, None, None, "", "")], 0, [None], 0, None, 0, [], 0, 0, 0, false,
        false,
                  Idle),
            Enabled, Step, External)
  }

  // What holds in every run.

  predicate Inv(s: State)
  {
    && s.statuses != [] && s.seen < |s.statuses| && s.dbs != [] && s.dbSeen < |s.dbs|
    && s.created == s.deleted + (if s.snapshot.Some? then 1 else 0)
    && (!s.progress.Idle? ==> s.progress.copy == s.statuses[s.seen] && !Terminal(s.progress.copy.phase))
    && (s.progress.Connecting? || s.progress.Checkpointed? ==>
          !s.progress.copy.phase.Running? && s.dbs[s.dbSeen] == Some(s.progress.db))
    && StartedInv(s)
  }

  /** Which CHECKPOINT the status and the snapshot belong to. */
  predicate StartedInv(s: State)
  {
    && (forall k | 0 <= k < |s.times| :: s.times[k] <= s.clock)
    && s.started <= |s.times| && s.statuses != []
    && (s.started == 0 ==> !s.own)
    && (0 < s.started ==> s.Status().startedAt == Some(s.times[s.started - 1]))
    && (forall k | 0 <= k < |s.statuses| :: s.statuses[k].startedAt.Some? ==> 0 < s.started)
    && (s.snapshot.Some? ==> 0 < s.snapshot.value.checkpoint <= |s.times|
                             && (s.own <==> s.snapshot.value.checkpoint == s.started))
    && (s.progress.Checkpointed? ==>
          0 < s.progress.number == |s.times| && s.started < s.progress.number
          && (s.snapshot.Some? ==> s.snapshot.value.checkpoint < s.progress.number))
    && (s.progress.Decided? ==> DecidedInv(s, s.progress))
  }

  predicate DecidedInv(s: State, p: Progress)
    requires p.Decided?
  {
    && (p.started == 0 ==> p.status.startedAt == p.copy.startedAt)
    && (0 < p.started ==>
          && p.started <= |s.times| && s.started < p.started && p.status.startedAt == Some(s.times[p.started - 1])
          && (s.snapshot.Some? ==> (p.made <==> s.snapshot.value.checkpoint == p.started)))
  }

  lemma InvStep(s: State, e: Event)
    requires Inv(s) && Enabled(s, e)
    ensures Inv(Step(s, e))
  {
    match e {
      case PatchStatus => PatchInv(s);
      case CreateSnapshot => RequestInv(s);
      case RejectMethod(message) => DecideInv(s, FailedWith(s.progress.copy, message));
      case ReadDatabase(_, message) => ReadInv(s, e);
      case Block(message) => DecideInv(s, PendingWith(s.progress.copy, message));
      case MissingApi(message) => DecideInv(s, FailedWith(s.progress.copy, message));
      case ObserveSnapshot(message) => DecideInv(s, Observed(s, message));
      case _ => PlainInv(s, e);
    }
  }

  lemma PlainInv(s: State, e: Event)
    requires Inv(s) && Enabled(s, e) && (External(e) || e.Begin? || e.Checkpoint? || e.Crash?)
    ensures Inv(Step(s, e))
  {
    if External(e) {
      OthersInv(s, e);
    }
  }

  lemma OthersInv(s: State, e: Event)
    requires Inv(s) && Enabled(s, e) && External(e)
    ensures Inv(Step(s, e))
  {
  }

  lemma DecideInv(s: State, status: Status)
    requires Inv(s) && !s.progress.Idle? && status.startedAt == s.progress.copy.startedAt
    ensures Inv(Decide(s, status))
  {
  }

  lemma ReadInv(s: State, e: Event)
    requires Inv(s) && Enabled(s, e) && e.ReadDatabase?
    ensures Inv(Step(s, e))
  {
    var read := s.(dbSeen := e.copy);
    SeenInv(s, e.copy);
    if s.dbs[e.copy].None? {
      DecideInv(read, PendingWith(s.progress.copy, e.message));
      assert Step(s, e) == Decide(read, PendingWith(s.progress.copy, e.message));
    } else {
      assert Step(s, e) == read.(progress := Connecting(s.progress.copy, s.dbs[e.copy].value));
      ConnectInv(read, s.dbs[e.copy].value);
    }
  }

  lemma SeenInv(s: State, v: nat)
    requires Inv(s) && Starting(s) && v < |s.dbs|
    ensures Inv(s.(dbSeen := v))
  {
  }

  lemma ConnectInv(s: State, db: Database)
    requires Inv(s) && Starting(s) && s.dbs[s.dbSeen] == Some(db)
    ensures Inv(s.(progress := Connecting(s.progress.copy, db)))
  {
  }

  lemma RequestInv(s: State)
    requires Inv(s) && Enabled(s, CreateSnapshot)
    ensures Inv(Step(s, CreateSnapshot))
  {
  }

  lemma PatchInv(s: State)
    requires Inv(s) && Enabled(s, PatchStatus)
    ensures Inv(Step(s, PatchStatus))
  {
    assert Patched(s).Status() == Merged(s.Status(), s.progress.copy, s.progress.status);
  }

  ghost predicate RunOf(run: Run<State, Event>, name: string, backupMethod: string)
  {
    run.Of(Protocol(name, backupMethod))
  }

  lemma NameStays(s: State, e: Event)
    ensures Step(s, e).name == s.name && Step(s, e).backupMethod == s.backupMethod
  {
  }

  lemma InvAlways(name: string, backupMethod: string, run: Run<State, Event>, i: nat)
    requires RunOf(run, name, backupMethod) && i < |run.states|
    ensures Inv(run.states[i]) && run.states[i].name == name
  {
    var m := Protocol(name, backupMethod);
    forall s, e | Inv(s) && s.name == name && m.enabled(s, e) ensures Inv(m.step(s, e)) && m.step(s, e).name == name {
      InvStep(s, e);
      NameStays(s, e);
    }
    Invariance(m, s => Inv(s) && s.name == name, run, i);
  }

  /** At every moment of every run snapshots were created at most once more than they were deleted. */
  lemma SnapshotsAreCounted(name: string, backupMethod: string, run: Run<State, Event>, i: nat)
    requires RunOf(run, name, backupMethod) && i < |run.states|
    ensures run.states[i].created <= 1 + run.states[i].deleted
  {
    InvAlways(name, backupMethod, run, i);
  }

  /** At every moment of every run: a start time in the status is the time of the CHECKPOINT of the pass that wrote it,
      and that is the CHECKPOINT before the creation of the snapshot there is if and only if that same pass created
      it. */
  lemma StartedAtExactlyWhen(name: string, backupMethod: string, run: Run<State, Event>, i: nat)
    requires RunOf(run, name, backupMethod) && i < |run.states|
    ensures var s := run.states[i];
            && s.statuses != [] && (s.Status().startedAt.Some? <==> 0 < s.started) && s.started <= |s.times|
            && (0 < s.started ==> s.Status().startedAt == Some(s.times[s.started - 1]))
            && (s.snapshot.Some? ==> (s.snapshot.value.checkpoint == s.started <==> s.own))
  {
    InvAlways(name, backupMethod, run, i);
  }

  // Phases, as long as passes work on the present status.

  /** What each phase says about the other fields. */
  predicate Consistent(status: Status, name: string, clock: nat)
  {
    match status.phase
    case New => status == Status(New, None, None, "", "")
    case Pending => status.startedAt.None? && status.completedAt.None? && status.snapshotName == ""
    case Running => Started(status, name, clock) && status.completedAt.None?
    case Completed => Started(status, name, clock) && status.completedAt.Some?
                      && status.startedAt.value <= status.completedAt.value <= clock
    case Failed => status.error != "" && status.completedAt.None?
  }

  predicate Started(status: Status, name: string, clock: nat)
  {
    status.startedAt.Some? && status.startedAt.value <= clock && status.snapshotName == name && status.error == ""
  }

  predicate MayBecome(from: Phase, to: Phase)
  {
    || from == to
    || (from.New? && to.Pending?)
    || ((from.New? || from.Pending?) && (to.Running? || to.Failed?))
    || (from.Running? && (to.Completed? || to.Failed?))
  }

  predicate PhaseInv(s: State)
  {
    !s.lagged && s.statuses != [] ==>
      && Consistent(s.Status(), s.name, s.clock)
      && (s.progress.Idle? || (s.progress.copy == s.Status() && !Terminal(s.Status().phase)))
      && (s.progress.Decided? ==> Consistent(s.progress.status, s.name, s.clock)
                                  && MayBecome(s.Status().phase, s.progress.status.phase))
  }

  lemma PhaseInvStep(s: State, e: Event)
    requires Inv(s) && PhaseInv(s) && Enabled(s, e)
    ensures PhaseInv(Step(s, e))
  {
    if External(e) {
      OthersKeepPhase(s, e);
    } else if e.PatchStatus? {
      PatchKeepsPhase(s);
    } else {
      PassKeepsPhase(s, e);
    }
  }

  lemma OthersKeepPhase(s: State, e: Event)
    requires Inv(s) && PhaseInv(s) && Enabled(s, e) && External(e)
    ensures PhaseInv(Step(s, e))
  {
  }

  lemma PassKeepsPhase(s: State, e: Event)
    requires Inv(s) && PhaseInv(s) && Enabled(s, e) && !External(e) && !e.PatchStatus?
    ensures PhaseInv(Step(s, e))
  {
    match e {
      case ReadDatabase(v, message) =>
        if s.dbs[v].None? {
          DecisionKeepsPhase(s.(dbSeen := v), PendingWith(s.progress.copy, message));
        }
      case RejectMethod(message) => DecisionKeepsPhase(s, FailedWith(s.progress.copy, message));
      case Block(message) => DecisionKeepsPhase(s, PendingWith(s.progress.copy, message));
      case MissingApi(message) => DecisionKeepsPhase(s, FailedWith(s.progress.copy, message));
      case ObserveSnapshot(message) => ObservationKeepsPhase(s, message);
      case _ =>
    }
  }

  lemma DecisionKeepsPhase(s: State, status: Status)
    requires PhaseInv(s) && !s.progress.Idle? && s.statuses != []
    requires !s.lagged ==> Consistent(status, s.name, s.clock) && MayBecome(s.Status().phase, status.phase)
    ensures PhaseInv(Decide(s, status))
  {
  }

  lemma ObservationKeepsPhase(s: State, message: string)
    requires Inv(s) && PhaseInv(s) && Enabled(s, ObserveSnapshot(message))
    ensures PhaseInv(Decide(s, Observed(s, message)))
  {
    DecisionKeepsPhase(s, Observed(s, message));
  }

  lemma PatchKeepsPhase(s: State)
    requires Inv(s) && PhaseInv(s) && Enabled(s, PatchStatus)
    ensures PhaseInv(Step(s, PatchStatus))
  {
    if !s.lagged {
      assert Merged(s.Status(), s.progress.copy, s.progress.status) == s.progress.status;
      assert Patched(s).Status() == s.progress.status;
    }
  }

  lemma PhaseInvAlways(name: string, backupMethod: string, run: Run<State, Event>, i: nat)
    requires RunOf(run, name, backupMethod) && i < |run.states|
    ensures Inv(run.states[i]) && PhaseInv(run.states[i]) && run.states[i].name == name
  {
    var m := Protocol(name, backupMethod);
    forall s, e | Inv(s) && PhaseInv(s) && m.enabled(s, e) ensures Inv(m.step(s, e)) && PhaseInv(m.step(s, e)) {
      InvStep(s, e);
      PhaseInvStep(s, e);
    }
    Invariance(m, s => Inv(s) && PhaseInv(s), run, i);
    InvAlways(name, backupMethod, run, i);
  }

  /** As long as no pass worked on an old status: the fields agree with the phase, and the next event moves the phase
      along or leaves it. */
  lemma PhasesAreConsistent(name: string, backupMethod: string, run: Run<State, Event>, i: nat)
    requires RunOf(run, name, backupMethod) && i < |run.states| && !run.states[i].lagged
    ensures run.states[i].statuses != [] && Consistent(run.states[i].Status(), name, run.states[i].clock)
    ensures i < |run.events| ==>
              run.states[i + 1].statuses != []
              && MayBecome(run.states[i].Status().phase, run.states[i + 1].Status().phase)
  {
    PhaseInvAlways(name, backupMethod, run, i);
    if i < |run.events| {
      Took(name, backupMethod, run, i);
      PhaseMoves(run.states[i], run.events[i]);
    }
  }

  lemma PhaseMoves(s: State, e: Event)
    requires Inv(s) && PhaseInv(s) && Enabled(s, e) && !s.lagged
    ensures Step(s, e).statuses != [] && MayBecome(s.Status().phase, Step(s, e).Status().phase)
  {
    if e.PatchStatus? {
      assert Patched(s).Status() == Merged(s.Status(), s.progress.copy, s.progress.status);
    }
  }

  /** As long as no pass worked on an old status, a terminal status never changes. */
  lemma TerminalIsFinal(name: string, backupMethod: string, run: Run<State, Event>, i: nat, j: nat)
    requires RunOf(run, name, backupMethod) && i <= j < |run.states| && !run.states[j].lagged
    requires run.states[i].statuses != [] && Terminal(run.states[i].Status().phase)
    ensures run.states[j].statuses == run.states[i].statuses
  {
    var m, statuses := Protocol(name, backupMethod), run.states[i].statuses;
    PhaseInvAlways(name, backupMethod, run, i);
    forall s, e | KeepsTerminal(s, statuses) && Enabled(s, e) ensures KeepsTerminal(Step(s, e), statuses) {
      TerminalStep(s, e, statuses);
    }
    Onward(m, s => KeepsTerminal(s, statuses), run, i, j);
  }

  predicate KeepsTerminal(s: State, statuses: seq<Status>)
  {
    s.lagged || (s.statuses == statuses && statuses != [] && Inv(s) && PhaseInv(s) && Terminal(s.Status().phase))
  }

  lemma TerminalStep(s: State, e: Event, statuses: seq<Status>)
    requires KeepsTerminal(s, statuses) && Enabled(s, e)
    ensures KeepsTerminal(Step(s, e), statuses)
  {
    if s.lagged {
      LagStays(s, e);
    } else {
      InvStep(s, e);
      PhaseInvStep(s, e);
      NothingWritten(s, e);
    }
  }

  lemma NothingWritten(s: State, e: Event)
    requires Inv(s) && PhaseInv(s) && Enabled(s, e) && !s.lagged && Terminal(s.Status().phase)
    ensures Step(s, e).statuses == s.statuses
  {
  }

  lemma Took(name: string, backupMethod: string, run: Run<State, Event>, k: nat)
    requires RunOf(run, name, backupMethod) && k < |run.events|
    ensures Enabled(run.states[k], run.events[k]) && run.states[k + 1] == Step(run.states[k], run.events[k])
  {
  }

  lemma LagStays(s: State, e: Event)
    ensures s.lagged ==> Step(s, e).lagged
  {
  }

  // Finality in general.

  /** Whatever happens from `s` on, the status stays. */
  ghost predicate Stays(s: State)
    requires s.statuses != []
  {
    forall run: Run<State, Event> | run.Of(Protocol(s.name, s.backupMethod).(start := s)) ::
      run.Last().statuses != [] && run.Last().Status() == s.Status()
  }

  /** No copy the cache may still show can start a pass. */
  predicate ShowsTerminal(s: State)
  {
    forall v | s.seen <= v < |s.statuses| :: Terminal(s.statuses[v].phase)
  }

  /** A status stays for good if and only if all copies the cache may still show are terminal. That the present one is
      does not suffice: a pass may work on an old one. */
  lemma FinalExactlyWhen(s: State)
    requires Inv(s)
    ensures Stays(s) <==> ShowsTerminal(s)
  {
    var m := Protocol(s.name, s.backupMethod).(start := s);
    if ShowsTerminal(s) {
      forall run: Run<State, Event> | run.Of(m) ensures run.Last().statuses == s.statuses {
        OnlyTerminal(s, run, |run.events|);
      }
    } else {
      var v :| s.seen <= v < |s.statuses| && !Terminal(s.statuses[v].phase);
      var run := Changing(m, s, v);
      assert run.Of(m) && run.Last().Status() != s.Status();
    }
  }

  lemma {:induction false} OnlyTerminal(s: State, run: Run<State, Event>, n: nat)
    requires Inv(s) && ShowsTerminal(s)
    requires run.Of(Protocol(s.name, s.backupMethod).(start := s)) && n < |run.states|
    ensures run.states[n].statuses == s.statuses && run.states[n].seen == s.seen && run.states[n].progress.Idle?
  {
    if n > 0 {
      OnlyTerminal(s, run, n - 1);
      assert Enabled(run.states[n - 1], run.events[n - 1]);
    }
  }

  /** A message that neither status has. */
  function Other(a: string, b: string): (message: string)
    ensures message != "" && message != a && message != b
  {
    a + b + "x"
  }

  /** One pass over copy `v` changes at least the error. */
  lemma Changing(m: Machine<State, Event>, s: State, v: nat) returns (run: Run<State, Event>)
    requires m == Protocol(s.name, s.backupMethod).(start := s) && Inv(s)
    requires s.seen <= v < |s.statuses| && !Terminal(s.statuses[v].phase)
    ensures run.Of(m) && run.Last().statuses != [] && run.Last().Status() != s.Status()
  {
    var copy := s.statuses[v];
    var message := Other(copy.error, s.Status().error);
    run := Stopped(m, s);
    if copy.phase.Running? {
      run := DecideRunning(m, run, v, message);
    } else if Supported(s.backupMethod) {
      run := DecidePending(m, run, v, message);
    } else {
      run := DecideRejected(m, run, v, message);
    }
    run := PatchError(m, run, message);
  }

  lemma Stopped(m: Machine<State, Event>, s: State) returns (run: Run<State, Event>)
    requires m == Protocol(s.name, s.backupMethod).(start := s)
    ensures run.Of(m) && run.Last() == s.(progress := Idle)
  {
    run := Run([s], []);
    if !s.progress.Idle? {
      run := Prolong(m, run, Crash);
    }
  }

  /** `run` decides on an error that its copy does not show. */
  ghost predicate DecidesOn(m: Machine<State, Event>, run: Run<State, Event>, message: string)
  {
    run.Of(m) && run.Last().progress.Decided? && run.Last().statuses != []
    && run.Last().progress.status.error == message && run.Last().progress.copy.error != message
  }

  ghost predicate MayBegin(m: Machine<State, Event>, run: Run<State, Event>, v: nat, message: string)
  {
    run.Of(m) && m.enabled == Enabled && m.step == Step && run.Last().progress.Idle?
    && run.Last().seen <= v < |run.Last().statuses| && !Terminal(run.Last().statuses[v].phase)
    && message != "" && run.Last().statuses[v].error != message
  }

  lemma DecideRunning(m: Machine<State, Event>, run: Run<State, Event>, v: nat, message: string)
    returns (later: Run<State, Event>)
    requires MayBegin(m, run, v, message) && run.Last().statuses[v].phase.Running?
    ensures DecidesOn(m, later, message)
  {
    later := run;
    if run.Last().snapshot.Some? {
      later := Prolong(m, later, ReportSnapshot(false, message));
    }
    later := ObserveFailed(m, later, v, message);
  }

  lemma ObserveFailed(m: Machine<State, Event>, run: Run<State, Event>, v: nat, message: string)
    returns (later: Run<State, Event>)
    requires MayBegin(m, run, v, message) && run.Last().statuses[v].phase.Running?
    requires run.Last().snapshot.Some? ==> run.Last().snapshot.value.failure == message
    ensures DecidesOn(m, later, message)
  {
    later := Prolong(m, run, Begin(v));
    assert later.Last().progress == Begun(run.Last().statuses[v]);
    later := Prolong(m, later, ObserveSnapshot(message));
  }

  lemma DecidePending(m: Machine<State, Event>, run: Run<State, Event>, v: nat, message: string)
    returns (later: Run<State, Event>)
    requires MayBegin(m, run, v, message) && !run.Last().statuses[v].phase.Running?
    requires Supported(run.Last().backupMethod) && run.Last().dbSeen <= |run.Last().dbs|
    ensures DecidesOn(m, later, message)
  {
    later := Prolong(m, run, ChangeDatabase(None));
    later := Prolong(m, later, Begin(v));
    later := Prolong(m, later, ReadDatabase(|run.Last().dbs|, message));
  }

  lemma DecideRejected(m: Machine<State, Event>, run: Run<State, Event>, v: nat, message: string)
    returns (later: Run<State, Event>)
    requires MayBegin(m, run, v, message) && !run.Last().statuses[v].phase.Running?
    requires !Supported(run.Last().backupMethod)
    ensures DecidesOn(m, later, message)
  {
    later := Prolong(m, run, Begin(v));
    later := Prolong(m, later, RejectMethod(message));
  }

  lemma PatchError(m: Machine<State, Event>, run: Run<State, Event>, message: string) returns (later: Run<State, Event>)
    requires m.enabled == Enabled && m.step == Step && DecidesOn(m, run, message)
    ensures later.Of(m) && later.Last().statuses != [] && later.Last().Status().error == message
  {
    later := Prolong(m, run, PatchStatus);
    var s := run.Last();
    assert Patched(s).Status() == Merged(s.Status(), s.progress.copy, s.progress.status);
  }

  // What precedes a snapshot and a completion.

  ghost predicate OnlyOthersBetween(run: Run<State, Event>, i: nat, j: nat)
  {
    forall k | i < k < j && k < |run.events| :: External(run.events[k])
  }

  /** At `j` the pass read `db` as the cache showed it. */
  predicate Reads(s: State, e: Event, db: Database)
  {
    e.ReadDatabase? && e.copy < |s.dbs| && s.dbs[e.copy] == Some(db)
  }

  lemma ConnectingStep(s: State, e: Event)
    requires Enabled(s, e) && Step(s, e).progress.Connecting?
    ensures Reads(s, e, Step(s, e).progress.db) || (External(e) && s.progress == Step(s, e).progress)
  {
  }

  lemma CheckpointedStep(s: State, e: Event)
    requires Enabled(s, e) && Step(s, e).progress.Checkpointed?
    ensures || (e.Checkpoint? && s.progress.Connecting? && s.progress.db == Step(s, e).progress.db)
            || (External(e) && s.progress == Step(s, e).progress)
  {
  }

  lemma {:induction false} DatabaseReadBefore(name: string, backupMethod: string, run: Run<State, Event>, i: nat)
    returns (j: nat)
    requires RunOf(run, name, backupMethod) && i < |run.states| && run.states[i].progress.Connecting?
    ensures j < i && Reads(run.states[j], run.events[j], run.states[i].progress.db)
    ensures OnlyOthersBetween(run, j, i)
  {
    assert Enabled(run.states[i - 1], run.events[i - 1]);
    ConnectingStep(run.states[i - 1], run.events[i - 1]);
    if run.events[i - 1].ReadDatabase? {
      j := i - 1;
    } else {
      j := DatabaseReadBefore(name, backupMethod, run, i - 1);
    }
  }

  lemma {:induction false} CheckpointBefore(name: string, backupMethod: string, run: Run<State, Event>, i: nat)
    returns (j: nat)
    requires RunOf(run, name, backupMethod) && i < |run.states| && run.states[i].progress.Checkpointed?
    ensures j < i && run.events[j].Checkpoint? && run.states[j].progress.Connecting?
    ensures run.states[j].progress.db == run.states[i].progress.db && OnlyOthersBetween(run, j, i)
  {
    assert Enabled(run.states[i - 1], run.events[i - 1]);
    CheckpointedStep(run.states[i - 1], run.events[i - 1]);
    if run.events[i - 1].Checkpoint? {
      j := i - 1;
    } else {
      j := CheckpointBefore(name, backupMethod, run, i - 1);
    }
  }

  /** Whenever a snapshot request goes out, the same pass has read a version of the SereneDB at `r` and checkpointed the
      server at `c`, and what gets created is a snapshot of the claim that the server of that version mounts; it is the
      present version unless the SereneDB has changed since or the version read was an old one. */
  lemma SnapshotFollowsCheckpoint(name: string, backupMethod: string, run: Run<State, Event>, i: nat)
    returns (r: nat, c: nat, db: Database)
    requires RunOf(run, name, backupMethod) && i < |run.events| && run.events[i].CreateSnapshot?
    ensures r < c < i && run.events[c].Checkpoint? && OnlyOthersBetween(run, r, c) && OnlyOthersBetween(run, c, i)
    ensures Reads(run.states[r], run.events[r], db)
    ensures run.states[i].snapshot.None? ==>
              && run.states[i + 1].snapshot.Some? && run.states[i + 1].snapshot.value.claim == MountedClaim(db)
              && MountedClaim(db) == if db.existingClaim != "" then db.existingClaim else "data-" + db.name + "-0"
    ensures var s := run.states[i]; s.dbSeen < |s.dbs| && s.dbs[s.dbSeen] == Some(db)
  {
    InvAlways(name, backupMethod, run, i);
    assert Enabled(run.states[i], run.events[i]);
    c := CheckpointBefore(name, backupMethod, run, i);
    r := DatabaseReadBefore(name, backupMethod, run, c);
    db := run.states[i].progress.db;
    assert DATA_VOLUME + "-" + db.name + "-0" == DATA_VOLUME + "-" + (db.name + "-0");
  }

  predicate Completing(s: State)
  {
    || (s.statuses != [] && s.Status().phase.Completed?)
    || (s.progress.Decided? && s.progress.status.phase.Completed?)
  }

  predicate ReadyToUse(snapshot: Option<Snapshot>)
  {
    snapshot.Some? && snapshot.value.ready && snapshot.value.failure == ""
  }

  lemma CompletesByObserving(s: State, e: Event)
    requires Inv(s) && Enabled(s, e) && Completing(Step(s, e))
    ensures Completing(s) || (e.ObserveSnapshot? && ReadyToUse(s.snapshot))
  {
    if e.PatchStatus? {
      assert Patched(s).Status() == Merged(s.Status(), s.progress.copy, s.progress.status);
    }
  }

  /** A Backup is Completed only after its snapshot was seen ready and without an error. */
  lemma {:induction false} CompletedSawReady(name: string, backupMethod: string, run: Run<State, Event>, i: nat)
    returns (j: nat)
    requires RunOf(run, name, backupMethod) && i < |run.states| && Completing(run.states[i])
    ensures j < i && run.events[j].ObserveSnapshot? && ReadyToUse(run.states[j].snapshot)
  {
    NothingAtStart(name, backupMethod, run);
    InvAlways(name, backupMethod, run, i - 1);
    Took(name, backupMethod, run, i - 1);
    CompletesByObserving(run.states[i - 1], run.events[i - 1]);
    if Completing(run.states[i - 1]) {
      j := CompletedSawReady(name, backupMethod, run, i - 1);
    } else {
      j := i - 1;
    }
  }

  // What each decision says, and why a Backup fails.

  /** In every run, what a step decides, in the terms of the status alone: an unsupported method and a missing snapshot
      API fail the Backup, a missing SereneDB and a server that cannot be asked leave it pending, a request makes it
      running, and an observation fails or completes it or leaves it. Nothing else of the copy changes. */
  lemma DecisionsSaySo(name: string, backupMethod: string, run: Run<State, Event>, i: nat)
    requires RunOf(run, name, backupMethod) && i < |run.events| && !run.states[i].progress.Idle?
    ensures run.states[i].statuses != []
    ensures var s, p, p' := run.states[i], run.states[i].progress, run.states[i + 1].progress;
            match run.events[i]
            case RejectMethod(message) =>
              && backupMethod != "" && backupMethod != "volumeSnapshot"
              && p'.Decided? && p'.status == p.copy.(phase := Failed, error := message)
            case ReadDatabase(v, message) =>
              v < |s.dbs| && match s.dbs[v] {
                case None => p'.Decided? && p'.status == p.copy.(phase := Pending, error := message)
                case Some(db) => p' == Connecting(p.copy, db)
              }
            case Block(message) => p'.Decided? && p'.status == p.copy.(phase := Pending, error := message)
            case MissingApi(message) => p'.Decided? && p'.status == p.copy.(phase := Failed, error := message)
            case CreateSnapshot =>
              && p.Checkpointed? && 0 < p.number <= |s.times| && p'.Decided?
              && p'.status == Status(Running, Some(s.times[p.number - 1]), p.copy.completedAt, name, "")
            case ObserveSnapshot(message) =>
              && p'.Decided?
              && if p.copy.snapshotName != name || s.snapshot.None?
                 then p'.status == p.copy.(phase := Failed, error := message)
                 else if s.snapshot.value.failure != ""
                 then p'.status == p.copy.(phase := Failed, error := s.snapshot.value.failure)
                 else if s.snapshot.value.ready
                 then p'.status == p.copy.(phase := Completed, completedAt := Some(s.clock))
                 else p'.status == p.copy
            case _ => true
  {
    InvAlways(name, backupMethod, run, i);
    MethodAlways(name, backupMethod, run, i);
    assert Enabled(run.states[i], run.events[i]);
  }

  lemma MethodAlways(name: string, backupMethod: string, run: Run<State, Event>, i: nat)
    requires RunOf(run, name, backupMethod) && i < |run.states|
    ensures run.states[i].backupMethod == backupMethod
  {
    forall s: State, e | s.backupMethod == backupMethod && Enabled(s, e)
      ensures Step(s, e).backupMethod == backupMethod
    {
      NameStays(s, e);
    }
    Invariance(Protocol(name, backupMethod), (s: State) => s.backupMethod == backupMethod, run, i);
  }

  lemma NothingAtStart(name: string, backupMethod: string, run: Run<State, Event>)
    requires RunOf(run, name, backupMethod)
    ensures run.states != [] && !Completing(run.states[0]) && !Failing(run.states[0])
  {
  }

  predicate Failing(s: State)
  {
    || (s.statuses != [] && s.Status().phase.Failed?)
    || (s.progress.Decided? && s.progress.status.phase.Failed?)
  }

  /** An unsupported method, no snapshot API, or a snapshot that is missing or reports an error. */
  predicate Hopeless(s: State, e: Event)
  {
    || (e.RejectMethod? && s.backupMethod != "" && s.backupMethod != "volumeSnapshot")
    || e.MissingApi?
    || (e.ObserveSnapshot? && s.progress.Begun?
        && (s.progress.copy.snapshotName != s.name || s.snapshot.None? || s.snapshot.value.failure != ""))
  }

  lemma FailsByCause(s: State, e: Event)
    requires Inv(s) && Enabled(s, e) && Failing(Step(s, e))
    ensures Failing(s) || Hopeless(s, e)
  {
    if e.PatchStatus? {
      assert Patched(s).Status() == Merged(s.Status(), s.progress.copy, s.progress.status);
    }
  }

  /** A Backup is Failed only after such a step; a missing or unready SereneDB, a refused session or a failed CHECKPOINT
      never make it so. */
  lemma {:induction false} FailedSawCause(name: string, backupMethod: string, run: Run<State, Event>, i: nat)
    returns (j: nat)
    requires RunOf(run, name, backupMethod) && i < |run.states| && Failing(run.states[i])
    ensures j < i && Hopeless(run.states[j], run.events[j])
  {
    NothingAtStart(name, backupMethod, run);
    InvAlways(name, backupMethod, run, i - 1);
    Took(name, backupMethod, run, i - 1);
    FailsByCause(run.states[i - 1], run.events[i - 1]);
    if Failing(run.states[i - 1]) {
      j := FailedSawCause(name, backupMethod, run, i - 1);
    } else {
      j := i - 1;
    }
  }

  // Two runs.

  const DB := Database("db", "")

  /** A pass up to its snapshot request, over the first status and the second version of the SereneDB. */
  lemma Request(m: Machine<State, Event>, run: Run<State, Event>) returns (later: Run<State, Event>)
    requires run.Of(m) && m.enabled == Enabled && m.step == Step
    requires var s := run.Last(); s.progress.Idle? && s.seen <= 0 && |s.statuses| == 1 && s.statuses[0].phase.New?
                                  && Supported(s.backupMethod) && s.dbSeen <= 1 && s.dbs == [None, Some(DB)]
    ensures later.Of(m) && later.Last() == Requested(AfterCheckpoint(run.Last()), |run.Last().times| + 1)
  {
    later := Connect(m, run);
    later := Prolong(m, later, Checkpoint);
    assert later.Last() == AfterCheckpoint(run.Last());
    later := Prolong(m, later, CreateSnapshot);
  }

  lemma Connect(m: Machine<State, Event>, run: Run<State, Event>) returns (later: Run<State, Event>)
    requires run.Of(m) && m.enabled == Enabled && m.step == Step
    requires var s := run.Last(); s.progress.Idle? && s.seen <= 0 && |s.statuses| == 1 && s.statuses[0].phase.New?
                                  && Supported(s.backupMethod) && s.dbSeen <= 1 && s.dbs == [None, Some(DB)]
    ensures later.Of(m)
    ensures var s := run.Last(); later.Last() == s.(seen := 0, dbSeen := 1, progress := Connecting(s.statuses[0], DB))
  {
    later := Prolong(m, run, Begin(0));
    later := Prolong(m, later, ReadDatabase(1, ""));
  }

  function AfterCheckpoint(s: State): State
    requires s.statuses != []
  {
    s.(seen := 0, dbSeen := 1, times := s.times + [s.clock], progress := Checkpointed(s.statuses[0], DB, |s.times| + 1))
  }

  const NEW := Status(New, None, None, "", "")

  function RunningSince(name: string, at: nat): Status
  {
    Status(Running, Some(at), None, name, "")
  }

  /** The first pass, up to its patch. */
  lemma FirstRequest(name: string) returns (run: Run<State, Event>)
    ensures RunOf(run, name, "")
    ensures run.Last() == State(name, "", [NEW], 0, [None, Some(DB)], 1,
                                Some(Snapshot(DataClaimName(DB), false, "", 1)), 0, [0], 1, 0, 0, false, false,
                                Decided(NEW, RunningSince(name, 0), 1, true))
  {
    var m := Protocol(name, "");
    run := Run([m.start], []);
    run := Prolong(m, run, ChangeDatabase(Some(DB)));
    run := Request(m, run);
  }

  /** The status write of the pass that created the snapshot gets lost, and the next pass records its own CHECKPOINT,
      five seconds later. */
  lemma StartedAtAfterLostPatch(name: string) returns (run: Run<State, Event>)
    ensures RunOf(run, name, "") && run.Last().statuses != [] && run.Last().Status().startedAt == Some(5)
    ensures run.Last().snapshot.Some? && run.Last().snapshot.value.checkpoint == 1 && run.Last().times == [0, 5]
    ensures !run.Last().lagged && !run.Last().own
  {
    var m := Protocol(name, "");
    run := FirstRequest(name);
    run := Prolong(m, run, Crash);
    run := Prolong(m, run, PassTime(5));
    run := Request(m, run);
    assert run.Last().progress == Decided(NEW, RunningSince(name, 5), 2, false);
    run := Prolong(m, run, PatchStatus);
  }

  lemma RunningOnce(name: string) returns (run: Run<State, Event>)
    ensures RunOf(run, name, "")
    ensures run.Last() == State(name, "", [NEW, RunningSince(name, 0)], 0, [None, Some(DB)], 1,
                                Some(Snapshot(DataClaimName(DB), false, "", 1)), 0, [0], 1, 0, 1, true, false, Idle)
  {
    var m := Protocol(name, "");
    run := FirstRequest(name);
    run := Prolong(m, run, PatchStatus);
  }

  lemma CompletedOnce(name: string) returns (run: Run<State, Event>)
    ensures RunOf(run, name, "") && run.Last().progress.Idle? && run.Last().name == name && run.Last().snapshot.Some?
    ensures run.Last().statuses == [NEW, RunningSince(name, 0), Status(Completed, Some(0), Some(0), name, "")]
    ensures run.Last().seen == 1
  {
    var m := Protocol(name, "");
    run := RunningOnce(name);
    run := Prolong(m, run, ReportSnapshot(true, ""));
    run := Prolong(m, run, Begin(1));
    run := Prolong(m, run, ObserveSnapshot("gone"));
    assert run.Last().progress
        == Decided(RunningSince(name, 0), Status(Completed, Some(0), Some(0), name, ""), 0, false);
    run := Prolong(m, run, PatchStatus);
  }

  /** A completed Backup whose snapshot reports an error later fails, its completion time left in place, when a pass
      works on the running copy that the cache still shows. */
  lemma CompletedThenFailed(name: string) returns (run: Run<State, Event>)
    ensures RunOf(run, name, "") && run.Last().statuses != []
    ensures run.Last().Status() == Status(Failed, Some(0), Some(0), name, "lost")
  {
    var m := Protocol(name, "");
    run := CompletedOnce(name);
    run := Prolong(m, run, ReportSnapshot(true, "lost"));
    run := Prolong(m, run, Begin(1));
    run := Prolong(m, run, ObserveSnapshot("gone"));
    run := Prolong(m, run, PatchStatus);
  }

  datatype Outcome = Ok | Error

  /** What comes of the session and the CHECKPOINT: the SereneDB could not be looked up, or it is not ready, or the
      CHECKPOINT failed, maybe after it took effect, or it went through. */
  datatype Server =
    | Unreadable
    | NotReady(message: string)
    | CheckpointFails(message: string, done: bool)
    | Checkpoints

  /** What comes of the create of a VolumeSnapshot. */
  datatype Api = Missing | Refusing(done: bool) | Accepting

  ghost predicate Manages(w: World<State, Event>, name: string, backupMethod: string)
    reads w`run, w`state
  {
    && w.Runs(Protocol(name, backupMethod)) && w.state.name == name && w.state.backupMethod == backupMethod
    && w.state.statuses != []
  }

  /** The pass decided on `status`, made of `copy`. */
  ghost predicate DecidedOn(w: World<State, Event>, copy: Status, status: Status)
    reads w`state
  {
    w.state.progress.Decided? && w.state.progress.copy == copy && w.state.progress.status == status
  }

  /** One pass over version `v` of the Backup, if the cache shows it. The status is changed on a copy and patched at the
      end. */
  method Reconcile(name: string, backupMethod: string, w: World<State, Event>, v: nat) returns (outcome: Outcome)
    requires Manages(w, name, backupMethod) && w.state.progress.Idle?
    modifies w
    ensures Manages(w, name, backupMethod) && w.run.Continues(old(w.run)) && w.state.progress.Idle?
    ensures w.state.created <= 1 + w.state.deleted
    ensures !w.state.lagged ==>
              && Consistent(w.state.Status(), name, w.state.clock)
              && MayBecome(old(w.state).Status().phase, w.state.Status().phase)
    ensures var s := old(w.state);
            if s.seen <= v < |s.statuses| && s.statuses[v].phase != Completed && s.statuses[v].phase != Failed
            then outcome.Ok? ==> w.run.events != [] && w.run.events[|w.run.events| - 1] == PatchStatus
            else outcome.Ok? && w.state == s
    ensures outcome.Error? ==> w.faults > old(w.faults)
  {
    outcome := Ok;
    if w.state.seen <= v < |w.state.statuses| {
      var copy := w.state.statuses[v];
      if !copy.phase.Completed? && !copy.phase.Failed? {
        outcome := Work(name, backupMethod, w, v, copy);
      }
    }
    PhaseInvAlways(name, backupMethod, w.run, |w.run.events|);
  }

  method Work(name: string, backupMethod: string, w: World<State, Event>, v: nat, copy: Status)
    returns (outcome: Outcome)
    requires Manages(w, name, backupMethod) && w.state.progress.Idle?
    requires w.state.seen <= v < |w.state.statuses| && copy == w.state.statuses[v] && !Terminal(copy.phase)
    modifies w
    ensures Manages(w, name, backupMethod) && w.run.Continues(old(w.run)) && w.state.progress.Idle?
    ensures !w.state.lagged ==> MayBecome(old(w.state).Status().phase, w.state.Status().phase)
    ensures outcome.Ok? ==> w.run.events != [] && w.run.events[|w.run.events| - 1] == PatchStatus
    ensures outcome.Error? ==> w.faults > old(w.faults)
  {
    var status;
    BeginOn(name, backupMethod, w, v, copy);
    outcome, status := DecideOn(name, backupMethod, w, copy);
    outcome := Patch(name, backupMethod, w, outcome, copy, status);
  }

  method BeginOn(name: string, backupMethod: string, w: World<State, Event>, v: nat, copy: Status)
    requires Manages(w, name, backupMethod) && w.state.progress.Idle?
    requires w.state.seen <= v < |w.state.statuses| && copy == w.state.statuses[v] && !Terminal(copy.phase)
    modifies w
    ensures Manages(w, name, backupMethod) && w.run.Continues(old(w.run)) && w.faults == old(w.faults)
    ensures w.state.progress == Begun(copy) && w.state.statuses == old(w.state).statuses
  {
    w.Do(Begin(v));
  }

  method DecideOn(name: string, backupMethod: string, w: World<State, Event>, copy: Status)
    returns (outcome: Outcome, status: Status)
    requires Manages(w, name, backupMethod) && w.state.progress == Begun(copy)
    modifies w
    ensures Manages(w, name, backupMethod) && w.run.Continues(old(w.run)) && Unwritten(old(w.state), w.state)
    ensures if outcome.Ok? then DecidedOn(w, copy, status) else !w.state.progress.Idle?
    ensures w.faults >= old(w.faults) && (outcome.Error? ==> w.faults > old(w.faults))
  {
    if copy.phase.Running? {
      outcome, status := Observe(name, backupMethod, w, copy);
    } else {
      var server: Server, api: Api := *, *;
      ghost var read;
      outcome, status, read := Start(name, backupMethod, w, copy, server, api);
      if server.Unreadable? || api.Refusing? {
        w.Fault();
      }
    }
  }

  lemma NowPatched(name: string, backupMethod: string, run: Run<State, Event>)
    requires RunOf(run, name, backupMethod)
    ensures var s := run.Last();
            && s.statuses != []
            && (s.progress.Decided? ==>
                  && Step(s, PatchStatus).statuses != []
                  && Step(s, PatchStatus).Status() == Merged(s.Status(), s.progress.copy, s.progress.status)
                  && (!s.lagged ==> MayBecome(s.Status().phase, Step(s, PatchStatus).Status().phase)))
  {
    PhaseInvAlways(name, backupMethod, run, |run.events|);
    if run.Last().progress.Decided? && !run.Last().lagged {
      PhaseMoves(run.Last(), PatchStatus);
    }
  }

  method Patch(name: string, backupMethod: string, w: World<State, Event>, decided: Outcome, copy: Status,
      status: Status) returns (outcome: Outcome)
    requires Manages(w, name, backupMethod) && !w.state.progress.Idle?
    requires decided.Ok? ==> DecidedOn(w, copy, status)
    modifies w
    ensures Manages(w, name, backupMethod) && w.run.Continues(old(w.run)) && w.state.progress.Idle?
    ensures || w.state.statuses == old(w.state).statuses
            || (decided.Ok? && w.state.Status() == Merged(old(w.state).Status(), copy, status))
    ensures outcome.Ok? ==> decided.Ok? && w.state.Status() == Merged(old(w.state).Status(), copy, status)
    ensures outcome.Ok? ==> w.run.events != [] && w.run.events[|w.run.events| - 1] == PatchStatus
    ensures !w.state.lagged ==> !old(w.state).lagged && MayBecome(old(w.state).Status().phase, w.state.Status().phase)
    ensures w.faults >= old(w.faults) && (outcome.Error? ==> decided.Error? || w.faults > old(w.faults))
  {
    Interfere(name, backupMethod, w);
    NowPatched(name, backupMethod, w.run);
    var failed := w.Fails();
    outcome := Error;
    if decided.Ok? && !failed {
      w.Do(PatchStatus);
      var lost := w.Fails();
      outcome := if lost then Error else Ok;
    } else {
      GiveUp(name, backupMethod, w);
    }
  }

  method GiveUp(name: string, backupMethod: string, w: World<State, Event>)
    requires Manages(w, name, backupMethod) && !w.state.progress.Idle?
    modifies w
    ensures Manages(w, name, backupMethod) && w.run.Continues(old(w.run)) && w.faults == old(w.faults)
    ensures w.state == old(w.state).(progress := Idle)
  {
    w.Do(Crash);
  }

  /** `read` is the SereneDB as the cache showed it. */
  method Start(name: string, backupMethod: string, w: World<State, Event>, copy: Status, server: Server, api: Api)
    returns (outcome: Outcome, status: Status, ghost read: Option<Database>)
    requires Manages(w, name, backupMethod) && w.state.progress == Begun(copy) && !copy.phase.Running?
    modifies w
    ensures Manages(w, name, backupMethod) && w.run.Continues(old(w.run)) && Unwritten(old(w.state), w.state)
    ensures if outcome.Ok? then DecidedOn(w, copy, status) else !w.state.progress.Idle?
    ensures outcome.Ok? && backupMethod != "" && backupMethod != "volumeSnapshot" ==>
              status == copy.(phase := Failed, error := "unsupported method")
    ensures outcome.Ok? && (backupMethod == "" || backupMethod == "volumeSnapshot") ==>
              if read.None? then status == copy.(phase := Pending, error := "serenedb not found")
              else Answered(w.state, copy, status, server, api)
    ensures w.faults >= old(w.faults)
    ensures outcome.Error? ==> w.faults > old(w.faults) || server.Unreadable? || api.Refusing?
  {
    status, read := copy, None;
    if backupMethod != "" && backupMethod != METHOD_VOLUME_SNAPSHOT {
      w.Do(RejectMethod("unsupported method"));
      status := status.(phase := Failed, error := "unsupported method");
      return Ok, status, read;
    }
    Interfere(name, backupMethod, w);
    var v: int := *;
    if !(w.state.dbSeen <= v < |w.state.dbs|) {
      // The SereneDB could not be read.
      w.Fault();
      return Error, status, read;
    }
    var db := w.state.dbs[v];
    read := db;
    w.Do(ReadDatabase(v, "serenedb not found"));
    if db.None? {
      status := status.(phase := Pending, error := "serenedb not found");
      return Ok, status, read;
    }
    outcome, status := CheckpointAndSnapshot(name, backupMethod, w, status, db.value, server, api);
  }

  /** What the answers of the server and of the snapshot API make of the status; the start time is that of the last
      CHECKPOINT. */
  ghost predicate Answered(s: State, copy: Status, status: Status, server: Server, api: Api)
  {
    match server
    case Unreadable => false
    case NotReady(message) => status == copy.(phase := Pending, error := message)
    case CheckpointFails(message, _) => status == copy.(phase := Pending, error := message)
    case Checkpoints =>
      match api
      case Missing => status == copy.(phase := Failed, error := "no snapshot API")
      case Refusing(_) => false
      case Accepting =>
        s.times != [] && status == Status(Running, Some(s.times[|s.times| - 1]), copy.completedAt, s.name, "")
  }

  method CheckpointAndSnapshot(name: string, backupMethod: string, w: World<State, Event>, copy: Status, db: Database,
      server: Server, api: Api) returns (outcome: Outcome, status: Status)
    requires Manages(w, name, backupMethod) && w.state.progress == Connecting(copy, db)
    modifies w
    ensures Manages(w, name, backupMethod) && w.run.Continues(old(w.run)) && Unwritten(old(w.state), w.state)
    ensures if outcome.Ok? then DecidedOn(w, copy, status) else !w.state.progress.Idle?
    ensures outcome.Ok? ==> Answered(w.state, copy, status, server, api)
    ensures w.faults == old(w.faults) && (outcome.Error? ==> server.Unreadable? || api.Refusing?)
  {
    status := copy;
    Interfere(name, backupMethod, w);
    match server {
      case Unreadable => outcome := Error;
      case NotReady(message) =>
        status := WaitFor(name, backupMethod, w, status, message);
        outcome := Ok;
      case CheckpointFails(message, done) =>
        if done {
          w.Do(Checkpoint);
        }
        status := WaitFor(name, backupMethod, w, status, message);
        outcome := Ok;
      case Checkpoints =>
        w.Do(Checkpoint);
        outcome, status := RequestSnapshot(name, backupMethod, w, status, api);
    }
  }

  method WaitFor(name: string, backupMethod: string, w: World<State, Event>, copy: Status, message: string)
    returns (status: Status)
    requires Manages(w, name, backupMethod) && (w.state.progress.Connecting? || w.state.progress.Checkpointed?)
    requires w.state.progress.copy == copy
    modifies w
    ensures Manages(w, name, backupMethod) && w.run.Continues(old(w.run)) && Unwritten(old(w.state), w.state)
    ensures DecidedOn(w, copy, status) && status == copy.(phase := Pending, error := message)
    ensures w.faults == old(w.faults)
  {
    w.Do(Block(message));
    status := copy.(phase := Pending, error := message);
  }

  method RequestSnapshot(name: string, backupMethod: string, w: World<State, Event>, copy: Status, api: Api)
    returns (outcome: Outcome, status: Status)
    requires Manages(w, name, backupMethod) && w.state.progress.Checkpointed? && w.state.progress.copy == copy
    requires 0 < w.state.progress.number == |w.state.times|
    modifies w
    ensures Manages(w, name, backupMethod) && w.run.Continues(old(w.run)) && Unwritten(old(w.state), w.state)
    ensures if outcome.Ok? then DecidedOn(w, copy, status) else !w.state.progress.Idle?
    ensures outcome.Ok? ==> Answered(w.state, copy, status, Checkpoints, api)
    ensures w.faults == old(w.faults) && (outcome.Error? <==> api.Refusing?)
  {
    status := copy;
    var started := w.state.times[w.state.progress.number - 1];
    Interfere(name, backupMethod, w);
    match api {
      case Missing =>
        w.Do(MissingApi("no snapshot API"));
        outcome, status := Ok, status.(phase := Failed, error := "no snapshot API");
      case Refusing(done) =>
        if done {
          // The snapshot was created but the answer got lost.
          w.Do(CreateSnapshot);
        }
        outcome := Error;
      case Accepting =>
        w.Do(CreateSnapshot);
        status := status.(phase := Running);
        status := status.(startedAt := Some(started));
        status := status.(snapshotName := name);
        status := status.(error := "");
        outcome := Ok;
    }
  }

  method Observe(name: string, backupMethod: string, w: World<State, Event>, copy: Status)
    returns (outcome: Outcome, status: Status)
    requires Manages(w, name, backupMethod) && w.state.progress == Begun(copy) && copy.phase.Running?
    modifies w
    ensures Manages(w, name, backupMethod) && w.run.Continues(old(w.run)) && Unwritten(old(w.state), w.state)
    ensures if outcome.Ok? then DecidedOn(w, copy, status) else !w.state.progress.Idle?
    ensures outcome.Ok? ==>
              if copy.snapshotName != name || w.state.snapshot.None?
              then status == copy.(phase := Failed, error := "volumesnapshot disappeared")
              else
                var snapshot := w.state.snapshot.value;
                if snapshot.failure != "" then status == copy.(phase := Failed, error := snapshot.failure)
                else if snapshot.ready then status == copy.(phase := Completed, completedAt := Some(w.state.clock))
                else status == copy
    ensures w.faults >= old(w.faults) && (outcome.Error? ==> w.faults > old(w.faults))
  {
    status := copy;
    Interfere(name, backupMethod, w);
    var failed := w.Fails();
    if failed {
      return Error, status;
    }
    var snapshot, now := Lookup(w.state, status.snapshotName), w.state.clock;
    w.Do(ObserveSnapshot("volumesnapshot disappeared"));
    if snapshot.None? {
      status := status.(phase := Failed, error := "volumesnapshot disappeared");
    } else if snapshot.value.failure != "" {
      status := status.(phase := Failed, error := snapshot.value.failure);
    } else if snapshot.value.ready {
      status := status.(phase := Completed);
      status := status.(completedAt := Some(now));
    }
    outcome := Ok;
  }

  /** The stored statuses are as they were. */
  predicate Unwritten(before: State, after: State)
  {
    after.statuses == before.statuses && after.lagged == before.lagged
  }

  method Interfere(name: string, backupMethod: string, w: World<State, Event>)
    requires Manages(w, name, backupMethod)
    modifies w
    ensures Manages(w, name, backupMethod) && w.run.Continues(old(w.run)) && Unwritten(old(w.state), w.state)
    ensures w.state.progress == old(w.state).progress && old(w.state).times == w.state.times
    ensures w.faults == old(w.faults)
  {
    ghost var before, entry := |w.run.events|, w.state;
    w.Others();
    ExternalInvariance(Protocol(name, backupMethod), (s: State) => Undisturbed(entry, s), w.run, before,
        |w.run.events|);
  }

  predicate Undisturbed(before: State, s: State)
  {
    && s.progress == before.progress && Unwritten(before, s) && s.times == before.times
    && s.name == before.name && s.backupMethod == before.backupMethod
  }
}
