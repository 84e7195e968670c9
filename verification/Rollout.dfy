/** The Ready condition and `status.version` of a SereneDB, inferred from counters of a StatefulSet that lag behind. The
    operator alone writes the StatefulSet; its controller publishes a generation together with that generation's counts
    and revisions, from a copy that may be old but never goes back. The operator reads both objects from a cache that
    may be old but never goes back. */
module Rollout {
  import opened Machines

  const DEFAULT_IMAGE_TAG := "26.09.2"
  const STABLE := "rollout complete"
  const ROLLING_OUT := "statefulset rollout in progress"

  /** `pod` stands for every other field that reaches the pod template, the config hash among them; `setOnly` for the
      fields that change the StatefulSet but not the template. */
  datatype Spec = Spec(tag: string, pod: string, setOnly: string)
  datatype Template = Template(tag: string, pod: string)

  datatype SetStatus = SetStatus(
    observedGeneration: nat, readyReplicas: nat, updatedReplicas: nat, currentRevision: Template,
    updateRevision: Template)
  datatype StatefulSet = StatefulSet(generation: nat, template: Template, setOnly: string, status: SetStatus)
  datatype Pod = Pod(template: Template, ready: bool)

  /** The copy of the StatefulSet its own controller works on. */
  datatype Synced = Synced(generation: nat, template: Template)

  datatype Condition = Unknown | True | False

  /** The Ready and Progressing conditions, which are always set together, with their reasons and messages. */
  datatype Conditions = Conditions(ready: Condition, progressing: Condition, why: string, generation: nat)
  datatype Status = Status(observedGeneration: nat, conditions: Conditions, readyReplicas: nat, version: string)

  /** A version of the SereneDB. */
  datatype Object = Object(generation: nat, spec: Spec, status: Status)

  /** How far the one running pass has come, with the copies it works on; `at` counts the versions of the StatefulSet
      up to the one it has. */
  datatype Progress =
    | Idle
    | Begun(copy: Object)
    | SetRead(copy: Object, found: Option<StatefulSet>, at: nat)
    | SetDone(copy: Object, set_: StatefulSet, at: nat)

  /** `objects` are all versions of the SereneDB and `sets` those of the StatefulSet. `completed` are the StatefulSet
      generations, each with its template, for which a status was published while the one pod was ready and ran that
      template. `missed` says that the last patch for a complete rollout left out the version, its copy having shown
      that version already, while another one stands in the status. */
  datatype State = State(
    objects: seq<Object>, seen: nat, sets: seq<StatefulSet>, setSeen: nat, synced: Option<Synced>, pod: Option<Pod>,
    progress: Progress, completed: set<Synced>, missed: bool)
  {
    function Present(): Object
      requires objects != []
    {
      objects[|objects| - 1]
    }

    function TheSet(): StatefulSet
      requires sets != []
    {
      sets[|sets| - 1]
    }
  }

  datatype Event =
    | EditSpec(spec: Spec)
    | SyncSet
    | RecreatePod
    | LosePod
    | ProbePod(ready: bool)
    | PublishStatus(currentRevision: Template)
    | Begin(copy: nat)
    | ReadSet(copy: nat)
    | WriteSet
    | KeepSet
    | PatchStatus
    | PatchBlocked(why: string)
    | PatchError(why: string)
    | Crash

  function ImageTag(spec: Spec): string
  {
    if spec.tag != "" then spec.tag else DEFAULT_IMAGE_TAG
  }

  function PodTemplate(spec: Spec): Template
  {
    Template(ImageTag(spec), spec.pod)
  }

  predicate Says(sts: StatefulSet, spec: Spec)
  {
    sts.template == PodTemplate(spec) && sts.setOnly == spec.setOnly
  }

  predicate RolloutComplete(sts: StatefulSet)
  {
    && sts.status.observedGeneration == sts.generation
    && sts.status.readyReplicas == 1 && sts.status.updatedReplicas == 1
    && sts.status.currentRevision == sts.status.updateRevision
  }

  /** What a pass that reached the StatefulSet makes of the status in its copy. */
  function Describe(copy: Object, sts: StatefulSet): Status
  {
    var g := copy.generation;
    var seen := copy.status.(observedGeneration := g, readyReplicas := sts.status.readyReplicas);
    if RolloutComplete(sts)
    then seen.(version := ImageTag(copy.spec), conditions := Conditions(True, False, STABLE, g))
    else seen.(conditions := Conditions(False, True, ROLLING_OUT, g))
  }

  function DescribeBlocked(copy: Object, why: string): Status
  {
    copy.status.(observedGeneration := copy.generation, readyReplicas := 0,
                 conditions := Conditions(False, False, why, copy.generation))
  }

  function DescribeError(copy: Object, why: string): Status
  {
    copy.status.(observedGeneration := copy.generation, conditions := Conditions(False, True, why, copy.generation))
  }

  /** A merge patch: what the pass changed of its copy, and the present values of the rest. The conditions are one list,
      which a merge patch replaces as a whole. */
  function Merged(present: Status, copy: Status, status: Status): Status
  {
    Status(
      if status.observedGeneration != copy.observedGeneration
      then status.observedGeneration else present.observedGeneration,
      if status.conditions != copy.conditions then status.conditions else present.conditions,
      if status.readyReplicas != copy.readyReplicas then status.readyReplicas else present.readyReplicas,
      if status.version != copy.version then status.version else present.version)
  }

  predicate External(e: Event)
  {
    e.EditSpec? || e.SyncSet? || e.RecreatePod? || e.LosePod? || e.ProbePod? || e.PublishStatus?
  }

  predicate Enabled(s: State, e: Event)
  {
    match e
    case EditSpec(_) => true
    case SyncSet => s.sets != []
    case RecreatePod => s.synced.Some?
    case LosePod => s.pod.Some?
    case ProbePod(_) => s.pod.Some?
    case PublishStatus(_) => s.sets != [] && s.synced.Some?
    case Begin(v) => s.progress.Idle? && s.seen <= v < |s.objects|
    case ReadSet(v) => s.progress.Begun? && s.setSeen <= v <= |s.sets|
    // A create is refused when there is one, an update when the copy was not the present version.
    case WriteSet =>
      && s.progress.SetRead?
      && if s.progress.found.None? then s.sets == []
         else !Says(s.progress.found.value, s.progress.copy.spec) && s.progress.at == |s.sets|
    // An update is sent even when the copy says what the spec asks for, since the API server has filled in what the
    // builder leaves unset; it changes nothing, and over an old copy it is refused as well.
    case KeepSet =>
      && s.progress.SetRead? && s.progress.found.Some? && Says(s.progress.found.value, s.progress.copy.spec)
      && s.progress.at == |s.sets|
    case PatchStatus => s.progress.SetDone? && s.objects != []
    case PatchBlocked(_) => !s.progress.Idle? && s.objects != []
    case PatchError(_) => !s.progress.Idle? && s.objects != []
    case Crash => !s.progress.Idle?
  }

  function Step(s: State, e: Event): State
  {
    if !Enabled(s, e) then s else
    match e
    case EditSpec(spec) => Edited(s, spec)
    case SyncSet => s.(synced := Some(Synced(s.TheSet().generation, s.TheSet().template)))
    case RecreatePod => s.(pod := Some(Pod(s.synced.value.template, false)))
    case LosePod => s.(pod := None)
    case ProbePod(ready) => s.(pod := Some(s.pod.value.(ready := ready)))
    case PublishStatus(current) => Published(s, current)
    case Begin(v) => s.(seen := v, progress := Begun(s.objects[v]))
    case ReadSet(v) =>
      s.(setSeen := v,
         progress := SetRead(s.progress.copy, if v == 0 then None else Some(s.sets[v - 1]), v))
    case WriteSet =>
      var written := Written(s.progress.found, s.progress.copy.spec);
      s.(sets := s.sets + [written], progress := SetDone(s.progress.copy, written, |s.sets| + 1))
    case KeepSet => s.(progress := SetDone(s.progress.copy, s.progress.found.value, s.progress.at))
    case PatchStatus => Reported(s)
    case PatchBlocked(why) => Patched(s, DescribeBlocked(s.progress.copy, why))
    case PatchError(why) => Patched(s, DescribeError(s.progress.copy, why))
    case Crash => s.(progress := Idle)
  }

  function Edited(s: State, spec: Spec): State
  {
    s.(objects := s.objects + [if s.objects == [] then Object(1, spec, NEW)
                               else s.Present().(generation := s.Present().generation + 1, spec := spec)])
  }

  /** A change of the StatefulSet's spec raises its generation and leaves its status behind. */
  function Written(found: Option<StatefulSet>, spec: Spec): StatefulSet
  {
    var template := PodTemplate(spec);
    match found
    case None => StatefulSet(1, template, spec.setOnly, SetStatus(0, 0, 0, template, template))
    case Some(sts) => sts.(generation := sts.generation + 1, template := template, setOnly := spec.setOnly)
  }

  function Published(s: State, currentRevision: Template): State
    requires s.sets != [] && s.synced.Some?
  {
    var Synced(generation, template) := s.synced.value;
    var ready := if s.pod.Some? && s.pod.value.ready then 1 else 0;
    var updated := if s.pod.Some? && s.pod.value.template == template then 1 else 0;
    s.(sets := s.sets + [s.TheSet().(status := SetStatus(generation, ready, updated, currentRevision, template))],
       completed := if ready == 1 && updated == 1 then s.completed + {s.synced.value} else s.completed)
  }

  function Patched(s: State, status: Status): State
    requires !s.progress.Idle? && s.objects != []
  {
    var merged := Merged(s.Present().status, s.progress.copy.status, status);
    s.(objects := s.objects + [s.Present().(status := merged)], progress := Idle)
  }

  function Reported(s: State): State
    requires s.progress.SetDone? && s.objects != []
  {
    var p := s.progress;
    var status := Describe(p.copy, p.set_);
    Patched(s, status)
    .(missed := if RolloutComplete(p.set_) then LeavesOutVersion(s) else s.missed)
  }

  /** The copy shows the version that the rollout brought, the status now shows another. */
  predicate LeavesOutVersion(s: State)
    requires s.progress.SetDone? && s.objects != []
  {
    s.progress.copy.status.version == ImageTag(s.progress.copy.spec) != s.Present().status.version
  }

  const NEW := Status(0, Conditions(Unknown, Unknown, "", 0), 0, "")
  const EMPTY := State([], 0, [], 0, None, None, Idle, {}, false)
  const PROTOCOL: Machine<State, Event> := Machine(EMPTY, Enabled, Step, External)

  /** Ready for the present spec. */
  predicate Ready(s: State)
  {
    && s.objects != [] && s.Present().status.conditions.ready.True?
    && s.Present().status.observedGeneration == s.Present().generation
  }

  /** The StatefulSet says what `spec` asks for, a ready pod was published for this very StatefulSet generation, and no
      pod runs anything else. */
  predicate Serving(s: State, spec: Spec)
  {
    && s.sets != [] && Says(s.TheSet(), spec)
    && Synced(s.TheSet().generation, s.TheSet().template) in s.completed
    && (s.pod.Some? ==> s.pod.value.template == s.TheSet().template)
  }

  // What every step keeps.

  predicate Ordered(a: Object, b: Object)
  {
    && a.generation <= b.generation && a.status.observedGeneration <= b.status.observedGeneration
    && (a.generation == b.generation ==> a.spec == b.spec)
  }

  predicate ObjectsInv(s: State)
  {
    && (forall k | 0 <= k < |s.objects| ::
          var o := s.objects[k];
          o.status.conditions.generation == o.status.observedGeneration <= o.generation && 0 < o.generation)
    && (forall j, k | 0 <= j <= k < |s.objects| :: Ordered(s.objects[j], s.objects[k]))
    && (if s.objects == [] then s.seen == 0
        else s.seen < |s.objects| && s.Present().status.observedGeneration <= s.objects[s.seen].generation)
    && (!s.progress.Idle? ==> s.objects != [] && s.progress.copy == s.objects[s.seen])
  }

  /** What the counters of a version of the StatefulSet tell once they belong to its own generation. */
  predicate CountersTell(s: State, sts: StatefulSet)
    requires s.sets != []
  {
    sts.status.observedGeneration == sts.generation ==>
      && (sts.generation == s.TheSet().generation ==> s.synced == Some(Synced(sts.generation, sts.template)))
      && (sts.status.readyReplicas == 1 && sts.status.updatedReplicas == 1 ==>
            && Synced(sts.generation, sts.template) in s.completed
            && (sts.generation == s.TheSet().generation && s.pod.Some? ==> s.pod.value.template == sts.template))
  }

  predicate Older(a: StatefulSet, b: StatefulSet)
  {
    a.generation <= b.generation
    && (a.generation == b.generation ==> a.template == b.template && a.setOnly == b.setOnly)
  }

  predicate SyncedInv(s: State)
  {
    s.synced.Some? ==>
      && s.sets != [] && s.synced.value.generation <= s.TheSet().generation
      && (s.synced.value.generation == s.TheSet().generation ==> s.synced.value.template == s.TheSet().template)
  }

  predicate SetInv(s: State)
  {
    && s.setSeen <= |s.sets| && SyncedInv(s)
    && (forall k | 0 <= k < |s.sets| ::
          && 0 < s.sets[k].generation && Older(s.sets[k], s.TheSet()) && CountersTell(s, s.sets[k])
          && s.sets[k].status.observedGeneration <= (if s.synced.Some? then s.synced.value.generation else 0))
  }

  predicate ProgressInv(s: State)
  {
    match s.progress
    case SetRead(_, found, at) => at <= |s.sets| && found == if at == 0 then None else Some(s.sets[at - 1])
    case SetDone(copy, sts, at) =>
      && 0 < at <= |s.sets| && sts == s.sets[at - 1] && Says(sts, copy.spec)
      && sts.generation == s.TheSet().generation
    case _ => true
  }

  predicate ReadyInv(s: State)
  {
    Ready(s) ==>
      && Serving(s, s.Present().spec) && s.synced == Some(Synced(s.TheSet().generation, s.TheSet().template))
      && (s.Present().status.version == ImageTag(s.Present().spec) <==> !s.missed)
  }

  predicate VersionInv(s: State)
  {
    s.objects != [] && s.Present().status.version != "" ==>
      exists c :: c in s.completed && c.template.tag == s.Present().status.version
  }

  predicate Inv(s: State)
  {
    ObjectsInv(s) && SetInv(s) && ProgressInv(s) && ReadyInv(s) && VersionInv(s)
  }

  lemma InvStep(s: State, e: Event)
    requires Inv(s) && Enabled(s, e)
    ensures Inv(Step(s, e))
  {
    match e {
      case EditSpec(spec) => EditStep(s, spec);
      case SyncSet => PodStep(s, e);
      case RecreatePod => PodStep(s, e);
      case LosePod => PodStep(s, e);
      case ProbePod(_) => PodStep(s, e);
      case PublishStatus(current) => PublishStep(s, current);
      case WriteSet => WriteStep(s);
      case PatchStatus => ReportStep(s);
      case PatchBlocked(why) => FailureStep(s, DescribeBlocked(s.progress.copy, why));
      case PatchError(why) => FailureStep(s, DescribeError(s.progress.copy, why));
      case _ => ReadStep(s, e);
    }
  }

  lemma EditStep(s: State, spec: Spec)
    requires Inv(s)
    ensures Inv(Edited(s, spec))
  {
    NewObject(s, Edited(s, spec));
    SameSets(s, Edited(s, spec));
  }

  /** Nothing about the StatefulSet and the pod changes, nor the pass unless it ends. */
  lemma SameSets(s: State, s': State)
    requires SetInv(s) && ProgressInv(s) && s'.sets == s.sets && s'.setSeen == s.setSeen && s'.synced == s.synced
    requires s'.pod == s.pod && s'.completed == s.completed && (s'.progress == s.progress || s'.progress.Idle?)
    ensures SetInv(s') && ProgressInv(s')
  {
  }

  lemma SameObjects(s: State, s': State)
    requires ObjectsInv(s) && s'.objects == s.objects
    requires if s'.progress.Begun? then s.seen <= s'.seen < |s.objects| && s'.progress.copy == s.objects[s'.seen]
             else s'.seen == s.seen
                  && (s'.progress.Idle? || (!s.progress.Idle? && s'.progress.copy == s.progress.copy))
    ensures ObjectsInv(s')
  {
  }

  /** The next version of the SereneDB. */
  lemma NewObject(s: State, s': State)
    requires ObjectsInv(s) && |s'.objects| == |s.objects| + 1 && s'.objects[..|s.objects|] == s.objects
    requires s'.seen == s.seen && (s'.progress == s.progress || s'.progress.Idle?)
    requires var o := s'.Present();
             && o.status.conditions.generation == o.status.observedGeneration <= o.generation && 0 < o.generation
             && (if s.objects == [] then s.seen == 0 && o.status.observedGeneration == 0
                 else Ordered(s.Present(), o) && o.status.observedGeneration <= s.objects[s.seen].generation)
    ensures ObjectsInv(s')
  {
    forall j, k | 0 <= j <= k < |s'.objects| ensures Ordered(s'.objects[j], s'.objects[k]) {
      if k == |s.objects| && j < k {
        assert Ordered(s.objects[j], s.Present());
      }
    }
  }

  lemma PodStep(s: State, e: Event)
    requires Inv(s) && Enabled(s, e) && (e.SyncSet? || e.RecreatePod? || e.LosePod? || e.ProbePod?)
    ensures Inv(Step(s, e))
  {
    PodKeepsSets(s, e);
    SameObjects(s, Step(s, e));
  }

  lemma PodKeepsSets(s: State, e: Event)
    requires SetInv(s) && ProgressInv(s) && Enabled(s, e)
    requires e.SyncSet? || e.RecreatePod? || e.LosePod? || e.ProbePod?
    ensures SetInv(Step(s, e)) && ProgressInv(Step(s, e))
  {
  }

  lemma PublishStep(s: State, current: Template)
    requires Inv(s) && s.sets != [] && s.synced.Some?
    ensures Inv(Published(s, current))
  {
    PublishKeepsSets(s, current);
    SameObjects(s, Published(s, current));
  }

  lemma PublishKeepsSets(s: State, current: Template)
    requires SetInv(s) && ProgressInv(s) && s.sets != [] && s.synced.Some?
    ensures SetInv(Published(s, current)) && ProgressInv(Published(s, current))
  {
  }

  lemma ReadStep(s: State, e: Event)
    requires Inv(s) && Enabled(s, e) && (e.Begin? || e.ReadSet? || e.KeepSet? || e.Crash?)
    ensures Inv(Step(s, e))
  {
    SameObjects(s, Step(s, e));
    ReadKeepsSets(s, e);
    SameReady(s, Step(s, e));
  }

  lemma SameReady(s: State, s': State)
    requires ReadyInv(s) && VersionInv(s)
    requires s' == s.(seen := s'.seen, setSeen := s'.setSeen, progress := s'.progress)
    ensures ReadyInv(s') && VersionInv(s')
  {
  }

  lemma ReadKeepsSets(s: State, e: Event)
    requires SetInv(s) && ProgressInv(s) && Enabled(s, e) && (e.Begin? || e.ReadSet? || e.KeepSet? || e.Crash?)
    ensures SetInv(Step(s, e)) && ProgressInv(Step(s, e))
  {
  }

  lemma WriteStep(s: State)
    requires Inv(s) && Enabled(s, WriteSet)
    ensures Inv(Step(s, WriteSet))
  {
    SameObjects(s, Step(s, WriteSet));
    WriteKeepsSets(s);
    assert Ordered(s.progress.copy, s.Present());
  }

  lemma WriteKeepsSets(s: State)
    requires SetInv(s) && ProgressInv(s) && Enabled(s, WriteSet)
    ensures SetInv(Step(s, WriteSet)) && ProgressInv(Step(s, WriteSet))
  {
  }

  /** A pass leaves the generation of its copy on record, and the conditions with it. */
  lemma PatchObserves(s: State, status: Status)
    requires ObjectsInv(s) && !s.progress.Idle? && status.observedGeneration == s.progress.copy.generation
    requires status.conditions.generation == s.progress.copy.generation
    ensures var o := Patched(s, status).Present();
            && o.status.observedGeneration == o.status.conditions.generation == s.progress.copy.generation
            && Ordered(s.Present(), o)
    ensures ObjectsInv(Patched(s, status))
  {
    assert Ordered(s.progress.copy, s.Present());
    NewObject(s, Patched(s, status));
  }

  lemma FailureStep(s: State, status: Status)
    requires Inv(s) && !s.progress.Idle? && status.observedGeneration == s.progress.copy.generation
    requires status.conditions.generation == s.progress.copy.generation && status.conditions.ready.False?
    requires status.version == s.progress.copy.status.version
    ensures Inv(Patched(s, status))
  {
    PatchObserves(s, status);
    SameSets(s, Patched(s, status));
  }

  lemma ReportStep(s: State)
    requires Inv(s) && Enabled(s, PatchStatus)
    ensures Inv(Reported(s))
  {
    PatchObserves(s, Describe(s.progress.copy, s.progress.set_));
    SameSets(s, Reported(s));
    ReadyReported(s);
  }

  lemma ReadyReported(s: State)
    requires Inv(s) && Enabled(s, PatchStatus)
    requires var o := Reported(s).Present().status;
             o.observedGeneration == o.conditions.generation == s.progress.copy.generation
    ensures ReadyInv(Reported(s)) && VersionInv(Reported(s))
  {
    assert Ordered(s.progress.copy, s.Present());
    assert CountersTell(s, s.progress.set_);
    assert Older(s.progress.set_, s.TheSet());
  }

  lemma InvAlways(run: Run<State, Event>, i: nat)
    requires run.Of(PROTOCOL) && i < |run.states|
    ensures Inv(run.states[i])
  {
    forall s, e | Inv(s) && Enabled(s, e) ensures Inv(Step(s, e)) {
      InvStep(s, e);
    }
    Invariance(PROTOCOL, Inv, run, i);
  }

  /** At every moment of every run, however old the copies that passes work on: Ready for the present spec means that
      this spec is what the pod runs. */
  lemma ReadyMeansServing(run: Run<State, Event>, i: nat)
    requires run.Of(PROTOCOL) && i < |run.states|
    ensures Ready(run.states[i]) ==> Serving(run.states[i], run.states[i].Present().spec)
  {
    InvAlways(run, i);
  }

  /** At every moment of every run: with Ready for the present spec, `version` is the tag of that spec if and only if
      the patch for the rollout did not leave it out. */
  lemma VersionExactlyWhen(run: Run<State, Event>, i: nat)
    requires run.Of(PROTOCOL) && i < |run.states| && Ready(run.states[i])
    ensures var s := run.states[i]; s.Present().status.version == ImageTag(s.Present().spec) <==> !s.missed
  {
    InvAlways(run, i);
  }

  /** The version is left out only by a pass over an old copy of the SereneDB. */
  lemma OnlyOldCopiesMiss(run: Run<State, Event>, i: nat)
    requires run.Of(PROTOCOL) && i < |run.events| && !run.states[i].missed && run.states[i + 1].missed
    ensures run.events[i].PatchStatus? && run.states[i].objects != []
    ensures run.states[i].seen + 1 < |run.states[i].objects|
  {
    InvAlways(run, i);
    assert Enabled(run.states[i], run.events[i]);
  }

  /** Whatever a pass works on, it turns Ready on or moves `version` only while the spec of its copy is served; every
      other event leaves both alone, and a version once shown belonged to a pod that was ready. */
  lemma VersionWaitsForRollout(run: Run<State, Event>, i: nat)
    requires run.Of(PROTOCOL) && i < |run.events| && run.states[i].objects != []
    ensures var s, s' := run.states[i], run.states[i + 1];
            && s'.objects != []
            && (Turns(s, s') ==>
                  run.events[i].PatchStatus? && s.progress.SetDone? && Serving(s, s.progress.copy.spec))
            && (s'.Present().status.version != "" ==>
                  exists c :: c in s'.completed && c.template.tag == s'.Present().status.version)
  {
    InvAlways(run, i);
    InvAlways(run, i + 1);
    OnlyReportsTurn(run.states[i], run.events[i]);
  }

  predicate Turns(s: State, s': State)
    requires s.objects != [] && s'.objects != []
  {
    || s'.Present().status.version != s.Present().status.version
    || (s'.Present().status.conditions.ready.True? && !s.Present().status.conditions.ready.True?)
  }

  lemma OnlyReportsTurn(s: State, e: Event)
    requires Inv(s) && Enabled(s, e) && s.objects != []
    ensures Step(s, e).objects != []
    ensures Turns(s, Step(s, e)) ==> e.PatchStatus? && s.progress.SetDone? && Serving(s, s.progress.copy.spec)
  {
    match e {
      case EditSpec(_) =>
      case PatchStatus => assert CountersTell(s, s.sets[s.progress.at - 1]);
      case PatchBlocked(_) =>
      case PatchError(_) =>
      case _ => assert Step(s, e).objects == s.objects;
    }
  }

  // What an undisturbed pass reports.

  /** A pass up to the StatefulSet, which it finds as wanted. */
  lemma Kept(run: Run<State, Event>, c: nat) returns (later: Run<State, Event>)
    requires run.Of(PROTOCOL) && run.Last().progress.Idle? && run.Last().seen <= c < |run.Last().objects|
    requires run.Last().sets != [] && run.Last().setSeen <= |run.Last().sets|
    requires Says(run.Last().TheSet(), run.Last().objects[c].spec)
    ensures run.events < later.events && later.Of(PROTOCOL)
    ensures forall k | |run.events| <= k < |later.events| :: !External(later.events[k])
    ensures var t := run.Last();
            later.Last() == t.(seen := c, setSeen := |t.sets|, progress := SetDone(t.objects[c], t.TheSet(), |t.sets|))
  {
    later := ReadBoth(run, c);
    later := Prolong(PROTOCOL, later, KeepSet);
    assert later.events == run.events + [Begin(c), ReadSet(|run.Last().sets|), KeepSet];
  }

  /** A pass up to the StatefulSet, which it writes. */
  lemma Rewritten(run: Run<State, Event>, c: nat) returns (later: Run<State, Event>)
    requires run.Of(PROTOCOL) && run.Last().progress.Idle? && run.Last().seen <= c < |run.Last().objects|
    requires run.Last().setSeen <= |run.Last().sets|
    requires run.Last().sets != [] ==> !Says(run.Last().TheSet(), run.Last().objects[c].spec)
    ensures run.events < later.events && later.Of(PROTOCOL)
    ensures forall k | |run.events| <= k < |later.events| :: !External(later.events[k])
    ensures var t := run.Last();
            var written := Written(Found(t), t.objects[c].spec);
            later.Last() == t.(seen := c, setSeen := |t.sets|, sets := t.sets + [written],
                               progress := SetDone(t.objects[c], written, |t.sets| + 1))
  {
    later := ReadBoth(run, c);
    later := Prolong(PROTOCOL, later, WriteSet);
    assert later.events == run.events + [Begin(c), ReadSet(|run.Last().sets|), WriteSet];
  }

  lemma ReadBoth(run: Run<State, Event>, c: nat) returns (later: Run<State, Event>)
    requires run.Of(PROTOCOL) && run.Last().progress.Idle? && run.Last().seen <= c < |run.Last().objects|
    requires run.Last().setSeen <= |run.Last().sets|
    ensures later.Of(PROTOCOL) && later.events == run.events + [Begin(c), ReadSet(|run.Last().sets|)]
    ensures var t := run.Last();
            later.Last() == t.(seen := c, setSeen := |t.sets|, progress := SetRead(t.objects[c], Found(t), |t.sets|))
  {
    later := Prolong(PROTOCOL, run, Begin(c));
    later := Prolong(PROTOCOL, later, ReadSet(|run.Last().sets|));
  }

  function Found(s: State): Option<StatefulSet>
  {
    if s.sets == [] then None else Some(s.TheSet())
  }

  lemma Patch(run: Run<State, Event>) returns (later: Run<State, Event>)
    requires run.Of(PROTOCOL) && run.Last().progress.SetDone? && run.Last().objects != []
    ensures later.Of(PROTOCOL) && later.events == run.events + [PatchStatus] && later.Last() == Reported(run.Last())
  {
    later := Prolong(PROTOCOL, run, PatchStatus);
  }

  /** From any idle state, a pass that reads the latest versions and that nothing disturbs ends with Ready for the
      present spec exactly when the StatefulSet already said what that spec asks for and its rollout was complete. */
  lemma PassReportsReadyExactlyWhen(run: Run<State, Event>) returns (later: Run<State, Event>)
    requires run.Of(PROTOCOL) && run.Last().progress.Idle? && run.Last().objects != []
    ensures later.Of(PROTOCOL) && run.events < later.events && later.Last().progress.Idle?
    ensures forall k | |run.events| <= k < |later.events| :: !External(later.events[k])
    ensures var s := run.Last();
            Ready(later.Last()) <==> s.sets != [] && Says(s.TheSet(), s.Present().spec) && RolloutComplete(s.TheSet())
  {
    InvAlways(run, |run.events|);
    later := Sent(run);
    ReportsWhatItHas(later.Last());
    later := Patch(later);
  }

  lemma Sent(run: Run<State, Event>) returns (later: Run<State, Event>)
    requires run.Of(PROTOCOL) && run.Last().progress.Idle? && run.Last().objects != [] && Inv(run.Last())
    ensures later.Of(PROTOCOL) && run.events < later.events
    ensures forall k | |run.events| <= k < |later.events| :: !External(later.events[k])
    ensures var s, s' := run.Last(), later.Last();
            && s'.progress.SetDone? && s'.objects == s.objects && s'.progress.copy == s.Present()
            && (RolloutComplete(s'.progress.set_)
                <==> s.sets != [] && Says(s.TheSet(), s.Present().spec) && RolloutComplete(s.TheSet()))
  {
    var s := run.Last();
    if s.sets != [] && Says(s.TheSet(), s.Present().spec) {
      later := Kept(run, |s.objects| - 1);
    } else {
      later := Rewritten(run, |s.objects| - 1);
      WrittenIsIncomplete(s, s.Present().spec);
    }
  }

  lemma WrittenIsIncomplete(s: State, spec: Spec)
    requires SetInv(s)
    ensures !RolloutComplete(Written(Found(s), spec))
  {
    if s.sets != [] {
      assert s.sets[|s.sets| - 1].status.observedGeneration <= s.TheSet().generation;
    }
  }

  /** Over the present copy the patch leaves nothing out. */
  lemma ReportsWhatItHas(s: State)
    requires s.progress.SetDone? && s.objects != [] && s.progress.copy == s.Present()
    ensures Reported(s).Present().status == Describe(s.Present(), s.progress.set_)
    ensures Ready(Reported(s)) <==> RolloutComplete(s.progress.set_)
  {
  }

  /** In every run a StatefulSet generation counts as completed only by a published status, while the one pod was ready
      and ran that generation's template as its controller had seen it. */
  lemma CompletedOnlyWhileReady(run: Run<State, Event>, i: nat, c: Synced)
    requires run.Of(PROTOCOL) && i < |run.events|
    requires c !in run.states[i].completed && c in run.states[i + 1].completed
    ensures var s := run.states[i];
            run.events[i].PublishStatus? && s.synced == Some(c) && s.pod == Some(Pod(c.template, true))
  {
    assert Enabled(run.states[i], run.events[i]);
    CompletedBy(run.states[i], run.events[i], c);
  }

  lemma CompletedBy(s: State, e: Event, c: Synced)
    requires Enabled(s, e) && c !in s.completed && c in Step(s, e).completed
    ensures e.PublishStatus? && s.synced == Some(c) && s.pod == Some(Pod(c.template, true))
  {
  }

  // What a status says, field by field.

  /** After a pass that has `sts`: the counters as they are, Ready and Progressing by what they say, and the tag of the
      spec, or the default one, once the rollout is complete. */
  predicate ShowsCounters(after: Status, before: Object, sts: StatefulSet)
  {
    var complete := sts.status.observedGeneration == sts.generation && sts.status.readyReplicas == 1
                    && sts.status.updatedReplicas == 1 && sts.status.currentRevision == sts.status.updateRevision;
    && after.observedGeneration == after.conditions.generation == before.generation
    && after.readyReplicas == sts.status.readyReplicas
    && after.conditions.ready == (if complete then True else False)
    && after.conditions.progressing == (if complete then False else True)
    && after.version == if !complete then before.status.version
                        else if before.spec.tag == "" then "26.09.2" else before.spec.tag
  }

  /** After a pass that waits for the user. */
  predicate ShowsBlocked(after: Status, before: Object, why: string)
  {
    && after.observedGeneration == after.conditions.generation == before.generation
    && after.readyReplicas == 0 && after.version == before.status.version
    && after.conditions.ready == False && after.conditions.progressing == False && after.conditions.why == why
  }

  /** After a pass that failed. */
  predicate ShowsError(after: Status, before: Object, why: string)
  {
    && after.observedGeneration == after.conditions.generation == before.generation
    && after.readyReplicas == before.status.readyReplicas && after.version == before.status.version
    && after.conditions.ready == False && after.conditions.progressing == True && after.conditions.why == why
  }

  /** In every run, each patch of a pass over the present copy leaves exactly what the pass found; a pass over an old
      one leaves of that, field by field, what differs from its copy. */
  lemma PatchesShowWhatWasFound(run: Run<State, Event>, i: nat)
    requires run.Of(PROTOCOL) && i < |run.events| && run.states[i].objects != [] && !run.states[i].progress.Idle?
    requires run.states[i].progress.copy == run.states[i].Present()
    ensures run.states[i + 1].objects != []
    ensures var before, after := run.states[i].Present(), run.states[i + 1].Present().status;
            match run.events[i]
            case PatchStatus =>
              run.states[i].progress.SetDone? && ShowsCounters(after, before, run.states[i].progress.set_)
            case PatchBlocked(why) => ShowsBlocked(after, before, why)
            case PatchError(why) => ShowsError(after, before, why)
            case _ => after == before.status
  {
    var s, e := run.states[i], run.events[i];
    assert Enabled(s, e);
    match e {
      case PatchStatus => ShowsWhatItHas(s.Present(), s.progress.set_);
      case _ =>
    }
  }

  lemma ShowsWhatItHas(o: Object, sts: StatefulSet)
    ensures ShowsCounters(Merged(o.status, o.status, Describe(o, sts)), o, sts)
  {
  }

  /** A patch carries what differs and no more: nothing changed leaves the present status, over the present one it gives
      the new one, and one changed field is set without touching the others. */
  lemma MergeLaws(present: Status, copy: Status, status: Status)
    ensures Merged(present, copy, copy) == present && Merged(copy, copy, status) == status
    ensures var s := copy.(conditions := status.conditions);
            s != copy ==> Merged(present, copy, s) == present.(conditions := status.conditions)
    ensures var s := copy.(version := status.version);
            s != copy ==> Merged(present, copy, s) == present.(version := status.version)
    ensures var s := copy.(readyReplicas := status.readyReplicas);
            s != copy ==> Merged(present, copy, s) == present.(readyReplicas := status.readyReplicas)
    ensures var s := copy.(observedGeneration := status.observedGeneration);
            s != copy ==> Merged(present, copy, s) == present.(observedGeneration := status.observedGeneration)
  {
  }

  // Runs.

  /** A pass that writes the StatefulSet and gets no further. */
  lemma WritePass(run: Run<State, Event>, c: nat) returns (later: Run<State, Event>)
    requires run.Of(PROTOCOL) && run.Last().progress.Idle? && run.Last().seen <= c < |run.Last().objects|
    requires run.Last().setSeen <= |run.Last().sets|
    requires run.Last().sets != [] ==> !Says(run.Last().TheSet(), run.Last().objects[c].spec)
    ensures later.Of(PROTOCOL)
    ensures var s := run.Last();
            later.Last() == s.(seen := c, setSeen := |s.sets|,
                               sets := s.sets + [Written(Found(s), s.objects[c].spec)])
  {
    later := Rewritten(run, c);
    later := Prolong(PROTOCOL, later, Crash);
  }

  function Rolled(sts: StatefulSet): StatefulSet
  {
    sts.(status := SetStatus(sts.generation, 1, 1, sts.template, sts.template))
  }

  /** The rollout completes and is published. */
  lemma RollOut(run: Run<State, Event>) returns (later: Run<State, Event>)
    requires run.Of(PROTOCOL) && run.Last().sets != []
    ensures later.Of(PROTOCOL)
    ensures var s := run.Last();
            later.Last() == s.(sets := s.sets + [Rolled(s.TheSet())], synced := later.Last().synced,
                               pod := later.Last().pod, completed := later.Last().completed)
  {
    later := Prolong(PROTOCOL, run, SyncSet);
    later := Prolong(PROTOCOL, later, RecreatePod);
    later := Prolong(PROTOCOL, later, ProbePod(true));
    later := Prolong(PROTOCOL, later, PublishStatus(run.Last().TheSet().template));
  }

  const BEFORE := Spec("a", "", "")
  const AFTER := Spec("b", "", "")

  function FirstSet(): StatefulSet
  {
    Written(None, BEFORE)
  }

  lemma FirstRollout() returns (run: Run<State, Event>)
    ensures run.Of(PROTOCOL)
    ensures var s := run.Last();
            && s.objects == [Object(1, BEFORE, NEW)] && s.seen == 0 && s.progress.Idle? && s.setSeen == 0
            && s.sets == [FirstSet(), Rolled(FirstSet())]
  {
    run := Run([EMPTY], []);
    run := Prolong(PROTOCOL, run, EditSpec(BEFORE));
    run := WritePass(run, 0);
    run := RollOut(run);
  }

  /** The status once the spec's rollout is complete. */
  function ReadyStatus(generation: nat, version: string): Status
  {
    Status(generation, Conditions(True, False, STABLE, generation), 1, version)
  }

  /** After the first rollout the spec is edited, and that is rolled out as well; while the pass that finds it complete
      is running, the spec is edited back. */
  lemma EditedBack() returns (run: Run<State, Event>)
    ensures run.Of(PROTOCOL)
    ensures var s := run.Last();
            && s.progress.Idle? && |s.objects| == 5 && s.seen == 2 && |s.sets| == 4 && s.setSeen == 4
            && s.objects[3] == Object(3, BEFORE, ReadyStatus(1, "a")) && s.TheSet().template == PodTemplate(AFTER)
            && s.Present() == Object(3, BEFORE, ReadyStatus(2, "b"))
  {
    run := SecondRollout();
    run := Kept(run, 2);
    run := Prolong(PROTOCOL, run, EditSpec(BEFORE));
    run := Patch(run);
  }

  lemma SecondRollout() returns (run: Run<State, Event>)
    ensures run.Of(PROTOCOL)
    ensures var s := run.Last();
            && s.progress.Idle? && |s.objects| == 3 && s.seen == 2 && |s.sets| == 4 && s.setSeen <= 4
            && s.Present() == Object(2, AFTER, ReadyStatus(1, "a"))
            && Says(s.TheSet(), AFTER) && s.TheSet() == Rolled(s.TheSet())
  {
    run := FirstRollout();
    run := Kept(run, 0);
    run := Patch(run);
    assert run.Last().Present() == Object(1, BEFORE, ReadyStatus(1, "a"));
    run := Prolong(PROTOCOL, run, EditSpec(AFTER));
    run := WritePass(run, 2);
    run := RollOut(run);
  }

  /** Ready for the present spec with the version of the one before: two passes work on the copy from before the last
      patch, which shows the version that the rollout brings back, so that their patch leaves it out. */
  lemma OldStatusKeepsVersion() returns (run: Run<State, Event>)
    ensures run.Of(PROTOCOL) && Ready(run.Last()) && run.Last().missed
    ensures run.Last().Present().spec.tag == "a" && run.Last().Present().status.version == "b"
  {
    run := EditedBack();
    run := WritePass(run, 3);
    run := RollOut(run);
    run := Kept(run, 3);
    run := Patch(run);
  }

  // The code.

  datatype Outcome = Ok | Blocked | Error

  /** The state that the last event of the history of `w` acted on. */
  ghost function Before(w: World<State, Event>): State
    requires w.Runs(PROTOCOL) && w.run.events != []
    reads w`run, w`state
  {
    w.run.states[|w.run.events| - 1]
  }

  ghost predicate EndsWith(w: World<State, Event>, e: Event)
    reads w`run, w`state
  {
    w.run.events != [] && w.run.events[|w.run.events| - 1] == e
  }

  /** What the last event wrote is the patch that turns `copy` into `status`. */
  ghost predicate Wrote(w: World<State, Event>, copy: Object, status: Status)
    requires w.Runs(PROTOCOL) && w.run.events != []
    reads w`run, w`state
  {
    && Before(w).objects != [] && w.state.objects != []
    && w.state.Present().status == Merged(Before(w).Present().status, copy.status, status)
    && w.state.Present().spec == Before(w).Present().spec
  }

  /** One pass over version `v` of the SereneDB, if the cache shows it. On success its status was patched with what
      the StatefulSet says that the pass wrote or found as wanted. */
  method Reconcile(w: World<State, Event>, v: nat)
    returns (outcome: Outcome, found: bool, copy: Object, sts: StatefulSet)
    requires w.Runs(PROTOCOL) && w.state.progress.Idle?
    modifies w
    ensures w.Runs(PROTOCOL) && w.run.Continues(old(w.run)) && w.state.progress.Idle?
    ensures found <==> old(w.state).seen <= v < |old(w.state).objects|
    ensures found ==> old(w.run.events) < w.run.events && copy == old(w.state).objects[v]
    ensures !found ==> outcome.Ok? && w.state == old(w.state)
    ensures found && outcome.Ok? ==> Says(sts, copy.spec) && Wrote(w, copy, Describe(copy, sts))
    ensures found && outcome.Ok? && copy == Before(w).Present() ==> ShowsCounters(w.state.Present().status, copy, sts)
    ensures found && outcome.Blocked? ==> exists why :: Wrote(w, copy, DescribeBlocked(copy, why))
    ensures !outcome.Ok? ==> w.faults > old(w.faults) || (w.run.events != [] && Outdated(Before(w)))
    ensures Ready(w.state) ==> Serving(w.state, w.state.Present().spec)
  {
    copy, sts, outcome, found := Object(0, BEFORE, NEW), Written(None, BEFORE), Ok, false;
    if w.state.seen <= v < |w.state.objects| {
      found, copy := true, w.state.objects[v];
      outcome, sts := Work(w, v);
    }
    ReadyMeansServing(w.run, |w.run.events|);
  }

  method Work(w: World<State, Event>, v: nat) returns (outcome: Outcome, sts: StatefulSet)
    requires w.Runs(PROTOCOL) && w.state.progress.Idle? && w.state.seen <= v < |w.state.objects|
    modifies w
    ensures w.Runs(PROTOCOL) && old(w.run.events) < w.run.events && w.state.progress.Idle?
    ensures var copy := old(w.state).objects[v];
            && (outcome.Ok? ==> Says(sts, copy.spec) && Wrote(w, copy, Describe(copy, sts)))
            && (outcome.Ok? && copy == Before(w).Present() ==> ShowsCounters(w.state.Present().status, copy, sts))
            && (outcome.Blocked? ==> exists why :: Wrote(w, copy, DescribeBlocked(copy, why)))
    ensures !outcome.Ok? ==> w.faults > old(w.faults) || (w.run.events != [] && Outdated(Before(w)))
  {
    var copy := w.state.objects[v];
    w.Do(Begin(v));
    outcome, sts := ReconcileResources(w, copy);
    outcome := ReportStatus(w, outcome, copy, sts);
    ShowsWhatItHas(copy, sts);
  }

  method ReportStatus(w: World<State, Event>, result: Outcome, copy: Object, sts: StatefulSet)
    returns (outcome: Outcome)
    requires w.Runs(PROTOCOL) && !w.state.progress.Idle? && w.state.progress.copy == copy && w.state.objects != []
    requires result.Ok? ==> w.state.progress.SetDone? && w.state.progress.set_ == sts
    modifies w
    ensures w.Runs(PROTOCOL) && old(w.run.events) < w.run.events && w.state.progress.Idle?
    ensures outcome == result || (outcome.Error? && w.faults > old(w.faults))
    ensures w.faults >= old(w.faults) && w.run.events != [] && (Outdated(old(w.state)) ==> Outdated(Before(w)))
    ensures outcome.Ok? ==> Wrote(w, copy, Describe(copy, sts))
    ensures outcome.Blocked? ==> exists why :: Wrote(w, copy, DescribeBlocked(copy, why))
  {
    Interfere(w);
    var failed := w.Fails();
    if failed {
      GiveUp(w);
    } else {
      SendResult(w, result, copy, sts);
    }
    // The answer may get lost.
    var lost := w.Fails();
    outcome := if failed || lost then Error else result;
  }

  method GiveUp(w: World<State, Event>)
    requires w.Runs(PROTOCOL) && !w.state.progress.Idle?
    modifies w
    ensures w.Runs(PROTOCOL) && old(w.run.events) < w.run.events && w.faults == old(w.faults)
    ensures w.state.progress.Idle? && Before(w) == old(w.state)
  {
    w.Do(Crash);
  }

  method SendResult(w: World<State, Event>, result: Outcome, copy: Object, sts: StatefulSet)
    requires w.Runs(PROTOCOL) && !w.state.progress.Idle? && w.state.progress.copy == copy && w.state.objects != []
    requires result.Ok? ==> w.state.progress.SetDone? && w.state.progress.set_ == sts
    modifies w
    ensures w.Runs(PROTOCOL) && old(w.run.events) < w.run.events && w.state.progress.Idle?
    ensures w.faults == old(w.faults) && Before(w) == old(w.state)
    ensures result.Ok? ==> Wrote(w, copy, Describe(copy, sts))
    ensures result.Blocked? ==> exists why :: Wrote(w, copy, DescribeBlocked(copy, why))
  {
    var why: string := *;
    match result {
      case Ok => SendStatus(w, PatchStatus, Describe(copy, sts));
      case Blocked => SendStatus(w, PatchBlocked(why), DescribeBlocked(copy, why));
      case Error => SendStatus(w, PatchError(why), DescribeError(copy, why));
    }
  }

  method SendStatus(w: World<State, Event>, patch: Event, ghost status: Status)
    requires w.Runs(PROTOCOL) && !w.state.progress.Idle? && w.state.objects != []
    requires match patch {
               case PatchStatus =>
                 w.state.progress.SetDone? && status == Describe(w.state.progress.copy, w.state.progress.set_)
               case PatchBlocked(why) => status == DescribeBlocked(w.state.progress.copy, why)
               case PatchError(why) => status == DescribeError(w.state.progress.copy, why)
               case _ => false
             }
    modifies w
    ensures w.Runs(PROTOCOL) && old(w.run.events) < w.run.events && w.state.progress.Idle?
    ensures Wrote(w, old(w.state.progress).copy, status) && w.faults == old(w.faults) && Before(w) == old(w.state)
  {
    w.Do(patch);
  }

  method ReconcileResources(w: World<State, Event>, copy: Object) returns (outcome: Outcome, sts: StatefulSet)
    requires w.Runs(PROTOCOL) && w.state.progress == Begun(copy) && w.state.objects != []
    modifies w
    ensures w.Runs(PROTOCOL) && w.run.Continues(old(w.run)) && w.state.objects != []
    ensures !w.state.progress.Idle? && w.state.progress.copy == copy
    ensures outcome.Ok? ==> w.state.progress.SetDone? && w.state.progress.set_ == sts && Says(sts, copy.spec)
    ensures outcome.Blocked? ==> w.faults > old(w.faults) && w.run == old(w.run)
    ensures w.faults >= old(w.faults) && (outcome.Error? ==> w.faults > old(w.faults) || Outdated(w.state))
  {
    sts := Written(None, copy.spec);
    var missing := w.Fails();
    if missing {
      // The password Secret or the TLS Secret is missing.
      return Blocked, sts;
    }
    Interfere(w);
    var failed := w.Fails();
    if failed {
      return Error, sts;
    }
    outcome, sts := ReconcileRest(w, copy);
  }

  method ReconcileRest(w: World<State, Event>, copy: Object) returns (outcome: Outcome, sts: StatefulSet)
    requires w.Runs(PROTOCOL) && w.state.progress == Begun(copy) && w.state.objects != []
    modifies w
    ensures w.Runs(PROTOCOL) && w.run.Continues(old(w.run)) && w.state.objects != []
    ensures !w.state.progress.Idle? && w.state.progress.copy == copy && !outcome.Blocked?
    ensures outcome.Ok? ==> w.state.progress.SetDone? && w.state.progress.set_ == sts && Says(sts, copy.spec)
    ensures w.faults >= old(w.faults) && (outcome.Error? ==> w.faults > old(w.faults) || Outdated(w.state))
  {
    outcome, sts := ReconcileStatefulSet(w, copy);
    if outcome.Ok? {
      Interfere(w);
      // The NetworkPolicy may fail to be reconciled.
      var failed := w.Fails();
      outcome := if failed then Error else Ok;
    }
  }

  /** Rendered from the spec: its tag or the default one, its other pod fields, and what does not reach the pod. */
  predicate Renders(sts: StatefulSet, spec: Spec)
  {
    && sts.template.tag == (if spec.tag == "" then "26.09.2" else spec.tag)
    && sts.template.pod == spec.pod && sts.setOnly == spec.setOnly
  }

  lemma SaysExactlyWhenRendered(sts: StatefulSet, spec: Spec)
    ensures Says(sts, spec) <==> Renders(sts, spec)
  {
  }

  /** An update goes out under the version that was read, which is not the present one any more. */
  predicate Outdated(s: State)
  {
    s.progress.SetRead? && if s.progress.found.None? then s.sets != [] else s.progress.at < |s.sets|
  }

  /** The StatefulSet as the spec wants it, which is the present one when the update goes out. */
  method ReconcileStatefulSet(w: World<State, Event>, copy: Object) returns (outcome: Outcome, sts: StatefulSet)
    requires w.Runs(PROTOCOL) && w.state.progress == Begun(copy) && w.state.objects != []
    modifies w
    ensures w.Runs(PROTOCOL) && w.run.Continues(old(w.run)) && w.state.objects != []
    ensures !w.state.progress.Idle? && w.state.progress.copy == copy
    ensures outcome.Ok? ==>
              && w.state.progress.SetDone? && w.state.progress.set_ == sts && Says(sts, copy.spec)
              && (EndsWith(w, KeepSet) || EndsWith(w, WriteSet)) && w.state.sets != [] && w.state.TheSet() == sts
              && Renders(sts, copy.spec)
    ensures !outcome.Blocked? && (outcome.Error? ==> w.faults > old(w.faults) || Outdated(w.state))
    ensures w.faults >= old(w.faults)
  {
    var v: int := *;
    if !(w.state.setSeen <= v <= |w.state.sets|) {
      // The StatefulSet could not be read.
      w.Fault();
      return Error, Written(None, copy.spec);
    }
    w.Do(ReadSet(v));
    outcome, sts := SendSet(w, copy, w.state.progress.found, v);
  }

  method SendSet(w: World<State, Event>, copy: Object, found: Option<StatefulSet>, at: nat)
    returns (outcome: Outcome, sts: StatefulSet)
    requires w.Runs(PROTOCOL) && w.state.progress == SetRead(copy, found, at) && w.state.objects != []
    modifies w
    ensures w.Runs(PROTOCOL) && w.run.Continues(old(w.run)) && w.state.objects != []
    ensures !w.state.progress.Idle? && w.state.progress.copy == copy
    ensures outcome.Ok? ==>
              && w.state.progress.SetDone? && w.state.progress.set_ == sts && Says(sts, copy.spec)
              && (EndsWith(w, KeepSet) || EndsWith(w, WriteSet)) && w.state.sets != [] && w.state.TheSet() == sts
    ensures !outcome.Blocked? && (outcome.Error? ==> w.faults > old(w.faults) || Outdated(w.state))
    ensures w.faults >= old(w.faults)
  {
    var keep := found.Some? && Says(found.value, copy.spec);
    sts := if keep then found.value else Written(found, copy.spec);
    Interfere(w);
    if found.Some? {
      FoundCopy(w.run);
    }
    var failed := w.Fails();
    if failed || (if found.None? then w.state.sets != [] else at != |w.state.sets|) {
      // Among the failures: it was created or has changed since it was read.
      return Error, sts;
    }
    // The answer may get lost.
    var lost := w.Fails();
    PutSet(w, copy, keep, sts);
    outcome := if lost then Error else Ok;
  }

  method PutSet(w: World<State, Event>, copy: Object, keep: bool, sts: StatefulSet)
    requires w.Runs(PROTOCOL) && w.state.progress.SetRead? && w.state.progress.copy == copy && w.state.objects != []
    requires var found := w.state.progress.found;
             && (keep <==> found.Some? && Says(found.value, copy.spec))
             && sts == (if keep then found.value else Written(found, copy.spec))
             && if found.None? then w.state.sets == []
                else 0 < w.state.progress.at == |w.state.sets| && w.state.TheSet() == found.value
    modifies w
    ensures w.Runs(PROTOCOL) && old(w.run.events) < w.run.events && w.state.objects != [] && w.faults == old(w.faults)
    ensures w.state.progress.SetDone? && w.state.progress.copy == copy && w.state.progress.set_ == sts
    ensures Says(sts, copy.spec) && (EndsWith(w, KeepSet) || EndsWith(w, WriteSet))
    ensures w.state.sets != [] && w.state.TheSet() == sts
  {
    SetSent(w.state, keep);
    w.Do(if keep then KeepSet else WriteSet);
  }

  lemma SetSent(s: State, keep: bool)
    requires s.progress.SetRead?
    requires keep <==> s.progress.found.Some? && Says(s.progress.found.value, s.progress.copy.spec)
    requires if s.progress.found.None? then s.sets == []
             else 0 < s.progress.at == |s.sets| && s.TheSet() == s.progress.found.value
    ensures var e := if keep then KeepSet else WriteSet;
            var sts := if keep then s.progress.found.value else Written(s.progress.found, s.progress.copy.spec);
            && Enabled(s, e) && Says(sts, s.progress.copy.spec)
            && Step(s, e).progress.SetDone? && Step(s, e).progress.copy == s.progress.copy
            && Step(s, e).progress.set_ == sts && Step(s, e).objects == s.objects
            && Step(s, e).sets != [] && Step(s, e).TheSet() == sts
  {
  }

  lemma FoundCopy(run: Run<State, Event>)
    requires run.Of(PROTOCOL) && run.Last().progress.SetRead? && run.Last().progress.found.Some?
    ensures var s := run.Last();
            0 < s.progress.at <= |s.sets| && s.sets[s.progress.at - 1] == s.progress.found.value
  {
    InvAlways(run, |run.events|);
  }

  method Interfere(w: World<State, Event>)
    requires w.Runs(PROTOCOL) && w.state.objects != []
    modifies w
    ensures w.Runs(PROTOCOL) && w.run.Continues(old(w.run)) && w.state.objects != []
    ensures w.state.progress == old(w.state).progress && w.faults == old(w.faults)
    ensures |old(w.state).sets| <= |w.state.sets|
  {
    ghost var before, entry := |w.run.events|, w.state;
    w.Others();
    ExternalInvariance(PROTOCOL,
        (s: State) => s.progress == entry.progress && s.objects != [] && |entry.sets| <= |s.sets|, w.run, before,
                       |w.run.events|);
  }
}
