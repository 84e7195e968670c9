/** The finalizer protocol shared by Database, DatabaseRole and ServerSecret objects. Cluster and server name are
    fixed, nobody else edits the finalizer or manages that name on the server. The object and its SereneDB are read
    from a cache that may be old but never goes back. */
module Dependents {
  import opened Machines

  datatype Kind = Database | Role | ServerSecret
  datatype ReclaimPolicy = Retain | Delete
  datatype Object = Object(finalizer: bool, deleting: bool, policy: ReclaimPolicy)
  datatype Cluster = Present | BeingDeleted | Absent
  datatype Statement = Create | Alter | Drop

  /** How the last object that had its finalizer went: with which policy, and whether the SereneDB was absent or being
      deleted in the version of it that the pass read. */
  datatype Farewell = Farewell(policy: ReclaimPolicy, clusterGone: bool)

  /** `versions` are all versions of the object, None where it did not exist, and `clusters` those of its SereneDB. */
  datatype State = State(
    kind: Kind, versions: seq<Option<Object>>, cached: nat, clusters: seq<Cluster>, seen: nat, onServer: bool,
    farewell: Option<Farewell>, progress: Progress)
  {
    /** The SereneDB as it is. */
    function Cluster(): Cluster
    {
      if clusters == [] then Absent else clusters[|clusters| - 1]
    }
  }

  /** How far the running pass has come with `copy`, version `at`. `present` is what the existence query of a Database
      or Role returned; a ServerSecret is replaced without asking. */
  datatype Progress =
    | Idle
    | Got(copy: Object, at: nat)
    | Applying(copy: Object, at: nat, present: bool)
    | Finalizing(copy: Object, at: nat, gone: bool)
    | Dropping(copy: Object, at: nat)
    | Cleared(copy: Object, at: nat, gone: bool)

  datatype Event =
    | CreateObject(policy: ReclaimPolicy)
    | EditPolicy(policy: ReclaimPolicy)
    | RequestDelete
    | ChangeCluster(cluster: Cluster)
    | LoseData
    | Get(version: nat)
    | AddFinalizer
    | StartApply
    | CheckCluster(copy: nat)
    | StartDrop
    | SkipDrop
    | Send(statement: Statement)
    | RemoveFinalizer
    | Crash

  function Latest(s: State): Option<Object>
  {
    if s.versions == [] then None else s.versions[|s.versions| - 1]
  }

  /** ServerSecrets are dropped whatever their policy. */
  predicate WantsDrop(kind: Kind, copy: Object)
  {
    kind.ServerSecret? || copy.policy.Delete?
  }

  predicate External(e: Event)
  {
    e.CreateObject? || e.EditPolicy? || e.RequestDelete? || e.ChangeCluster? || e.LoseData?
  }

  predicate Enabled(s: State, e: Event)
  {
    match e
    case CreateObject(_) => Latest(s).None?
    case EditPolicy(_) => Latest(s).Some?
    case RequestDelete => Latest(s).Some?
    case ChangeCluster(_) => true
    case LoseData => true
    case Get(v) => s.progress.Idle? && 0 < v && s.cached <= v <= |s.versions| && s.versions[v - 1].Some?
    case AddFinalizer =>
      s.progress.Got? && !s.progress.copy.deleting && !s.progress.copy.finalizer && s.progress.at == |s.versions|
    case StartApply =>
      s.progress.Got? && !s.progress.copy.deleting && s.progress.copy.finalizer && !s.Cluster().Absent?
    case CheckCluster(c) =>
      s.progress.Got? && s.progress.copy.deleting && s.progress.copy.finalizer && s.seen <= c < |s.clusters|
    case StartDrop =>
      && s.progress.Finalizing? && WantsDrop(s.kind, s.progress.copy) && !s.progress.gone && !s.Cluster().Absent?
    case SkipDrop => s.progress.Finalizing? && (!WantsDrop(s.kind, s.progress.copy) || s.progress.gone)
    case Send(statement) =>
      && !s.Cluster().Absent?
      && match statement {
           case Create => s.progress.Applying? && (s.kind.ServerSecret? || !s.progress.present)
           case Alter => s.progress.Applying? && s.kind.Role? && s.progress.present && s.onServer
           case Drop => s.progress.Dropping? && s.onServer
         }
    case RemoveFinalizer => s.progress.Cleared? && s.progress.at == |s.versions|
    case Crash => !s.progress.Idle?
  }

  function Step(s: State, e: Event): State
  {
    if !Enabled(s, e) then s else
    match e
    case CreateObject(policy) => s.(versions := s.versions + [Some(Object(false, false, policy))], farewell := None)
    case EditPolicy(policy) => s.(versions := s.versions + [Some(Latest(s).value.(policy := policy))])
    case RequestDelete =>
      var after := if Latest(s).value.finalizer then Some(Latest(s).value.(deleting := true)) else None;
      s.(versions := s.versions + [after])
    case ChangeCluster(cluster) => s.(clusters := s.clusters + [cluster])
    case LoseData => s.(onServer := false)
    case Get(v) => s.(cached := v, progress := Got(s.versions[v - 1].value, v))
    case AddFinalizer =>
      s.(versions := s.versions + [Some(s.progress.copy.(finalizer := true))], progress := Idle)
    case StartApply => s.(progress := Applying(s.progress.copy, s.progress.at, s.onServer))
    case CheckCluster(c) =>
      s.(seen := c, progress := Finalizing(s.progress.copy, s.progress.at, !s.clusters[c].Present?))
    case StartDrop =>
      s.(progress := if s.onServer then Dropping(s.progress.copy, s.progress.at)
                     else Cleared(s.progress.copy, s.progress.at, false))
    case SkipDrop => s.(progress := Cleared(s.progress.copy, s.progress.at, s.progress.gone))
    case Send(statement) =>
      s.(onServer := !statement.Drop?,
         progress := if statement.Drop? then Cleared(s.progress.copy, s.progress.at, false) else Idle)
    case RemoveFinalizer =>
      s.(versions := s.versions + [None], farewell := Some(Farewell(s.progress.copy.policy, s.progress.gone)),
         progress := Idle)
    case Crash => s.(progress := Idle)
  }

  function Protocol(kind: Kind): Machine<State, Event>
  {
    Machine(State(kind, [], 0, [Absent], 0, false, None, Idle), Enabled, Step, External)
  }

  /** An object that had its finalizer and wanted a drop leaves nothing behind, unless the pass read that its SereneDB
      was going too. */
  predicate NothingLeft(s: State)
  {
    Latest(s).None? && s.farewell.Some? && !s.farewell.value.clusterGone
    && (s.kind.ServerSecret? || s.farewell.value.policy.Delete?)
    ==> !s.onServer
  }

  predicate Live(o: Option<Object>)
  {
    o.Some? && o.value.finalizer && !o.value.deleting
  }

  predicate Inv(s: State)
  {
    && NothingLeft(s)
    && s.cached <= |s.versions| && s.seen < |s.clusters|
    // What the cache may still show as live does have its finalizer.
    && (forall j | 0 <= j < |s.versions| && s.cached - 1 <= j && Live(s.versions[j]) ::
          Latest(s).Some? && Latest(s).value.finalizer)
    && ProgressInv(s)
    && (s.farewell.Some? ==>
          Latest(s).None? && forall j | 0 <= j < |s.versions| && s.cached - 1 <= j :: !Live(s.versions[j]))
  }

  predicate ProgressInv(s: State)
  {
    && (s.progress.Idle? || (0 < s.progress.at == s.cached && s.cached <= |s.versions|
                             && s.versions[s.progress.at - 1] == Some(s.progress.copy)))
    && (s.progress.Applying? ==> Live(Some(s.progress.copy)))
    && (s.progress.Finalizing? || s.progress.Dropping? || s.progress.Cleared? ==>
          s.progress.copy.finalizer && s.progress.copy.deleting)
    && (s.progress.Dropping? ==> WantsDrop(s.kind, s.progress.copy))
    && (s.progress.Cleared? && !s.progress.gone && WantsDrop(s.kind, s.progress.copy) ==> !s.onServer)
  }

  lemma InvStep(s: State, e: Event)
    requires Inv(s) && Enabled(s, e)
    ensures Inv(Step(s, e))
  {
    match e {
      case CreateObject(_) => NewVersion(s, Step(s, e));
      case EditPolicy(_) => NewVersion(s, Step(s, e));
      case RequestDelete => NewVersion(s, Step(s, e));
      case AddFinalizer => FinalizerAdded(s);
      case RemoveFinalizer => FinalizerRemoved(s);
      case _ => SameVersions(s, e);
    }
  }

  lemma SameVersions(s: State, e: Event)
    requires Inv(s) && Enabled(s, e) && Step(s, e).versions == s.versions
    ensures Inv(Step(s, e))
  {
  }

  /** A version that is not live appears, or one that is live after a live one. */
  lemma NewVersion(s: State, s': State)
    requires Inv(s) && |s'.versions| == |s.versions| + 1
    requires s' == s.(versions := s'.versions, farewell := s'.farewell) && s.versions <= s'.versions
    requires s'.farewell == None || (s'.farewell == s.farewell && Latest(s').None?)
    requires Live(Latest(s')) ==> Latest(s).Some? && Latest(s).value.finalizer
    requires Latest(s).Some? && Latest(s).value.finalizer ==> Latest(s').Some? && Latest(s').value.finalizer
    ensures Inv(s')
  {
    assert forall j | 0 <= j < |s.versions| :: s'.versions[j] == s.versions[j];
  }

  lemma FinalizerAdded(s: State)
    requires Inv(s) && Enabled(s, AddFinalizer)
    ensures Inv(Step(s, AddFinalizer))
  {
    assert Latest(s) == Some(s.progress.copy);
  }

  lemma FinalizerRemoved(s: State)
    requires Inv(s) && Enabled(s, RemoveFinalizer)
    ensures Inv(Step(s, RemoveFinalizer))
  {
    assert Latest(s) == Some(s.progress.copy);
  }

  lemma KindStays(s: State, e: Event)
    ensures Step(s, e).kind == s.kind
  {
  }

  lemma InvAlways(kind: Kind, run: Run<State, Event>, i: nat)
    requires run.Of(Protocol(kind)) && i < |run.states|
    ensures Inv(run.states[i]) && run.states[i].kind == kind
  {
    forall s, e | Inv(s) && s.kind == kind && Enabled(s, e) ensures Inv(Step(s, e)) && Step(s, e).kind == kind {
      InvStep(s, e);
      KindStays(s, e);
    }
    Invariance(Protocol(kind), s => Inv(s) && s.kind == kind, run, i);
  }

  /** At every moment of every run. */
  lemma NothingLeftBehind(kind: Kind, run: Run<State, Event>, i: nat)
    requires run.Of(Protocol(kind)) && i < |run.states|
    ensures NothingLeft(run.states[i])
  {
    InvAlways(kind, run, i);
  }

  predicate WantedDrop(kind: Kind, o: Option<Object>)
  {
    o.Some? && o.value.deleting && o.value.finalizer && WantsDrop(kind, o.value)
  }

  predicate IsRetained(kind: Kind, o: Option<Object>)
  {
    o.Some? && !WantsDrop(kind, o.value)
  }

  /** No CREATE is sent while the object lacks its finalizer. A DROP is sent only for a version that was being deleted
      and asked for it, and that is the one the pass read last; so it can meet a Retain object only if that object has
      changed or come since. */
  lemma StatementsAreGuarded(kind: Kind, run: Run<State, Event>, i: nat)
    requires run.Of(Protocol(kind)) && i < |run.events|
    ensures run.events[i] == Send(Create) ==> Latest(run.states[i]).Some? && Latest(run.states[i]).value.finalizer
    ensures run.events[i] == Send(Drop) ==>
              var s := run.states[i];
              && s.progress.Dropping? && WantedDrop(kind, Some(s.progress.copy))
              && (kind.ServerSecret? || s.progress.copy.policy.Delete?)
              && 0 < s.progress.at == s.cached <= |s.versions|
              && s.versions[s.progress.at - 1] == Some(s.progress.copy)
              && (IsRetained(kind, Latest(s)) ==> s.progress.at < |s.versions|)
  {
    InvAlways(kind, run, i);
    var s := run.states[i];
    assert Enabled(s, run.events[i]);
    if run.events[i] == Send(Create) {
      assert Live(s.versions[s.progress.at - 1]);
    }
  }

  /** What asks for a drop, spelled out: a ServerSecret always, a Database or a Role under the policy Delete. */
  lemma WantsDropExactlyWhen(kind: Kind, copy: Object)
    ensures WantsDrop(kind, copy) <==> match copy.policy { case Retain => kind == ServerSecret case Delete => true }
  {
  }

  /** The versions the cache may still show contain one that asked for a drop. */
  predicate ShowsWantedDrop(s: State)
  {
    exists v | 0 <= v < |s.versions| && s.cached - 1 <= v :: WantedDrop(s.kind, s.versions[v])
  }

  predicate ShowsCluster(s: State)
  {
    exists c | 0 <= c < |s.clusters| && s.seen <= c :: s.clusters[c].Present?
  }

  predicate CanDrop(s: State)
  {
    ShowsWantedDrop(s) && ShowsCluster(s) && !s.Cluster().Absent? && s.onServer
  }

  predicate ShowsGoing(s: State)
  {
    exists c | 0 <= c < |s.clusters| && s.seen <= c :: !s.clusters[c].Present?
  }

  /** A run of one pass from `s` that nobody disturbs, up to `last`. */
  ghost predicate PassUpTo(s: State, run: Run<State, Event>, last: Event)
  {
    && run.Of(Protocol(s.kind).(start := s)) && run.events != [] && run.events[|run.events| - 1] == last
    && (forall k | 0 <= k < |run.events| :: !External(run.events[k]) && (run.events[k].Get? ==> k == 0))
  }

  ghost predicate Drops(s: State, run: Run<State, Event>)
  {
    PassUpTo(s, run, Send(Drop))
  }

  ghost predicate Leaves(s: State, run: Run<State, Event>)
  {
    PassUpTo(s, run, RemoveFinalizer) && run.Last().onServer
  }

  /** The other way round: the next pass over an object that asks for a drop can let it go and leave it on the server
      if and only if it is there and the cache may still show a SereneDB that is absent or going, whatever has come
      since. */
  lemma LeavesExactlyWhen(s: State)
    requires Inv(s) && s.progress.Idle? && WantedDrop(s.kind, Latest(s))
    ensures (exists run :: Leaves(s, run)) <==> s.onServer && ShowsGoing(s)
  {
    if s.onServer && ShowsGoing(s) {
      var run := LeavePass(s);
      assert Leaves(s, run);
    }
    forall run | Leaves(s, run) ensures s.onServer && ShowsGoing(s) {
      var n := |run.events| - 1;
      if n > 0 {
        OnePass(s, run, n);
      }
      assert Enabled(run.states[n], run.events[n]);
    }
  }

  lemma LeavePass(s: State) returns (run: Run<State, Event>)
    requires Inv(s) && s.progress.Idle? && WantedDrop(s.kind, Latest(s)) && s.onServer && ShowsGoing(s)
    ensures Leaves(s, run)
  {
    var c :| 0 <= c < |s.clusters| && s.seen <= c && !s.clusters[c].Present?;
    run := LeaveSteps(Protocol(s.kind).(start := s), s, c);
  }

  lemma LeaveSteps(m: Machine<State, Event>, s: State, c: nat) returns (run: Run<State, Event>)
    requires m == Protocol(s.kind).(start := s) && s.progress.Idle? && s.cached <= |s.versions|
    requires WantedDrop(s.kind, Latest(s)) && c < |s.clusters| && s.seen <= c && !s.clusters[c].Present?
    ensures run.Of(m) && run.events == [Get(|s.versions|), CheckCluster(c), SkipDrop, RemoveFinalizer]
    ensures run.Last().onServer == s.onServer
  {
    var v, copy := |s.versions|, Latest(s).value;
    var got := s.(cached := v, progress := Got(copy, v));
    var finalizing := got.(seen := c, progress := Finalizing(copy, v, true));
    var cleared := finalizing.(progress := Cleared(copy, v, true));
    assert Step(s, Get(v)) == got;
    assert Step(got, CheckCluster(c)) == finalizing;
    assert Step(finalizing, SkipDrop) == cleared;
    run := Run([s, got, finalizing, cleared, Step(cleared, RemoveFinalizer)],
               [Get(v), CheckCluster(c), SkipDrop, RemoveFinalizer]);
  }

  /** Whether the object of that name is now a Retain one does not matter: the next pass can send a DROP if and only
      if the cache may still show a version that asked for it and a SereneDB that is not going, and there is something
      to drop. */
  lemma DropsExactlyWhen(s: State)
    requires Inv(s) && s.progress.Idle?
    ensures (exists run :: Drops(s, run)) <==> CanDrop(s)
  {
    if CanDrop(s) {
      var run := DropPass(s);
      assert Drops(s, run);
    }
    forall run | Drops(s, run) ensures CanDrop(s) {
      var n := |run.events| - 1;
      if n > 0 {
        OnePass(s, run, n);
      }
      assert Enabled(run.states[n], run.events[n]);
    }
  }

  lemma DropPass(s: State) returns (run: Run<State, Event>)
    requires Inv(s) && s.progress.Idle? && CanDrop(s)
    ensures Drops(s, run) && |run.events| == 4 && run.states[3].versions == s.versions
  {
    var v :| 0 <= v < |s.versions| && s.cached - 1 <= v && WantedDrop(s.kind, s.versions[v]);
    var c :| 0 <= c < |s.clusters| && s.seen <= c && s.clusters[c].Present?;
    run := DropSteps(Protocol(s.kind).(start := s), s, v, c);
  }

  lemma DropSteps(m: Machine<State, Event>, s: State, v: nat, c: nat) returns (run: Run<State, Event>)
    requires m == Protocol(s.kind).(start := s) && s.progress.Idle? && CanDrop(s) && s.cached <= |s.versions|
    requires v < |s.versions| && s.cached - 1 <= v && WantedDrop(s.kind, s.versions[v])
    requires c < |s.clusters| && s.seen <= c && s.clusters[c].Present?
    ensures run.Of(m) && run.events == [Get(v + 1), CheckCluster(c), StartDrop, Send(Drop)]
    ensures run.states[3].versions == s.versions
  {
    var copy := s.versions[v].value;
    var got := s.(cached := v + 1, progress := Got(copy, v + 1));
    var finalizing := got.(seen := c, progress := Finalizing(copy, v + 1, false));
    var dropping := finalizing.(progress := Dropping(copy, v + 1));
    assert Step(s, Get(v + 1)) == got;
    assert Step(got, CheckCluster(c)) == finalizing;
    assert Step(finalizing, StartDrop) == dropping;
    run := Run([s, got, finalizing, dropping, Step(dropping, Send(Drop))],
               [Get(v + 1), CheckCluster(c), StartDrop, Send(Drop)]);
  }

  /** What holds within the first pass from `s` until it ends or has dropped. */
  predicate InPass(s: State, t: State)
  {
    t.progress.Idle? ||
    (&& t.kind == s.kind && t.versions == s.versions && t.clusters == s.clusters && (t.onServer ==> s.onServer)
     && 0 < t.progress.at <= |s.versions| && s.cached <= t.progress.at && s.seen <= t.seen
     && s.versions[t.progress.at - 1] == Some(t.progress.copy)
     && (if t.progress.Cleared?
         then (if t.progress.gone then ShowsGoing(s) else WantsDrop(s.kind, t.progress.copy) ==> !t.onServer)
         else t.onServer == s.onServer && Unclear(s, t.progress)))
  }

  predicate Unclear(s: State, p: Progress)
  {
    && (p.Finalizing? || p.Dropping? ==> p.copy.deleting && p.copy.finalizer)
    && (p.Finalizing? ==> if p.gone then ShowsGoing(s) else ShowsCluster(s))
    && (p.Dropping? ==> WantsDrop(s.kind, p.copy) && ShowsCluster(s))
  }

  lemma InPassStep(s: State, t: State, e: Event)
    requires InPass(s, t) && Enabled(t, e) && !External(e) && !e.Get?
    ensures InPass(s, Step(t, e))
  {
  }

  lemma {:induction false} OnePass(s: State, run: Run<State, Event>, n: nat)
    requires Inv(s) && s.progress.Idle? && run.Of(Protocol(s.kind).(start := s)) && 0 < n < |run.states|
    requires forall k | 0 <= k < n :: !External(run.events[k]) && (run.events[k].Get? ==> k == 0)
    ensures InPass(s, run.states[n])
  {
    assert Enabled(run.states[n - 1], run.events[n - 1]);
    if n > 1 {
      OnePass(s, run, n - 1);
      InPassStep(s, run.states[n - 1], run.events[n - 1]);
    }
  }

  /** Wherever earlier passes were cut short, one pass that nothing disturbs and that reads the latest versions ends the
      deletion, with the server up or its SereneDB going. */
  lemma RetriedDropSucceeds(kind: Kind, run: Run<State, Event>) returns (later: Run<State, Event>)
    requires run.Of(Protocol(kind)) && run.Last().progress.Idle?
    requires var o := Latest(run.Last()); o.Some? && o.value.deleting && o.value.finalizer
    ensures later.Of(Protocol(kind)) && run.events < later.events && Latest(later.Last()).None?
    ensures forall i | |run.events| <= i < |later.events| :: !External(later.events[i])
  {
    later := ReadLatest(kind, run);
    later := ClearServer(kind, later);
    later := Prolong(Protocol(kind), later, RemoveFinalizer);
  }

  lemma ReadLatest(kind: Kind, run: Run<State, Event>) returns (later: Run<State, Event>)
    requires run.Of(Protocol(kind)) && run.Last().progress.Idle?
    requires var o := Latest(run.Last()); o.Some? && o.value.deleting && o.value.finalizer
    ensures later.Of(Protocol(kind)) && run.events < later.events
    ensures forall i | |run.events| <= i < |later.events| :: !External(later.events[i])
    ensures var s, t := run.Last(), later.Last();
            t.versions == s.versions && t.clusters == s.clusters
            && t.progress == Finalizing(Latest(s).value, |s.versions|, !s.Cluster().Present?)
  {
    InvAlways(kind, run, |run.events|);
    later := Prolong(Protocol(kind), run, Get(|run.Last().versions|));
    later := Prolong(Protocol(kind), later, CheckCluster(|run.Last().clusters| - 1));
  }

  lemma ClearServer(kind: Kind, run: Run<State, Event>) returns (later: Run<State, Event>)
    requires run.Of(Protocol(kind)) && run.Last().progress.Finalizing?
    requires run.Last().progress.gone == !run.Last().Cluster().Present?
    ensures later.Of(Protocol(kind)) && run.events < later.events
    ensures forall i | |run.events| <= i < |later.events| :: !External(later.events[i])
    ensures later.Last().versions == run.Last().versions
    ensures later.Last().progress.Cleared? && later.Last().progress.at == run.Last().progress.at
  {
    var s := run.Last();
    if !WantsDrop(s.kind, s.progress.copy) || s.progress.gone {
      later := Prolong(Protocol(kind), run, SkipDrop);
    } else {
      later := Prolong(Protocol(kind), run, StartDrop);
      if s.onServer {
        later := Prolong(Protocol(kind), later, Send(Drop));
      }
    }
  }

  // Runs.

  lemma Guarded(policy: ReclaimPolicy) returns (run: Run<State, Event>)
    ensures run.Of(Protocol(Database))
    ensures run.Last() == State(Database, [Some(Object(false, false, policy)), Some(Object(true, false, policy))], 1,
                                [Absent, Present], 0, false, None, Idle)
  {
    var m := Protocol(Database);
    run := Run([m.start], []);
    run := Prolong(m, run, ChangeCluster(Present));
    run := Prolong(m, run, CreateObject(policy));
    run := Prolong(m, run, Get(1));
    run := Prolong(m, run, AddFinalizer);
  }

  lemma Created(policy: ReclaimPolicy) returns (run: Run<State, Event>)
    ensures run.Of(Protocol(Database))
    ensures run.Last() == State(Database, [Some(Object(false, false, policy)), Some(Object(true, false, policy))], 2,
                                [Absent, Present], 0, true, None, Idle)
  {
    var m := Protocol(Database);
    run := Guarded(policy);
    run := Prolong(m, run, Get(2));
    run := Prolong(m, run, StartApply);
    run := Prolong(m, run, Send(Create));
  }

  lemma Retained() returns (run: Run<State, Event>)
    ensures run.Of(Protocol(Database)) && run.Last().onServer && run.Last().progress.Idle? && Latest(run.Last()).None?
  {
    var m := Protocol(Database);
    run := Created(Retain);
    run := Prolong(m, run, RequestDelete);
    run := Prolong(m, run, Get(3));
    run := Prolong(m, run, CheckCluster(1));
    run := Prolong(m, run, SkipDrop);
    run := Prolong(m, run, RemoveFinalizer);
  }

  /** The finalizer is what the promise hangs on: a Delete-policy object removed before its first pass leaves standing
      what an earlier Retain-policy object of that name had created. */
  lemma RemovedBeforeFinalizer() returns (run: Run<State, Event>)
    ensures run.Of(Protocol(Database)) && Latest(run.Last()).None? && run.Last().onServer
    ensures |run.Last().versions| > 1
        && run.Last().versions[|run.Last().versions| - 2] == Some(Object(false, false, Delete))
  {
    run := Retained();
    run := Prolong(Protocol(Database), run, CreateObject(Delete));
    run := Prolong(Protocol(Database), run, RequestDelete);
  }

  /** A deletion request removes an object at once, leaving whatever is on the server, exactly when it lacks the
      finalizer. */
  lemma VanishesExactlyWithoutFinalizer(s: State)
    requires Latest(s).Some?
    ensures Latest(Step(s, RequestDelete)).None? <==> !Latest(s).value.finalizer
    ensures Step(s, RequestDelete).onServer == s.onServer
  {
  }

  /** A Delete object finalised while its SereneDB was absent, whose data then comes back. */
  lemma FinalizedWhileAbsent() returns (run: Run<State, Event>)
    ensures run.Of(Protocol(Database)) && run.Last().progress.Idle? && run.Last().kind.Database?
    ensures run.Last().onServer && run.Last().cached == 3 && run.Last().Cluster().Present?
    ensures |run.Last().versions| == 4 && run.Last().versions[2] == Some(Object(true, true, Delete))
    ensures Latest(run.Last()).None?
  {
    var m := Protocol(Database);
    run := Created(Delete);
    run := Prolong(m, run, RequestDelete);
    run := Prolong(m, run, ChangeCluster(Absent));
    run := Prolong(m, run, Get(3));
    run := Prolong(m, run, CheckCluster(2));
    run := Prolong(m, run, SkipDrop);
    assert run.Last().progress == Cleared(Object(true, true, Delete), 3, true);
    run := Prolong(m, run, RemoveFinalizer);
    run := Prolong(m, run, ChangeCluster(Present));
  }

  /** A Retain object that is not being deleted can see its database dropped: the cache still shows the Delete object of
      that name that went before it. */
  lemma DropHitsRetained() returns (run: Run<State, Event>, later: Run<State, Event>)
    ensures run.Of(Protocol(Database)) && run.Last().progress.Idle?
    ensures Latest(run.Last()) == Some(Object(false, false, Retain)) && Drops(run.Last(), later)
    ensures later.states[|later.events| - 1].versions == run.Last().versions
  {
    run := FinalizedWhileAbsent();
    run := Prolong(Protocol(Database), run, CreateObject(Retain));
    var s := run.Last();
    InvAlways(Database, run, |run.events|);
    assert WantedDrop(s.kind, s.versions[2]) && s.clusters[|s.clusters| - 1].Present?;
    later := DropPass(s);
  }

  datatype Outcome = Ok | Blocked | Error

  ghost predicate Manages(w: World<State, Event>, kind: Kind)
    reads w`run, w`state
  {
    w.Runs(Protocol(kind)) && w.state.kind == kind
  }

  ghost predicate EndsWith(w: World<State, Event>, e: Event)
    reads w`run
  {
    w.run.events != [] && w.run.events[|w.run.events| - 1] == e
  }

  ghost predicate NoDropSince(w: World<State, Event>, n: nat)
    reads w`run
  {
    forall k | n <= k < |w.run.events| :: w.run.events[k] != Send(Drop)
  }

  predicate Shows(s: State, version: nat)
  {
    0 < version && s.cached <= version <= |s.versions| && s.versions[version - 1].Some?
  }

  /** What success over `copy` means: an object that is being deleted is gone and has left what it was to leave, another
      one has its finalizer, and if it had it already is on the server. */
  predicate Done(s: State, copy: Object)
  {
    if copy.deleting then copy.finalizer ==> Latest(s).None? && NothingLeft(s)
    else if !copy.finalizer then Latest(s) == Some(copy.(finalizer := true))
    else s.onServer
  }

  /** What can stop a pass over version `at` besides a request that fails. */
  predicate Hindered(s: State, at: nat)
  {
    s.Cluster().Absent? || at != |s.versions| || !s.onServer
  }

  /** One pass over a version of an object, if the cache shows it. */
  method Reconcile(kind: Kind, w: World<State, Event>, version: nat) returns (outcome: Outcome)
    requires Manages(w, kind) && w.state.progress.Idle?
    modifies w
    ensures Manages(w, kind) && w.run.Continues(old(w.run)) && w.state.progress.Idle?
    ensures NothingLeft(w.state)
    ensures !Shows(old(w.state), version) ==> outcome.Ok? && w.state == old(w.state)
    ensures outcome.Ok? && Shows(old(w.state), version) ==> Done(w.state, old(w.state).versions[version - 1].value)
    ensures !outcome.Ok? ==> w.faults > old(w.faults) || Hindered(w.state, version)
  {
    if 0 < version && w.state.cached <= version <= |w.state.versions| && w.state.versions[version - 1].Some? {
      w.Do(Get(version));
      outcome := Handle(kind, w);
    } else {
      // Not found.
      outcome := Ok;
    }
    Stop(kind, w);
    InvAlways(kind, w.run, |w.run.events|);
  }

  method Stop(kind: Kind, w: World<State, Event>)
    requires Manages(w, kind)
    modifies w
    ensures Manages(w, kind) && w.run.Continues(old(w.run)) && w.state == old(w.state).(progress := Idle)
    ensures w.faults == old(w.faults)
  {
    if !w.state.progress.Idle? {
      w.Do(Crash);
    }
  }

  method Handle(kind: Kind, w: World<State, Event>) returns (outcome: Outcome)
    requires Manages(w, kind) && w.state.progress.Got?
    modifies w
    ensures Manages(w, kind) && w.run.Continues(old(w.run))
    ensures outcome.Ok? ==> Done(w.state, old(w.state).progress.copy)
    ensures !outcome.Ok? ==> w.faults > old(w.faults) || Hindered(w.state, old(w.state).progress.at)
  {
    if w.state.progress.copy.deleting {
      outcome := Finalize(kind, w);
    } else if !w.state.progress.copy.finalizer {
      outcome := EnsureFinalizer(kind, w);
    } else {
      outcome := Apply(kind, w);
    }
  }

  method EnsureFinalizer(kind: Kind, w: World<State, Event>) returns (outcome: Outcome)
    requires Manages(w, kind) && w.state.progress.Got?
    requires !w.state.progress.copy.deleting && !w.state.progress.copy.finalizer
    modifies w
    ensures Manages(w, kind) && w.run.Continues(old(w.run))
    ensures outcome.Ok? ==> EndsWith(w, AddFinalizer)
                            && Latest(w.state) == Some(old(w.state).progress.copy.(finalizer := true))
    ensures !outcome.Ok? ==> w.faults > old(w.faults) || old(w.state).progress.at != |w.state.versions|
  {
    Interfere(kind, w);
    var failed := w.Fails();
    if failed || w.state.progress.at != |w.state.versions| {
      // Among the failures: the object has changed since it was read.
      return Error;
    }
    w.Do(AddFinalizer);
    var lost := w.Fails();
    outcome := if lost then Error else Ok;
  }

  /** A Database that is there is left alone, a role that is there is altered, everything else is created. */
  method Apply(kind: Kind, w: World<State, Event>) returns (outcome: Outcome)
    requires Manages(w, kind) && w.state.progress.Got?
    requires !w.state.progress.copy.deleting && w.state.progress.copy.finalizer
    modifies w
    ensures Manages(w, kind) && w.run.Continues(old(w.run))
    ensures outcome.Ok? ==> w.state.onServer
    ensures outcome.Ok? ==> EndsWith(w, Send(Create))
                            || (kind.Role? && EndsWith(w, Send(Alter))) || (kind.Database? && EndsWith(w, StartApply))
    ensures !outcome.Ok? ==>
              w.faults > old(w.faults) || w.state.Cluster().Absent? || (kind.Role? && !w.state.onServer)
  {
    Interfere(kind, w);
    var failed := w.Fails();
    if failed || w.state.Cluster().Absent? {
      return Blocked;
    }
    w.Do(StartApply);
    var present := w.state.progress.present;
    if kind.Database? && present {
      return Ok;
    }
    outcome := SendApply(kind, w, if kind.Role? && present then Alter else Create);
  }

  method SendApply(kind: Kind, w: World<State, Event>, statement: Statement) returns (outcome: Outcome)
    requires Manages(w, kind) && w.state.progress.Applying?
    requires match statement {
               case Create => kind.ServerSecret? || !w.state.progress.present
               case Alter => kind.Role? && w.state.progress.present
               case Drop => false
             }
    modifies w
    ensures Manages(w, kind) && w.run.Continues(old(w.run))
    ensures outcome.Ok? ==> EndsWith(w, Send(statement)) && w.state.onServer
    ensures w.faults >= old(w.faults)
    ensures !outcome.Ok? ==> w.faults > old(w.faults) || w.state.Cluster().Absent?
                             || (statement.Alter? && !w.state.onServer)
  {
    Interfere(kind, w);
    var failed := w.Fails();
    if failed || w.state.Cluster().Absent? || (statement.Alter? && !w.state.onServer) {
      return Error;
    }
    w.Do(Send(statement));
    var lost := w.Fails();
    outcome := if lost then Error else Ok;
  }

  /** Success leaves no object: the finalizer is removed, after the object is off the server unless nobody wanted that
      or the SereneDB that was read was going, or the object is found to be gone already. */
  method Finalize(kind: Kind, w: World<State, Event>) returns (outcome: Outcome)
    requires Manages(w, kind) && w.state.progress.Got? && w.state.progress.copy.deleting
    modifies w
    ensures Manages(w, kind) && w.run.Continues(old(w.run))
    ensures !old(w.state).progress.copy.finalizer ==> outcome.Ok? && w.run == old(w.run)
    ensures kind != ServerSecret && old(w.state).progress.copy.policy == Retain ==> NoDropSince(w, |old(w.run.events)|)
    ensures outcome.Ok? && old(w.state).progress.copy.finalizer ==>
              && Latest(w.state).None? && NothingLeft(w.state)
              && (w.state.progress.Cleared?
                  || (EndsWith(w, RemoveFinalizer) && w.state.farewell.Some?
                      && w.state.farewell.value.policy == old(w.state).progress.copy.policy))
    ensures !outcome.Ok? ==> w.faults > old(w.faults) || Hindered(w.state, old(w.state).progress.at)
  {
    if !w.state.progress.copy.finalizer {
      return Ok;
    }
    outcome := ReadCluster(kind, w);
    if outcome.Ok? {
      outcome := DropOnServer(kind, w);
    }
    if outcome.Ok? {
      outcome := LetGo(kind, w);
    }
  }

  /** The SereneDB is read from its cache. */
  method ReadCluster(kind: Kind, w: World<State, Event>) returns (outcome: Outcome)
    requires Manages(w, kind) && w.state.progress.Got?
    requires w.state.progress.copy.deleting && w.state.progress.copy.finalizer
    modifies w
    ensures Manages(w, kind) && w.run.Continues(old(w.run)) && NoDropSince(w, |old(w.run.events)|)
    ensures outcome.Ok? ==>
              var p, q := old(w.state).progress, w.state.progress;
              q.Finalizing? && q.copy == p.copy && q.at == p.at
    ensures w.faults >= old(w.faults) && (!outcome.Ok? ==> w.faults > old(w.faults))
  {
    Interfere(kind, w);
    var cluster: int := *;
    if !(w.state.seen <= cluster < |w.state.clusters|) {
      // The SereneDB could not be read.
      w.Fault();
      return Error;
    }
    w.Do(CheckCluster(cluster));
    outcome := Ok;
  }

  method LetGo(kind: Kind, w: World<State, Event>) returns (outcome: Outcome)
    requires Manages(w, kind) && w.state.progress.Cleared?
    modifies w
    ensures Manages(w, kind) && w.run.Continues(old(w.run)) && NoDropSince(w, |old(w.run.events)|)
    ensures outcome.Ok? ==> var p := old(w.state).progress;
                            && Latest(w.state).None? && NothingLeft(w.state)
                            && (w.state.progress == p
                                || (EndsWith(w, RemoveFinalizer)
                                    && w.state.farewell == Some(Farewell(p.copy.policy, p.gone))))
    ensures w.faults >= old(w.faults)
    ensures !outcome.Ok? ==> w.faults > old(w.faults) || old(w.state).progress.at != |w.state.versions|
  {
    Interfere(kind, w);
    var failed := w.Fails();
    if !failed && Latest(w.state).None? {
      // Not found: an earlier pass has removed the finalizer, or nothing held the object.
      outcome := Ok;
    } else if failed || w.state.progress.at != |w.state.versions| {
      outcome := Error;
    } else {
      w.Do(RemoveFinalizer);
      var lost := w.Fails();
      outcome := if lost then Error else Ok;
    }
    InvAlways(kind, w.run, |w.run.events|);
  }

  /** Success means there is nothing left to drop. */
  method DropOnServer(kind: Kind, w: World<State, Event>) returns (outcome: Outcome)
    requires Manages(w, kind) && w.state.progress.Finalizing?
    modifies w
    ensures Manages(w, kind) && w.run.Continues(old(w.run))
    ensures outcome.Ok? ==>
              var p := old(w.state).progress;
              && w.state.progress == Cleared(p.copy, p.at, p.gone)
              && ((kind == ServerSecret || p.copy.policy == Delete) && !p.gone ==> !w.state.onServer)
    ensures kind != ServerSecret && old(w.state).progress.copy.policy == Retain ==> NoDropSince(w, |old(w.run.events)|)
    ensures old(w.state).progress.gone ==> NoDropSince(w, |old(w.run.events)|)
    ensures w.faults >= old(w.faults)
    ensures !outcome.Ok? ==> w.faults > old(w.faults) || w.state.Cluster().Absent? || !w.state.onServer
  {
    if !WantsDrop(kind, w.state.progress.copy) || w.state.progress.gone {
      w.Do(SkipDrop);
      return Ok;
    }
    outcome := DropIfPresent(kind, w);
  }

  /** A query for what is there decides whether a DROP is sent. */
  method DropIfPresent(kind: Kind, w: World<State, Event>) returns (outcome: Outcome)
    requires Manages(w, kind) && w.state.progress.Finalizing? && !w.state.progress.gone
    requires WantsDrop(kind, w.state.progress.copy)
    modifies w
    ensures Manages(w, kind) && w.run.Continues(old(w.run)) && w.faults >= old(w.faults)
    ensures outcome.Ok? ==>
              var p := old(w.state).progress; w.state.progress == Cleared(p.copy, p.at, false) && !w.state.onServer
    ensures !outcome.Ok? ==> w.faults > old(w.faults) || w.state.Cluster().Absent? || !w.state.onServer
  {
    Interfere(kind, w);
    var failed := w.Fails();
    if failed || w.state.Cluster().Absent? {
      return Blocked;
    }
    w.Do(StartDrop);
    if w.state.progress.Cleared? {
      return Ok;
    }
    outcome := SendDrop(kind, w);
  }

  method SendDrop(kind: Kind, w: World<State, Event>) returns (outcome: Outcome)
    requires Manages(w, kind) && w.state.progress.Dropping?
    modifies w
    ensures Manages(w, kind) && w.run.Continues(old(w.run))
    ensures outcome.Ok? ==>
              var p := old(w.state).progress;
              EndsWith(w, Send(Drop)) && w.state.progress == Cleared(p.copy, p.at, false) && !w.state.onServer
    ensures w.faults >= old(w.faults)
    ensures !outcome.Ok? ==> w.faults > old(w.faults) || w.state.Cluster().Absent? || !w.state.onServer
  {
    Interfere(kind, w);
    var failed := w.Fails();
    if failed || w.state.Cluster().Absent? || !w.state.onServer {
      return Error;
    }
    w.Do(Send(Drop));
    var lost := w.Fails();
    outcome := if lost then Error else Ok;
  }

  method Interfere(kind: Kind, w: World<State, Event>)
    requires Manages(w, kind)
    modifies w
    ensures Manages(w, kind) && w.run.Continues(old(w.run))
    ensures w.state.progress == old(w.state).progress && NoDropSince(w, |old(w.run.events)|)
    ensures w.faults == old(w.faults)
  {
    ghost var before, entry := |w.run.events|, w.state;
    w.Others();
    ExternalInvariance(Protocol(kind),
        (s: State) => s.progress == entry.progress && s.kind == entry.kind, w.run, before,
                       |w.run.events|);
  }
}
