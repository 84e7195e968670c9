/** A role's password on the server and the version of its Secret recorded in the DatabaseRole's status. The Secret's
    name and key are fixed, nobody else creates the role or sets its password. Both the Secret and the DatabaseRole are
    read from a cache that may be old but never goes back. */
module RolePassword {
  import opened Machines

  const NUL: char := 0 as char

  /** What a pass reads of the DatabaseRole: whether `spec.passwordSecret` is set, and `status.passwordSecretVersion`,
      where 0 stands for the empty one. */
  datatype Role = Role(wanted: bool, stored: nat)

  /** `versions[v - 1]` is what the Secret held under the key at resource version v, None once it or its key was gone;
      later versions come later. `objects` are all versions of the DatabaseRole. `role` is the server's role with its
      password; `bare` says that it was created without one and has not been given one since. */
  datatype State = State(
    versions: seq<Option<string>>, cached: nat, objects: seq<Role>, seen: nat,
    role: Option<Option<string>>, bare: bool, progress: Progress)

  /** How far the running pass has come; `copied` is the recorded version it read along with the object. */
  datatype Progress =
    | Idle
    | Begun(wanted: bool, copied: nat)
    | Read(copied: nat, password: Option<string>, version: nat)
    | Checked(copied: nat, password: Option<string>, version: nat, present: bool)
    | Executed(copied: nat, version: nat)

  datatype Event =
    | UpdateSecret(content: Option<string>)
    | SetPasswordSecret(wanted: bool)
    | RecreateObject(wanted: bool)
    | DropOnServer
    | Begin(copy: nat)
    | ReadSecret(version: nat)
    | SkipSecret
    | CheckPresent
    | ExecRole
    | PatchStatus
    | Crash

  predicate External(e: Event)
  {
    e.UpdateSecret? || e.SetPasswordSecret? || e.RecreateObject? || e.DropOnServer?
  }

  /** The password goes into the statement on creation and whenever the Secret's version is not the recorded one. */
  function PasswordToSend(password: Option<string>, version: nat, copied: nat, present: bool): Option<string>
  {
    if password.Some? && (!present || version != copied) then password else None
  }

  predicate Renderable(password: Option<string>)
  {
    password.Some? ==> NUL !in password.value
  }

  /** The versions of the Secret that the cache may show and that hold the key. */
  predicate Readable(s: State, version: nat)
  {
    0 < version && s.cached <= version <= |s.versions| && s.versions[version - 1].Some?
  }

  predicate Enabled(s: State, e: Event)
  {
    match e
    case UpdateSecret(_) => true
    case SetPasswordSecret(_) => s.objects != []
    case RecreateObject(_) => true
    case DropOnServer => s.role.Some?
    case Begin(copy) => s.progress.Idle? && s.seen <= copy < |s.objects|
    case ReadSecret(v) => s.progress.Begun? && s.progress.wanted && Readable(s, v)
    case SkipSecret => s.progress.Begun? && !s.progress.wanted
    case CheckPresent => s.progress.Read?
    case ExecRole =>
      && s.progress.Checked? && s.progress.present == s.role.Some?
      && Renderable(Sent(s.progress))
    case PatchStatus => s.progress.Executed? && s.objects != []
    case Crash => !s.progress.Idle?
  }

  function Sent(p: Progress): Option<string>
    requires p.Checked?
  {
    PasswordToSend(p.password, p.version, p.copied, p.present)
  }

  function Latest(s: State): Role
    requires s.objects != []
  {
    s.objects[|s.objects| - 1]
  }

  function Step(s: State, e: Event): State
  {
    if !Enabled(s, e) then s else
    match e
    case UpdateSecret(content) => s.(versions := s.versions + [content])
    case SetPasswordSecret(wanted) => s.(objects := s.objects + [Latest(s).(wanted := wanted)])
    case RecreateObject(wanted) => s.(objects := s.objects + [Role(wanted, 0)])
    case DropOnServer => s.(role := None, bare := false)
    case Begin(copy) => s.(seen := copy, progress := Begun(s.objects[copy].wanted, s.objects[copy].stored))
    case ReadSecret(v) => s.(cached := v, progress := Read(s.progress.copied, s.versions[v - 1], v))
    case SkipSecret => s.(progress := Read(s.progress.copied, None, 0))
    case CheckPresent =>
      s.(progress := Checked(s.progress.copied, s.progress.password, s.progress.version, s.role.Some?))
    case ExecRole =>
      var sent := Sent(s.progress);
      s.(role := if s.role.None? || sent.Some? then Some(sent) else s.role,
         bare := sent.None? && (s.role.None? || s.bare),
         progress := Executed(s.progress.copied, s.progress.version))
    case PatchStatus =>
      // The patch holds the recorded version only if the pass changed its copy.
      var stored := if s.progress.version == s.progress.copied then Latest(s).stored else s.progress.version;
      s.(objects := s.objects + [Latest(s).(stored := stored)], progress := Idle)
    case Crash => s.(progress := Idle)
  }

  const NEW := State([], 0, [], 0, None, false, Idle)
  const PROTOCOL: Machine<State, Event> := Machine(NEW, Enabled, Step, External)

  /** The version on record is the Secret's present one. */
  predicate UpToDate(s: State)
  {
    s.objects != [] && 0 < Latest(s).stored == |s.versions|
  }

  /** When the recorded version is the Secret's present one, the server has the Secret's present value. */
  predicate PasswordCurrent(s: State)
  {
    UpToDate(s) && s.role.Some? ==> s.role.value.Some? && s.role.value == s.versions[|s.versions| - 1]
  }

  /** If the role exists and is not bare, its password is one the Secret held at version `v` or a later one already
      read. Equality with version `v` itself would be too much: an ALTER may have gone through while its status write
      did not. */
  ghost predicate WrittenSince(s: State, v: nat)
  {
    0 < v && s.role.Some? && !s.bare ==>
      s.role.value.Some? && exists j :: v - 1 <= j < s.cached && j < |s.versions| && s.versions[j] == s.role.value
  }

  /** Every version ever on record, in whatever copy the cache still shows, was read before and written since. */
  ghost predicate Inv(s: State)
  {
    && s.cached <= |s.versions|
    && (s.bare ==> s.role == Some(None))
    && (s.role == Some(None) ==> s.bare)
    && (forall k | 0 <= k < |s.objects| :: s.objects[k].stored <= s.cached && WrittenSince(s, s.objects[k].stored))
    && ProgressInv(s, s.progress)
  }

  ghost predicate ProgressInv(s: State, p: Progress)
  {
    match p
    case Idle => true
    case Begun(_, copied) => copied <= s.cached && WrittenSince(s, copied)
    case Read(copied, password, version) =>
      copied <= s.cached && WrittenSince(s, copied) && ReadInv(s, password, version)
    case Checked(copied, password, version, _) =>
      copied <= s.cached && WrittenSince(s, copied) && ReadInv(s, password, version)
    case Executed(_, version) => version <= s.cached && WrittenSince(s, version)
  }

  predicate ReadInv(s: State, password: Option<string>, version: nat)
  {
    && version <= s.cached <= |s.versions|
    && (if password.Some? then 0 < version == s.cached && s.versions[version - 1] == password else version == 0)
  }

  lemma InvStep(s: State, e: Event)
    requires Inv(s) && Enabled(s, e)
    ensures Inv(Step(s, e))
  {
    match e {
      case UpdateSecret(_) => SecretUpdated(s, e);
      case ExecRole => RoleExecuted(s);
      case PatchStatus => StatusPatched(s);
      case _ => NothingWritten(s, e);
    }
  }

  lemma SecretUpdated(s: State, e: Event)
    requires Inv(s) && Enabled(s, e) && e.UpdateSecret?
    ensures Inv(Step(s, e))
  {
    assert forall j | 0 <= j < |s.versions| :: Step(s, e).versions[j] == s.versions[j];
    assert forall v :: WrittenSince(s, v) ==> WrittenSince(Step(s, e), v);
  }

  lemma RoleExecuted(s: State)
    requires Inv(s) && Enabled(s, ExecRole)
    ensures Inv(Step(s, ExecRole))
  {
    if s.progress.password.Some? {
      assert s.versions[s.progress.version - 1] == s.progress.password;
    }
    var s' := Step(s, ExecRole);
    forall v: nat | v <= s.cached && WrittenSince(s, v) ensures WrittenSince(s', v) {}
  }

  lemma StatusPatched(s: State)
    requires Inv(s) && Enabled(s, PatchStatus)
    ensures Inv(Step(s, PatchStatus))
  {
    assert WrittenSince(s, Latest(s).stored);
  }

  lemma NothingWritten(s: State, e: Event)
    requires Inv(s) && Enabled(s, e) && !e.UpdateSecret? && !e.ExecRole? && !e.PatchStatus?
    ensures Inv(Step(s, e))
  {
  }

  lemma InvAlways(run: Run<State, Event>, i: nat)
    requires run.Of(PROTOCOL) && i < |run.states|
    ensures Inv(run.states[i])
  {
    forall s, e | Inv(s) && Enabled(s, e) ensures Inv(Step(s, e)) {
      InvStep(s, e);
    }
    Invariance(PROTOCOL, s => Inv(s), run, i);
  }

  /** At every moment of every run the promise holds unless the version on record is the present one and the role is
      bare, and exactly then it fails. */
  lemma PasswordCurrentExactlyWhen(run: Run<State, Event>, i: nat)
    requires run.Of(PROTOCOL) && i < |run.states|
    ensures PasswordCurrent(run.states[i]) <==> !(run.states[i].bare && UpToDate(run.states[i]))
  {
    InvAlways(run, i);
    var s := run.states[i];
    if s.objects != [] {
      assert WrittenSince(s, s.objects[|s.objects| - 1].stored);
    }
  }

  /** A role becomes bare only by a CREATE of a pass that saw the reference unset. */
  lemma OnlyUnsetReferenceBares(run: Run<State, Event>, i: nat)
    requires run.Of(PROTOCOL) && i < |run.events| && !run.states[i].bare && run.states[i + 1].bare
    ensures run.events[i].ExecRole? && run.states[i].role.None?
    ensures run.states[i].progress.password.None? && run.states[i].progress.version == 0
  {
    InvAlways(run, i);
    assert Enabled(run.states[i], run.events[i]);
  }

  /** The failure is reachable: with the reference unset, the role is dropped and created again without a password, the
      status write is lost, and the old version is still on record when the reference comes back. A whole further pass
      changes nothing. */
  lemma UnsetReferenceLosesPassword() returns (run: Run<State, Event>, later: Run<State, Event>)
    ensures run.Of(PROTOCOL) && run.Last().objects != [] && Latest(run.Last()).wanted && !PasswordCurrent(run.Last())
    ensures later.events == run.events + PassEvents(3, 1)
    ensures later.Of(PROTOCOL) && !PasswordCurrent(later.Last())
  {
    run := PasswordApplied();
    run := Prolong(PROTOCOL, run, SetPasswordSecret(false));
    run := Prolong(PROTOCOL, run, DropOnServer);
    run := Prolong(PROTOCOL, run, Begin(2));
    run := Prolong(PROTOCOL, run, SkipSecret);
    run := Prolong(PROTOCOL, run, CheckPresent);
    run := Prolong(PROTOCOL, run, ExecRole);
    run := Prolong(PROTOCOL, run, Crash);
    run := Prolong(PROTOCOL, run, SetPasswordSecret(true));
    assert run.Last() == State([Some("p")], 1, [Role(true, 0), Role(true, 1), Role(false, 1), Role(true, 1)], 2,
                               Some(None), true, Idle);
    later := Pass(run);
  }

  lemma PasswordApplied() returns (run: Run<State, Event>)
    ensures run.Of(PROTOCOL)
    ensures run.Last() == State([Some("p")], 1, [Role(true, 0), Role(true, 1)], 0, Some(Some("p")), false, Idle)
  {
    run := Run([NEW], []);
    run := Prolong(PROTOCOL, run, UpdateSecret(Some("p")));
    run := Prolong(PROTOCOL, run, RecreateObject(true));
    run := Pass(run);
  }

  function PassEvents(copy: nat, version: nat): seq<Event>
  {
    [Begin(copy), ReadSecret(version), CheckPresent, ExecRole, PatchStatus]
  }

  /** The exact effect of a pass that reads the latest versions and that nothing disturbs: the recorded version is the
      Secret's, and the password was sent if the role was missing or another version was on record. */
  lemma Pass(run: Run<State, Event>) returns (later: Run<State, Event>)
    requires run.Of(PROTOCOL) && run.Last().progress.Idle?
    requires run.Last().objects != [] && Latest(run.Last()).wanted && run.Last().seen < |run.Last().objects|
    requires Readable(run.Last(), |run.Last().versions|)
    requires Renderable(run.Last().versions[|run.Last().versions| - 1])
    ensures later.Of(PROTOCOL)
    ensures later.events == run.events + PassEvents(|run.Last().objects| - 1, |run.Last().versions|)
    ensures later.Last() == AfterPass(run.Last())
  {
    later := ReadLatest(run);
    EndOfPass(run.Last());
    later := ExecAndPatch(later);
  }

  /** The latest versions are read, and whether the role is there. */
  function Informed(s: State): State
    requires s.objects != [] && s.versions != []
  {
    var v := |s.versions|;
    s.(cached := v, seen := |s.objects| - 1, progress := Checked(Latest(s).stored, s.versions[v - 1], v, s.role.Some?))
  }

  lemma ReadLatest(run: Run<State, Event>) returns (later: Run<State, Event>)
    requires run.Of(PROTOCOL) && run.Last().progress.Idle?
    requires run.Last().objects != [] && Latest(run.Last()).wanted && run.Last().seen < |run.Last().objects|
    requires Readable(run.Last(), |run.Last().versions|)
    ensures later.Of(PROTOCOL) && later.Last() == Informed(run.Last())
    ensures later.events == run.events + PassEvents(|run.Last().objects| - 1, |run.Last().versions|)[..3]
  {
    later := Prolong(PROTOCOL, run, Begin(|run.Last().objects| - 1));
    later := Prolong(PROTOCOL, later, ReadSecret(|run.Last().versions|));
    later := Prolong(PROTOCOL, later, CheckPresent);
  }

  lemma EndOfPass(s: State)
    requires s.progress.Idle? && s.objects != [] && Readable(s, |s.versions|)
    requires Renderable(s.versions[|s.versions| - 1])
    ensures Enabled(Informed(s), ExecRole) && Step(Step(Informed(s), ExecRole), PatchStatus) == AfterPass(s)
  {
  }

  lemma ExecAndPatch(run: Run<State, Event>) returns (later: Run<State, Event>)
    requires run.Of(PROTOCOL) && Enabled(run.Last(), ExecRole) && run.Last().objects != []
    ensures later.Of(PROTOCOL) && later.events == run.events + [ExecRole, PatchStatus]
    ensures later.Last() == Step(Step(run.Last(), ExecRole), PatchStatus)
  {
    later := Prolong(PROTOCOL, run, ExecRole);
    later := Prolong(PROTOCOL, later, PatchStatus);
  }

  function AfterPass(s: State): State
    requires s.objects != [] && s.versions != []
  {
    var v, password := |s.versions|, s.versions[|s.versions| - 1];
    var send := s.role.None? || Latest(s).stored != v;
    s.(cached := v, seen := |s.objects| - 1, objects := s.objects + [Latest(s).(stored := v)],
       role := if send then Some(password) else s.role, bare := s.bare && !send)
  }

  datatype Outcome = Ok | Blocked | Error

  /** The state that the last event of the history of `w` acted on. */
  ghost function Before(w: World<State, Event>): State
    requires w.Runs(PROTOCOL) && w.run.events != []
    reads w`run, w`state
  {
    w.run.states[|w.run.events| - 1]
  }

  /** What ends a pass that reads version `version` of the Secret, besides a request that fails: that version is not
      there, the password has a NUL, or the role came or went after the query for it. */
  predicate Obstructed(s: State, version: nat)
  {
    match s.progress
    case Begun(wanted, _) => wanted && !Readable(s, version)
    case Checked(copied, password, read, present) =>
      || (password.Some? && (!present || read != copied) && '\0' in password.value)
      || present != s.role.Some?
    case _ => false
  }

  /** One pass over version `copy` of a DatabaseRole that has its finalizer, if the cache shows it. The cache of Secrets
      shows `version`. */
  method Reconcile(w: World<State, Event>, copy: nat, version: nat) returns (outcome: Outcome)
    requires w.Runs(PROTOCOL) && w.state.progress.Idle?
    modifies w
    ensures w.Runs(PROTOCOL) && w.run.Continues(old(w.run)) && w.state.progress.Idle?
    ensures PasswordCurrent(w.state) <==> !(w.state.bare && UpToDate(w.state))
    ensures !(old(w.state).seen <= copy < |old(w.state).objects|) ==> outcome.Ok? && w.state == old(w.state)
    ensures outcome.Ok? && old(w.state).seen <= copy < |old(w.state).objects| ==>
              w.run.events != [] && w.run.events[|w.run.events| - 1] == PatchStatus
    ensures !outcome.Ok? ==> w.faults > old(w.faults) || (w.run.events != [] && Obstructed(Before(w), version))
  {
    if w.state.seen <= copy < |w.state.objects| {
      outcome := ApplyAndReport(w, copy, version);
    } else {
      // Not found.
      outcome := Ok;
    }
    PasswordCurrentExactlyWhen(w.run, |w.run.events|);
  }

  /** The pass over a version that the cache shows. */
  method ApplyAndReport(w: World<State, Event>, copy: nat, version: nat) returns (outcome: Outcome)
    requires w.Runs(PROTOCOL) && Enabled(w.state, Begin(copy))
    modifies w
    ensures w.Runs(PROTOCOL) && w.run.Continues(old(w.run)) && w.state.progress.Idle?
    ensures outcome.Ok? ==> w.run.events != [] && w.run.events[|w.run.events| - 1] == PatchStatus
    ensures !outcome.Ok? ==> w.faults > old(w.faults) || (w.run.events != [] && Obstructed(Before(w), version))
  {
    w.Do(Begin(copy));
    outcome := Apply(w, version);
    outcome := ReportStatus(w, outcome);
  }

  /** The patch put the version read on record, or left what was there when that is the one of the copy. */
  predicate Recorded(p: Progress, before: State, after: State)
  {
    && p.Executed? && before.objects != [] && after.objects != []
    && Latest(after).stored == if p.version != p.copied then p.version else Latest(before).stored
  }

  method ReportStatus(w: World<State, Event>, result: Outcome) returns (outcome: Outcome)
    requires w.Runs(PROTOCOL) && !w.state.progress.Idle? && w.state.objects != []
    requires result.Ok? ==> w.state.progress.Executed?
    modifies w
    ensures w.Runs(PROTOCOL) && old(w.run.events) < w.run.events && w.state.progress.Idle?
    ensures outcome.Ok? ==> w.run.events[|w.run.events| - 1] == PatchStatus
    ensures w.faults >= old(w.faults) && (!outcome.Ok? ==> w.faults > old(w.faults) || Before(w) == old(w.state))
    ensures outcome == result || (outcome.Error? && w.faults > old(w.faults))
  {
    if result.Ok? {
      outcome := RecordVersion(w);
    } else {
      // A pass that failed patches its conditions only.
      GiveUp(w);
      outcome := result;
    }
  }

  method RecordVersion(w: World<State, Event>) returns (outcome: Outcome)
    requires w.Runs(PROTOCOL) && w.state.progress.Executed? && w.state.objects != []
    modifies w
    ensures w.Runs(PROTOCOL) && old(w.run.events) < w.run.events && w.state.progress.Idle?
    ensures outcome.Ok? ==>
              && w.run.events[|w.run.events| - 1] == PatchStatus
              && Recorded(old(w.state.progress), Before(w), w.state)
    ensures !outcome.Blocked? && w.faults >= old(w.faults) && (outcome.Error? ==> w.faults > old(w.faults))
  {
    var failed := Meanwhile(w);
    if failed {
      GiveUp(w);
    } else {
      SendPatch(w);
    }
    // The answer may get lost.
    var lost := w.Fails();
    outcome := if failed || lost then Error else Ok;
  }

  method GiveUp(w: World<State, Event>)
    requires w.Runs(PROTOCOL) && !w.state.progress.Idle?
    modifies w
    ensures w.Runs(PROTOCOL) && old(w.run.events) < w.run.events && w.faults == old(w.faults)
    ensures w.state == old(w.state).(progress := Idle) && Before(w) == old(w.state)
  {
    w.Do(Crash);
  }

  method SendPatch(w: World<State, Event>)
    requires w.Runs(PROTOCOL) && w.state.progress.Executed? && w.state.objects != []
    modifies w
    ensures w.Runs(PROTOCOL) && old(w.run.events) < w.run.events && w.faults == old(w.faults)
    ensures w.run.events[|w.run.events| - 1] == PatchStatus
    ensures w.state.progress.Idle? && Recorded(old(w.state.progress), Before(w), w.state)
  {
    w.Do(PatchStatus);
  }

  method Apply(w: World<State, Event>, version: nat) returns (outcome: Outcome)
    requires w.Runs(PROTOCOL) && w.state.progress.Begun? && w.state.objects != []
    modifies w
    ensures w.Runs(PROTOCOL) && w.run.Continues(old(w.run)) && !w.state.progress.Idle?
    ensures outcome.Ok? ==> w.state.progress.Executed? && w.state.role.Some?
    ensures outcome.Ok? && !old(w.state.progress).wanted ==> w.state.progress.version == 0
    ensures w.faults >= old(w.faults) && w.state.objects != []
    ensures !outcome.Ok? ==> w.faults > old(w.faults) || Obstructed(w.state, version)
  {
    outcome := ReadPassword(w, version);
    if !outcome.Ok? {
      return;
    }
    var refused := Meanwhile(w);
    if refused {
      // No session could be opened.
      return Blocked;
    }
    var failed := w.Fails();
    if failed {
      return Error;
    }
    w.Do(CheckPresent);
    outcome := ExecStatement(w);
  }

  /** CREATE or ALTER, by the answer of the existence query. The password is in the statement on creation and whenever
      the version read is not the one recorded in the copy; a password with a NUL blocks. */
  method ExecStatement(w: World<State, Event>) returns (outcome: Outcome)
    requires w.Runs(PROTOCOL) && w.state.progress.Checked?
    modifies w
    ensures w.Runs(PROTOCOL) && w.run.Continues(old(w.run)) && !w.state.progress.Idle?
    ensures outcome.Blocked? <==> !Renderable(Sent(old(w.state.progress)))
    ensures (outcome.Blocked? ==> w.run == old(w.run)) && |old(w.state).objects| <= |w.state.objects|
    ensures outcome.Blocked? <==>
              var p := old(w.state.progress);
              p.password.Some? && (!p.present || p.version != p.copied) && '\0' in p.password.value
    ensures outcome.Ok? ==>
              var p, sent := old(w.state.progress), Sent(old(w.state.progress));
              && w.run.events != [] && Before(w).role.Some? == p.present
              && w.state.role == (if sent.Some? || !p.present then Some(sent) else Before(w).role)
              && w.state.progress == Executed(p.copied, p.version)
    ensures outcome.Ok? ==>
              var p := old(w.state.progress);
              && (p.present && p.version == p.copied ==> w.state.role == Before(w).role)
              && (p.present && p.password.None? ==> w.state.role == Before(w).role)
              && (p.password.Some? && (!p.present || p.version != p.copied) ==> w.state.role == Some(p.password))
              && (!p.present && p.password.None? ==> w.state.role == Some(None))
    ensures outcome.Error? ==>
              || w.faults > old(w.faults)
              || (w.state.progress == old(w.state.progress) && w.state.progress.present != w.state.role.Some?)
    ensures w.faults >= old(w.faults) && (outcome.Blocked? ==> w.state == old(w.state))
  {
    var Checked(copied, password, version, present) := w.state.progress;
    var sent: Option<string> := None;
    if password.Some? && (!present || version != copied) {
      sent := password;
    }
    if !Renderable(sent) {
      return Blocked;
    }
    outcome := SendRole(w, sent);
  }

  /** One request with the statement, which fails when the existence query's answer no longer holds. */
  method SendRole(w: World<State, Event>, sent: Option<string>) returns (outcome: Outcome)
    requires w.Runs(PROTOCOL) && w.state.progress.Checked? && sent == Sent(w.state.progress) && Renderable(sent)
    modifies w
    ensures w.Runs(PROTOCOL) && w.run.Continues(old(w.run)) && !outcome.Blocked? && !w.state.progress.Idle?
    ensures |old(w.state).objects| <= |w.state.objects|
    ensures outcome.Ok? ==>
              var p := old(w.state.progress);
              && w.run.events != [] && Before(w).role.Some? == p.present
              && w.state.role == (if sent.Some? || !p.present then Some(sent) else Before(w).role)
              && w.state.progress == Executed(p.copied, p.version)
    ensures w.faults >= old(w.faults)
    ensures outcome.Error? ==>
              || w.faults > old(w.faults)
              || (w.state.progress == old(w.state.progress) && w.state.progress.present != w.state.role.Some?)
  {
    var failed := Meanwhile(w);
    if failed || w.state.progress.present != w.state.role.Some? {
      // Among the failures: ALTER ROLE on a role that is gone.
      return Error;
    }
    Execute(w, sent);
    // The answer may get lost, or the memberships not converge.
    var lost := w.Fails();
    outcome := if lost then Error else Ok;
  }

  method Execute(w: World<State, Event>, sent: Option<string>)
    requires w.Runs(PROTOCOL) && w.state.progress.Checked? && w.state.progress.present == w.state.role.Some?
    requires sent == Sent(w.state.progress) && Renderable(sent)
    modifies w
    ensures w.Runs(PROTOCOL) && old(w.run.events) < w.run.events && w.faults == old(w.faults)
    ensures Before(w) == old(w.state) && w.state.objects == old(w.state).objects
    ensures w.state.progress == Executed(old(w.state.progress).copied, old(w.state.progress).version)
    ensures w.state.role == if sent.Some? || old(w.state).role.None? then Some(sent) else old(w.state).role
  {
    w.Do(ExecRole);
  }

  /** The Secret's value at `version`, which the cache shows, or nothing when the reference is unset; a missing Secret
      or key blocks. */
  method ReadPassword(w: World<State, Event>, version: nat) returns (outcome: Outcome)
    requires w.Runs(PROTOCOL) && w.state.progress.Begun?
    modifies w
    ensures w.Runs(PROTOCOL) && w.run.Continues(old(w.run))
    ensures if outcome.Ok? then w.state.progress.Read? else w.state.progress == old(w.state.progress)
    ensures !old(w.state.progress).wanted
        ==> outcome.Ok? && w.state.progress == Read(old(w.state.progress).copied, None, 0)
    ensures outcome.Ok? && old(w.state.progress).wanted ==>
              && 0 < version <= |w.state.versions| && w.state.versions[version - 1].Some?
              && w.state.progress == Read(old(w.state.progress).copied, w.state.versions[version - 1], version)
    ensures outcome.Blocked? ==> old(w.state.progress).wanted && !Readable(w.state, version)
    ensures outcome.Blocked? ==>
              version == 0 || version < w.state.cached || version > |w.state.versions|
              || w.state.versions[version - 1].None?
    ensures |old(w.state).objects| <= |w.state.objects|
    ensures w.faults >= old(w.faults) && (outcome.Error? ==> w.faults > old(w.faults))
  {
    if !w.state.progress.wanted {
      w.Do(SkipSecret);
      return Ok;
    }
    var failed := Meanwhile(w);
    if failed {
      return Error;
    }
    if 0 < version && Readable(w.state, version) {
      // The cache holds this version.
      w.Do(ReadSecret(version));
      outcome := Ok;
    } else {
      outcome := Blocked;
    }
  }

  /** Others act before the next request, which may fail. */
  method Meanwhile(w: World<State, Event>) returns (failed: bool)
    requires w.Runs(PROTOCOL)
    modifies w
    ensures w.Runs(PROTOCOL) && w.run.Continues(old(w.run))
    ensures w.state.progress == old(w.state).progress && |old(w.state).objects| <= |w.state.objects|
    ensures w.faults == old(w.faults) + if failed then 1 else 0
  {
    Interfere(w);
    failed := w.Fails();
  }

  method Interfere(w: World<State, Event>)
    requires w.Runs(PROTOCOL)
    modifies w
    ensures w.Runs(PROTOCOL) && w.run.Continues(old(w.run))
    ensures w.state.progress == old(w.state).progress && w.faults == old(w.faults)
    ensures |old(w.state).objects| <= |w.state.objects|
  {
    ghost var before, entry := |w.run.events|, w.state;
    w.Others();
    ExternalInvariance(PROTOCOL, (s: State) => s.progress == entry.progress && |entry.objects| <= |s.objects|, w.run,
                       before, |w.run.events|);
  }
}
