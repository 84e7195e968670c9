/** The generated superuser Secret and the data volume initialised with it: who owns them, and which of them a
    deletion of the SereneDB takes along. `auth` is fixed with no existing Secret, the claim comes from the template,
    there is no bootstrap, and nobody else touches the Secret or the StatefulSet. The SereneDB, the Secret and the
    StatefulSet are read from a cache that may be old but never goes back. */
module SecretLifetime {
  import opened Machines

  const PASSWORD_KEY := "postgres-password"

  datatype Database = Database(uid: nat, whenDeleted: string)
  datatype Secret = Secret(owner: Option<nat>, data: map<string, string>)
  datatype ClaimPolicy = Retain | Delete
  datatype StatefulSet = StatefulSet(owner: nat, whenDeleted: ClaimPolicy)

  /** `initial` is the password the data directory was initialised with; None while it is still empty. */
  datatype Volume = Volume(initial: Option<string>)

  /** How far the one running reconcile of this object has come, with the copies it works on; `at` is the version of the
      StatefulSet that was read. */
  datatype Progress =
    | Idle
    | Begun(db: Database)
    | SecretRead(db: Database, seen: Option<Secret>)
    | SecretDone(db: Database)
    | SetRead(db: Database, found: Option<StatefulSet>, at: nat)
    | SetDone(db: Database)

  /** `copies`, `secrets` and `sets` are all versions of the SereneDB, the Secret and the StatefulSet of the name, None
      where there was none. `dead` holds the uids of deleted SereneDBs. `applied` says that
      the last pass completed for the present SereneDB, `current` that the running pass read only present versions,
      `settled` that the last pass did both and nobody has edited the SereneDB since. */
  datatype State = State(
    copies: seq<Option<Database>>, copyAt: nat, secrets: seq<Option<Secret>>, secretAt: nat,
    sets: seq<Option<StatefulSet>>, setAt: nat, volume: Option<Volume>, progress: Progress,
    applied: bool, current: bool, settled: bool, dead: set<nat>, nextUid: nat)
  {
    function TheDatabase(): Option<Database>
    {
      if copies == [] then None else copies[|copies| - 1]
    }

    function TheSecret(): Option<Secret>
    {
      if secrets == [] then None else secrets[|secrets| - 1]
    }

    function TheSet(): Option<StatefulSet>
    {
      if sets == [] then None else sets[|sets| - 1]
    }
  }

  datatype Event =
    | CreateDatabase(whenDeleted: string)
    | EditPolicy(whenDeleted: string)
    | DeleteDatabase
    | Collect(uid: nat)
    | ProvisionClaim
    | BootPod
    | Begin(copy: nat)
    | ReadSecret(copy: nat)
    | CreateSecret(password: string)
    | PatchSecretOwner
    | KeepSecretOwner
    | ReadSet(copy: nat)
    | WriteSet
    | KeepSet
    | Finish
    | Crash

  predicate SecretOwnedByDatabase(db: Database)
  {
    db.whenDeleted == "Delete"
  }

  function RetentionType(value: string): ClaimPolicy
  {
    if value == "Delete" then Delete else Retain
  }

  predicate IsControlledBy(secret: Secret, db: Database)
  {
    secret.owner == Some(db.uid)
  }

  function WantedOwner(db: Database): Option<nat>
  {
    if SecretOwnedByDatabase(db) then Some(db.uid) else None
  }

  function WantedSet(db: Database): StatefulSet
  {
    StatefulSet(db.uid, RetentionType(db.whenDeleted))
  }

  predicate HasKey(secret: Secret)
  {
    PASSWORD_KEY in secret.data
  }

  predicate OwnedBy(secret: Option<Secret>, uid: nat)
  {
    secret.Some? && secret.value.owner == Some(uid)
  }

  predicate External(e: Event)
  {
    e.CreateDatabase? || e.EditPolicy? || e.DeleteDatabase? || e.Collect? || e.ProvisionClaim? || e.BootPod?
  }

  /** The owner has to be changed, and SetControllerReference does not refuse to. */
  predicate Patchable(seen: Secret, db: Database)
  {
    && HasKey(seen) && SecretOwnedByDatabase(db) != IsControlledBy(seen, db)
    && (SecretOwnedByDatabase(db) ==> seen.owner.None?)
  }

  predicate Enabled(s: State, e: Event)
  {
    match e
    case CreateDatabase(_) => s.TheDatabase().None?
    case EditPolicy(_) => s.TheDatabase().Some?
    case DeleteDatabase => s.TheDatabase().Some?
    case Collect(uid) => uid in s.dead
    case ProvisionClaim => s.TheSet().Some? && s.volume.None?
    case BootPod => s.TheSet().Some? && s.volume.Some? && s.TheSecret().Some? && HasKey(s.TheSecret().value)
    case Begin(v) => s.progress.Idle? && s.copyAt <= v < |s.copies| && s.copies[v].Some?
    case ReadSecret(v) => s.progress.Begun? && s.secretAt <= v < |s.secrets|
    case CreateSecret(_) => s.progress.SecretRead? && s.progress.seen.None?
    case PatchSecretOwner =>
      && s.progress.SecretRead? && s.progress.seen.Some? && s.TheSecret().Some?
      && Patchable(s.progress.seen.value, s.progress.db)
    case KeepSecretOwner =>
      && s.progress.SecretRead? && s.progress.seen.Some? && HasKey(s.progress.seen.value)
      && SecretOwnedByDatabase(s.progress.db) == IsControlledBy(s.progress.seen.value, s.progress.db)
    case ReadSet(v) => s.progress.SecretDone? && s.setAt <= v < |s.sets|
    // A create is refused when there is one, an update when the copy was not the present version.
    case WriteSet =>
      && s.progress.SetRead?
      && if s.progress.found.None? then s.TheSet().None?
         else s.progress.found.value.owner == s.progress.db.uid && s.progress.at + 1 == |s.sets|
    // An update is sent even when the copy is as wanted, since the API server has filled in what the builder leaves
    // unset; it changes nothing.
    case KeepSet =>
      && s.progress.SetRead? && s.progress.found == Some(WantedSet(s.progress.db))
      && s.progress.at + 1 == |s.sets|
    case Finish => s.progress.SetDone?
    case Crash => !s.progress.Idle?
  }

  function Step(s: State, e: Event): State
  {
    if !Enabled(s, e) then s else
    match e
    case CreateDatabase(policy) =>
      s.(copies := s.copies + [Some(Database(s.nextUid, policy))], nextUid := s.nextUid + 1,
         applied := false, current := false, settled := false)
    case EditPolicy(policy) =>
      s.(copies := s.copies + [Some(s.TheDatabase().value.(whenDeleted := policy))],
         applied := false, current := false, settled := false)
    case DeleteDatabase => Deleted(s)
    case Collect(uid) => Collected(s, uid)
    case ProvisionClaim => s.(volume := Some(Volume(None)))
    case BootPod =>
      if s.volume.value.initial.Some? then s
      else s.(volume := Some(Volume(Some(s.TheSecret().value.data[PASSWORD_KEY]))))
    case Begin(v) =>
      s.(copyAt := v, progress := Begun(s.copies[v].value), applied := false,
         current := v + 1 == |s.copies|, settled := false)
    case ReadSecret(v) =>
      s.(secretAt := v, progress := SecretRead(s.progress.db, s.secrets[v]),
         current := s.current && v + 1 == |s.secrets|)
    case CreateSecret(password) =>
      // An AlreadyExists answer is swallowed.
      (if s.TheSecret().Some? then s
       else s.(secrets := s.secrets + [Some(Secret(WantedOwner(s.progress.db), map[PASSWORD_KEY := password]))]))
      .(progress := SecretDone(s.progress.db))
    case PatchSecretOwner =>
      s.(secrets := s.secrets + [Some(s.TheSecret().value.(owner := WantedOwner(s.progress.db)))],
         progress := SecretDone(s.progress.db))
    case KeepSecretOwner => s.(progress := SecretDone(s.progress.db))
    case ReadSet(v) =>
      s.(setAt := v, progress := SetRead(s.progress.db, s.sets[v], v), current := s.current && v + 1 == |s.sets|)
    case WriteSet => s.(sets := s.sets + [Some(WantedSet(s.progress.db))], progress := SetDone(s.progress.db))
    case KeepSet => s.(progress := SetDone(s.progress.db))
    case Finish =>
      s.(progress := Idle, applied := s.TheDatabase() == Some(s.progress.db), settled := s.current, current := false)
    case Crash => s.(progress := Idle, current := false)
  }

  function Deleted(s: State): State
    requires s.TheDatabase().Some?
  {
    s.(copies := s.copies + [None], dead := s.dead + {s.TheDatabase().value.uid},
       applied := false, current := false, settled := false)
  }

  /** One garbage-collection pass over what a deleted SereneDB owned. A collected StatefulSet takes the claim along when
      its retention policy says Delete. */
  function Collected(s: State, uid: nat): State
  {
    var ownsSet := s.TheSet().Some? && s.TheSet().value.owner == uid;
    s.(secrets := if OwnedBy(s.TheSecret(), uid) then s.secrets + [None] else s.secrets,
       sets := if ownsSet then s.sets + [None] else s.sets,
       volume := if ownsSet && s.TheSet().value.whenDeleted == Delete then None else s.volume)
  }

  const EMPTY := State([None], 0, [None], 0, [None], 0, None, Idle, false, false, false, {}, 0)

  /** SereneDBs are deleted at any time, and passes begin over copies of deleted ones. */
  const PROTOCOL: Machine<State, Event> := Machine(EMPTY, Enabled, Step, External)

  /** An initialised volume comes with the Secret that still holds its password. */
  predicate PasswordKept(s: State)
  {
    s.volume.Some? && s.volume.value.initial.Some? ==>
      && s.TheSecret().Some? && HasKey(s.TheSecret().value)
      && s.TheSecret().value.data[PASSWORD_KEY] == s.volume.value.initial.value
  }

  // When a deletion is safe.

  /** Collecting `uid` takes the Secret only together with the volume. */
  predicate Bound(s: State, uid: nat)
  {
    OwnedBy(s.TheSecret(), uid) ==> s.TheSet() == Some(StatefulSet(uid, Delete))
  }

  /** A live SereneDB owns the Secret, which nothing takes from it but a pass. */
  predicate Steady(s: State)
  {
    && s.TheDatabase().Some? && OwnedBy(s.TheSecret(), s.TheDatabase().value.uid)
    && !Bound(s, s.TheDatabase().value.uid)
  }

  predicate ShowsUnowned(s: State)
  {
    exists v | 0 <= v < |s.secrets| && s.secretAt <= v :: Unowned(s.secrets[v])
  }

  predicate Unowned(secret: Option<Secret>)
  {
    secret.Some? && secret.value.owner.None?
  }

  /** The running pass may still make `uid`, which is no live SereneDB's, the owner of the Secret. */
  predicate Claims(s: State, uid: nat)
  {
    && !s.progress.Idle? && s.progress.db.uid == uid && SecretOwnedByDatabase(s.progress.db)
    && match s.progress {
         case Begun(_) => !Steady(s) || ShowsUnowned(s)
         case SecretRead(_, None) => !Unowned(s.TheSecret()) && !Steady(s)
         case SecretRead(_, Some(seen)) => seen.owner.None? && s.TheSecret().Some? && !OwnedBy(s.TheSecret(), uid)
         case _ => false
       }
  }

  /** A pass that reads this copy leaves the Secret's owner as it is. */
  predicate Passes(seen: Option<Secret>, uid: nat)
  {
    !OwnedBy(seen, uid)
  }

  /** The running pass may still tell the StatefulSet to keep the volume while `uid` owns the Secret. */
  predicate Unbinds(s: State, uid: nat)
  {
    && !s.progress.Idle? && s.progress.db.uid == uid && !SecretOwnedByDatabase(s.progress.db)
    && OwnedBy(s.TheSecret(), uid)
    && match s.progress {
         case Begun(_) => exists v | 0 <= v < |s.secrets| && s.secretAt <= v :: Passes(s.secrets[v], uid)
         case SecretRead(_, seen) => Passes(seen, uid)
         case SecretDone(_) => true
         case SetRead(_, found, at) => found.Some? && at + 1 == |s.sets|
         case _ => false
       }
  }

  predicate Harmless(s: State, uid: nat)
  {
    Bound(s, uid) && !Claims(s, uid) && !Unbinds(s, uid)
  }

  /** What to check before a deletion. */
  predicate Safe(s: State)
  {
    s.TheDatabase().Some? ==> Harmless(Deleted(s), s.TheDatabase().value.uid)
  }

  /** What to check before a pass begins over a copy of a SereneDB that is gone. */
  predicate SafeBegin(s: State, v: nat)
    requires Enabled(s, Begin(v))
  {
    s.copies[v].value.uid in s.dead ==> Harmless(Step(s, Begin(v)), s.copies[v].value.uid)
  }

  predicate GuardedEnabled(s: State, e: Event)
  {
    && Enabled(s, e)
    && match e {
         case DeleteDatabase => Safe(s)
         case Begin(v) => SafeBegin(s, v)
         case _ => true
       }
  }

  /** SereneDBs are deleted, and passes begin over deleted ones, only when that is safe. */
  const GUARDED: Machine<State, Event> := Machine(EMPTY, GuardedEnabled, Step, External)

  // What every step keeps.

  predicate Known(s: State, uid: nat)
  {
    uid in s.dead || (s.TheDatabase().Some? && s.TheDatabase().value.uid == uid)
  }

  predicate UidInv(s: State)
  {
    && (forall k | 0 <= k < |s.copies| && s.copies[k].Some? :: Known(s, s.copies[k].value.uid))
    && (s.TheDatabase().Some? ==> s.TheDatabase().value.uid < s.nextUid && s.TheDatabase().value.uid !in s.dead)
    && (forall u | u in s.dead :: u < s.nextUid)
    && (s.TheSecret().Some? && s.TheSecret().value.owner.Some? ==> Known(s, s.TheSecret().value.owner.value))
    && (s.TheSet().Some? ==> Known(s, s.TheSet().value.owner))
    && (!s.progress.Idle? ==> Known(s, s.progress.db.uid))
  }

  predicate CopyInv(s: State)
  {
    && s.secrets != [] && s.sets != [] && s.secretAt < |s.secrets| && s.setAt < |s.sets|
    && s.copyAt < |s.copies|
    && (forall v | 0 <= v < |s.secrets| && s.secrets[v].Some? :: HasKey(s.secrets[v].value))
    && (s.progress.SecretRead? && s.progress.seen.Some? ==> HasKey(s.progress.seen.value))
    && (s.progress.SetRead? ==> s.progress.at < |s.sets| && s.sets[s.progress.at] == s.progress.found)
  }

  predicate Inv(s: State)
  {
    PasswordKept(s) && UidInv(s) && CopyInv(s) && forall u | u in s.dead :: Harmless(s, u)
  }

  lemma UidInvStep(s: State, e: Event)
    requires UidInv(s) && Enabled(s, e)
    ensures UidInv(Step(s, e))
  {
    match e {
      case CreateDatabase(_) => UidsOfDatabases(s, e);
      case EditPolicy(_) => UidsOfDatabases(s, e);
      case DeleteDatabase => UidsOfDatabases(s, e);
      case Collect(_) => UidsOfOthers(s, e);
      case ProvisionClaim => UidsOfOthers(s, e);
      case BootPod => UidsOfOthers(s, e);
      case _ => UidsOfPass(s, e);
    }
  }

  lemma UidsOfDatabases(s: State, e: Event)
    requires UidInv(s) && Enabled(s, e) && (e.CreateDatabase? || e.EditPolicy? || e.DeleteDatabase?)
    ensures UidInv(Step(s, e))
  {
  }

  lemma UidsOfOthers(s: State, e: Event)
    requires UidInv(s) && Enabled(s, e) && (e.Collect? || e.ProvisionClaim? || e.BootPod?)
    ensures UidInv(Step(s, e))
  {
  }

  lemma UidsOfPass(s: State, e: Event)
    requires UidInv(s) && Enabled(s, e) && !External(e)
    ensures UidInv(Step(s, e))
  {
    DatabasesStay(s, e);
    OwnersOfPass(s, e);
    KnownStay(s, Step(s, e));
  }

  /** What a pass writes and works on belongs to its SereneDB. */
  lemma OwnersOfPass(s: State, e: Event)
    requires Enabled(s, e) && !External(e)
    ensures var s' := Step(s, e);
            && (s'.TheSecret() == s.TheSecret()
                || (s'.TheSecret().Some? && s'.TheSecret().value.owner == WantedOwner(s.progress.db)))
            && (s'.TheSet() == s.TheSet() || s'.TheSet() == Some(WantedSet(s.progress.db)))
            && (s'.progress.Idle?
                || s'.progress.db == if e.Begin? then s.copies[e.copy].value else s.progress.db)
  {
  }

  lemma KnownStay(s: State, s': State)
    requires UidInv(s) && s'.copies == s.copies && s'.dead == s.dead && s'.nextUid == s.nextUid
    requires s'.TheSecret() == s.TheSecret()
             || (s'.TheSecret().Some? && !s.progress.Idle? && s'.TheSecret().value.owner == WantedOwner(s.progress.db))
    requires s'.TheSet() == s.TheSet() || (!s.progress.Idle? && s'.TheSet() == Some(WantedSet(s.progress.db)))
    requires s'.progress.Idle? || (!s.progress.Idle? && s'.progress.db == s.progress.db)
             || exists k | 0 <= k < |s.copies| :: s.copies[k] == Some(s'.progress.db)
    ensures UidInv(s')
  {
  }

  lemma DatabasesStay(s: State, e: Event)
    requires !External(e)
    ensures var s' := Step(s, e); s'.copies == s.copies && s'.dead == s.dead && s'.nextUid == s.nextUid
  {
    match e {
      case Begin(_) =>
      case ReadSecret(_) =>
      case CreateSecret(_) =>
      case PatchSecretOwner =>
      case KeepSecretOwner =>
      case ReadSet(_) =>
      case WriteSet =>
      case KeepSet =>
      case Finish =>
      case Crash =>
    }
  }

  lemma CopyInvStep(s: State, e: Event)
    requires CopyInv(s) && Enabled(s, e)
    ensures CopyInv(Step(s, e))
  {
  }

  lemma PasswordStep(s: State, e: Event)
    requires Inv(s) && Enabled(s, e)
    ensures PasswordKept(Step(s, e))
  {
  }

  lemma HarmlessStep(s: State, e: Event, u: nat)
    requires Inv(s) && GuardedEnabled(s, e) && u in Step(s, e).dead
    ensures Harmless(Step(s, e), u)
  {
    if External(e) {
      OthersHarmNothing(s, e, u);
    } else {
      PassHarmsNothing(s, e, u);
    }
  }

  lemma OthersHarmNothing(s: State, e: Event, u: nat)
    requires Inv(s) && GuardedEnabled(s, e) && External(e) && u in Step(s, e).dead
    ensures Harmless(Step(s, e), u)
  {
    match e {
      case DeleteDatabase => DeletionHarmsNothing(s, u);
      case Collect(uid) => CollectHarmsNothing(s, uid, u);
      case _ =>
    }
  }

  lemma DeletionHarmsNothing(s: State, u: nat)
    requires Inv(s) && GuardedEnabled(s, DeleteDatabase) && u in Deleted(s).dead
    ensures Harmless(Deleted(s), u)
  {
  }

  lemma CollectHarmsNothing(s: State, uid: nat, u: nat)
    requires Inv(s) && uid in s.dead && u in s.dead
    ensures Harmless(Collected(s, uid), u)
  {
  }

  lemma PassHarmsNothing(s: State, e: Event, u: nat)
    requires Inv(s) && GuardedEnabled(s, e) && !External(e) && u in s.dead
    ensures Harmless(Step(s, e), u)
  {
    if e.Begin? {
      BeginHarmsNothing(s, e.copy, u);
    }
  }

  lemma BeginHarmsNothing(s: State, v: nat, u: nat)
    requires Inv(s) && GuardedEnabled(s, Begin(v)) && u in s.dead
    ensures Harmless(Step(s, Begin(v)), u)
  {
  }

  lemma InvStep(s: State, e: Event)
    requires Inv(s) && GuardedEnabled(s, e)
    ensures Inv(Step(s, e))
  {
    UidInvStep(s, e);
    CopyInvStep(s, e);
    PasswordStep(s, e);
    forall u | u in Step(s, e).dead ensures Harmless(Step(s, e), u) {
      HarmlessStep(s, e, u);
    }
  }

  /** A run with safe deletions and begins from any state. */
  ghost predicate RunFrom(s: State, run: Run<State, Event>)
  {
    run.Of(GUARDED.(start := s))
  }

  lemma InvAlways(s: State, run: Run<State, Event>, i: nat)
    requires Inv(s) && RunFrom(s, run) && i < |run.states|
    ensures Inv(run.states[i])
  {
    forall t, e | Inv(t) && GuardedEnabled(t, e) ensures Inv(Step(t, e)) {
      InvStep(t, e);
    }
    Invariance(GUARDED.(start := s), Inv, run, i);
  }

  /** With safe deletions and begins: at every moment of every run, however reconciles are cut short, whatever old
      copies they work on and whatever happens in between, an initialised volume comes with the Secret that holds the
      password it was initialised with. */
  lemma PasswordOutlivesNothing(run: Run<State, Event>, i: nat)
    requires run.Of(GUARDED) && i < |run.states|
    ensures PasswordKept(run.states[i])
  {
    InvAlways(EMPTY, run, i);
  }

  // A deletion or a begin that is not safe can lose the password.

  ghost predicate Keeps(s: State)
  {
    forall run: Run<State, Event> | RunFrom(s, run) :: PasswordKept(run.Last())
  }

  /** Whatever follows a deletion of the SereneDB, with safe deletions and begins from then on, keeps the promise if and
      only if the deletion was safe. */
  lemma DeletionIsSafeExactlyWhen(s: State)
    requires Inv(s) && s.TheDatabase().Some?
    ensures Safe(s) <==> Keeps(Deleted(s))
  {
    var t, u := Deleted(s), s.TheDatabase().value.uid;
    if Safe(s) {
      InvStep(s, DeleteDatabase);
      KeepsOn(t);
    } else {
      UidInvStep(s, DeleteDatabase);
      CopyInvStep(s, DeleteDatabase);
      var run := Lose(t, u);
    }
  }

  /** The same for a pass that begins over a copy of a SereneDB that is gone. */
  lemma BeginIsSafeExactlyWhen(s: State, v: nat)
    requires Inv(s) && Enabled(s, Begin(v)) && s.copies[v].value.uid in s.dead
    ensures SafeBegin(s, v) <==> Keeps(Step(s, Begin(v)))
  {
    var t := Step(s, Begin(v));
    if SafeBegin(s, v) {
      InvStep(s, Begin(v));
      KeepsOn(t);
    } else {
      UidInvStep(s, Begin(v));
      CopyInvStep(s, Begin(v));
      var run := Lose(t, s.copies[v].value.uid);
    }
  }

  lemma KeepsOn(t: State)
    requires Inv(t)
    ensures Keeps(t)
  {
    forall run: Run<State, Event> | RunFrom(t, run) ensures PasswordKept(run.Last()) {
      InvAlways(t, run, |run.events|);
    }
  }

  /** A dead SereneDB that is not harmless can cost the password. */
  lemma Lose(t: State, u: nat) returns (run: Run<State, Event>)
    requires Base(t) && u in t.dead && !Harmless(t, u)
    ensures RunFrom(t, run) && !PasswordKept(run.Last())
  {
    run := Run([t], []);
    if !Bound(t, u) {
      run := LoseBound(t, run, u);
    } else if Claims(t, u) {
      run := LoseClaims(t, run, u);
    } else {
      run := LoseUnbinds(t, run, u);
    }
  }

  predicate Base(s: State)
  {
    UidInv(s) && CopyInv(s)
  }

  /** A run from `s` to where what every step keeps of uids and copies holds. */
  ghost predicate Path(s: State, run: Run<State, Event>)
  {
    RunFrom(s, run) && Base(run.Last())
  }

  lemma Go(s: State, run: Run<State, Event>, e: Event) returns (longer: Run<State, Event>)
    requires Path(s, run) && GuardedEnabled(run.Last(), e)
    ensures Path(s, longer) && longer.Last() == Step(run.Last(), e)
  {
    longer := Prolong(GUARDED.(start := s), run, e);
    UidInvStep(run.Last(), e);
    CopyInvStep(run.Last(), e);
  }

  /** The StatefulSet is gone while a dead SereneDB owns the Secret: a live one that retains its volume finds the
      Secret, leaves the owner alone and boots with it, and then the garbage collector takes it. */
  lemma LoseAdopted(s: State, run: Run<State, Event>, u: nat) returns (later: Run<State, Event>)
    requires Path(s, run) && run.Last().progress.Idle? && u in run.Last().dead
    requires OwnedBy(run.Last().TheSecret(), u) && run.Last().TheSet().None?
    ensures RunFrom(s, later) && !PasswordKept(later.Last())
  {
    later := Adopt(s, run, u);
    later := BootAndCollect(s, later, u);
  }

  lemma Adopt(s: State, run: Run<State, Event>, u: nat) returns (later: Run<State, Event>)
    requires Path(s, run) && run.Last().progress.Idle? && u in run.Last().dead
    requires OwnedBy(run.Last().TheSecret(), u) && run.Last().TheSet().None?
    ensures Path(s, later) && later.Last().dead == run.Last().dead && later.Last().volume == run.Last().volume
    ensures later.Last().secrets == run.Last().secrets && later.Last().TheSet().Some?
    ensures later.Last().TheSet().value.owner !in run.Last().dead
  {
    later := Succeed(s, run);
    later := LeaveOwner(s, later, u);
    later := WriteTheSet(s, later);
  }

  /** A live SereneDB that retains its volume, and a pass over it. */
  lemma Succeed(s: State, run: Run<State, Event>) returns (later: Run<State, Event>)
    requires Path(s, run) && run.Last().progress.Idle?
    ensures Path(s, later) && later.Last().progress.Begun? && later.Last().progress.db.whenDeleted == "Retain"
    ensures later.Last().progress.db.uid !in run.Last().dead
    ensures var t, t' := run.Last(), later.Last();
            t' == t.(copies := t'.copies, copyAt := t'.copyAt, nextUid := t'.nextUid, applied := t'.applied,
                     current := t'.current, settled := t'.settled, progress := t'.progress)
  {
    later := Go(s, run, if run.Last().TheDatabase().None? then CreateDatabase("Retain") else EditPolicy("Retain"));
    later := Go(s, later, Begin(|later.Last().copies| - 1));
  }

  lemma LeaveOwner(s: State, run: Run<State, Event>, u: nat) returns (later: Run<State, Event>)
    requires Path(s, run) && run.Last().progress.Begun? && OwnedBy(run.Last().TheSecret(), u)
    requires run.Last().progress.db.uid != u && run.Last().progress.db.whenDeleted == "Retain"
    ensures Path(s, later)
    ensures var t := run.Last();
            later.Last() == t.(secretAt := |t.secrets| - 1, progress := SecretDone(t.progress.db),
                               current := later.Last().current)
  {
    later := Go(s, run, ReadSecret(|run.Last().secrets| - 1));
    later := Go(s, later, KeepSecretOwner);
  }

  /** From the Secret done, over the present version of the StatefulSet. */
  lemma WriteTheSet(s: State, run: Run<State, Event>) returns (later: Run<State, Event>)
    requires Path(s, run) && run.Last().progress.SecretDone?
    requires run.Last().TheSet().Some? ==> run.Last().TheSet().value.owner == run.Last().progress.db.uid
    ensures Path(s, later)
    ensures var t := run.Last();
            && later.Last().sets == t.sets + [Some(WantedSet(t.progress.db))]
            && later.Last() == t.(sets := later.Last().sets, setAt := |t.sets| - 1, progress := SetDone(t.progress.db),
                                  current := t.current)
  {
    var t := run.Last();
    later := Go(s, run, ReadSet(|t.sets| - 1));
    assert later.Last() == t.(setAt := |t.sets| - 1, progress := SetRead(t.progress.db, t.TheSet(), |t.sets| - 1));
    later := Go(s, later, WriteSet);
  }

  /** The StatefulSet does not go with `u`. */
  lemma BootAndCollect(s: State, run: Run<State, Event>, u: nat) returns (later: Run<State, Event>)
    requires Path(s, run) && u in run.Last().dead && OwnedBy(run.Last().TheSecret(), u)
    requires HasKey(run.Last().TheSecret().value) && run.Last().TheSet().Some?
    requires run.Last().TheSet() != Some(StatefulSet(u, Delete))
    ensures RunFrom(s, later) && !PasswordKept(later.Last())
  {
    later := Boot(s, run);
    assert later.Last().TheSet() == run.Last().TheSet() && later.Last().TheSecret() == run.Last().TheSecret();
    later := Go(s, later, Collect(u));
  }

  lemma Boot(s: State, run: Run<State, Event>) returns (later: Run<State, Event>)
    requires Path(s, run) && run.Last().TheSet().Some? && run.Last().TheSecret().Some?
    requires HasKey(run.Last().TheSecret().value)
    ensures Path(s, later) && later.Last() == run.Last().(volume := later.Last().volume)
    ensures later.Last().volume.Some? && later.Last().volume.value.initial.Some?
  {
    later := Provision(s, run);
    later := Go(s, later, BootPod);
  }

  lemma Provision(s: State, run: Run<State, Event>) returns (later: Run<State, Event>)
    requires Path(s, run) && run.Last().TheSet().Some?
    ensures Path(s, later) && later.Last() == run.Last().(volume := later.Last().volume)
    ensures later.Last().volume.Some?
  {
    later := run;
    if later.Last().volume.None? {
      later := Go(s, later, ProvisionClaim);
    }
  }

  lemma LoseBound(s: State, run: Run<State, Event>, u: nat) returns (later: Run<State, Event>)
    requires Path(s, run) && u in run.Last().dead && !Bound(run.Last(), u)
    ensures RunFrom(s, later) && !PasswordKept(later.Last())
  {
    later := Stop(s, run);
    if run.Last().TheSet().None? {
      later := LoseAdopted(s, later, u);
    } else {
      later := BootAndCollect(s, later, u);
    }
  }

  lemma Stop(s: State, run: Run<State, Event>) returns (later: Run<State, Event>)
    requires Path(s, run)
    ensures Path(s, later)
    ensures later.Last() == run.Last().(progress := Idle, current := later.Last().current)
  {
    if run.Last().progress.Idle? {
      later := run;
    } else {
      later := Go(s, run, Crash);
    }
  }

  /** Nobody owns the Secret any more and `u` no StatefulSet: what dead SereneDBs own is collected, and a live one that
      owns the Secret is deleted before. */
  lemma Clear(s: State, run: Run<State, Event>, u: nat) returns (later: Run<State, Event>)
    requires Path(s, run) && u in run.Last().dead && !Steady(run.Last())
    requires !run.Last().progress.Idle? && run.Last().progress.db.uid == u
    ensures Path(s, later) && later.Last().progress == run.Last().progress && u in later.Last().dead
    ensures later.Last().TheSecret() == if Unowned(run.Last().TheSecret()) then run.Last().TheSecret() else None
    ensures later.Last().TheSet() != Some(StatefulSet(u, Delete))
  {
    later := ClearSecret(s, run, u);
    later := Go(s, later, Collect(u));
  }

  lemma ClearSecret(s: State, run: Run<State, Event>, u: nat) returns (later: Run<State, Event>)
    requires Path(s, run) && u in run.Last().dead && !Steady(run.Last())
    requires !run.Last().progress.Idle? && run.Last().progress.db.uid == u
    ensures Path(s, later) && later.Last().progress == run.Last().progress && u in later.Last().dead
    ensures later.Last().TheSecret() == if Unowned(run.Last().TheSecret()) then run.Last().TheSecret() else None
  {
    later := run;
    var t := run.Last();
    if t.TheSecret().Some? && t.TheSecret().value.owner.Some? {
      var d := t.TheSecret().value.owner.value;
      if d !in t.dead {
        later := DeleteOwner(s, later, d);
      }
      later := Go(s, later, Collect(d));
    }
  }

  lemma DeleteOwner(s: State, run: Run<State, Event>, d: nat) returns (later: Run<State, Event>)
    requires Path(s, run) && OwnedBy(run.Last().TheSecret(), d) && d !in run.Last().dead && !Steady(run.Last())
    requires !run.Last().progress.Idle? && run.Last().progress.db.uid != d
    ensures Path(s, later) && later.Last().dead == run.Last().dead + {d}
    ensures later.Last().secrets == run.Last().secrets && later.Last().progress == run.Last().progress
  {
    later := Go(s, run, DeleteDatabase);
  }

  lemma LoseClaims(s: State, run: Run<State, Event>, u: nat) returns (later: Run<State, Event>)
    requires Path(s, run) && u in run.Last().dead && Claims(run.Last(), u)
    ensures RunFrom(s, later) && !PasswordKept(later.Last())
  {
    if run.Last().progress.SecretRead? && run.Last().progress.seen.Some? {
      later := ClaimTheSecret(s, run, u);
    } else if Steady(run.Last()) {
      later := ClaimAnOldOne(s, run, u);
    } else {
      later := Clear(s, run, u);
      if later.Last().progress.Begun? {
        later := Go(s, later, ReadSecret(|later.Last().secrets| - 1));
      }
      later := Claim(s, later, u);
    }
  }

  /** A copy without an owner is read, and the patch takes the Secret from the live SereneDB. */
  lemma ClaimAnOldOne(s: State, run: Run<State, Event>, u: nat) returns (later: Run<State, Event>)
    requires Path(s, run) && u in run.Last().dead && Claims(run.Last(), u)
    requires run.Last().progress.Begun? && Steady(run.Last())
    ensures RunFrom(s, later) && !PasswordKept(later.Last())
  {
    var t := run.Last();
    var v :| 0 <= v < |t.secrets| && t.secretAt <= v && Unowned(t.secrets[v]);
    later := Go(s, run, ReadSecret(v));
    later := ClaimTheSecret(s, later, u);
  }

  lemma ClaimTheSecret(s: State, run: Run<State, Event>, u: nat) returns (later: Run<State, Event>)
    requires Path(s, run) && u in run.Last().dead && Claims(run.Last(), u)
    requires run.Last().progress.SecretRead? && run.Last().progress.seen.Some?
    ensures RunFrom(s, later) && !PasswordKept(later.Last())
  {
    later := Go(s, run, Collect(u));
    later := Claim(s, later, u);
  }

  /** The pass makes `u` the owner, and no StatefulSet goes along with it. */
  lemma Claim(s: State, run: Run<State, Event>, u: nat) returns (later: Run<State, Event>)
    requires Path(s, run) && u in run.Last().dead
    requires run.Last().progress.SecretRead? && run.Last().progress.db.uid == u
    requires SecretOwnedByDatabase(run.Last().progress.db) && run.Last().TheSet() != Some(StatefulSet(u, Delete))
    requires var seen := run.Last().progress.seen;
             if seen.None? then run.Last().TheSecret().None?
             else seen.value.owner.None? && run.Last().TheSecret().Some?
    ensures RunFrom(s, later) && !PasswordKept(later.Last())
  {
    later := Go(s, run, if run.Last().progress.seen.None? then CreateSecret("q") else PatchSecretOwner);
    later := LoseBound(s, later, u);
  }

  lemma LoseUnbinds(s: State, run: Run<State, Event>, u: nat) returns (later: Run<State, Event>)
    requires Path(s, run) && u in run.Last().dead
    requires Bound(run.Last(), u) && Unbinds(run.Last(), u)
    ensures RunFrom(s, later) && !PasswordKept(later.Last())
  {
    later := run;
    if later.Last().progress.Begun? {
      later := ReadPassing(s, later, u);
    }
    if later.Last().progress.SecretRead? {
      later := PassSecret(s, later, u);
    }
    later := Unbind(s, later, u);
  }

  lemma ReadPassing(s: State, run: Run<State, Event>, u: nat) returns (later: Run<State, Event>)
    requires Path(s, run) && Unbinds(run.Last(), u) && Bound(run.Last(), u)
    requires run.Last().progress.Begun?
    ensures Path(s, later) && Unbinds(later.Last(), u) && Bound(later.Last(), u)
    ensures later.Last().progress.SecretRead? && later.Last().dead == run.Last().dead
  {
    var t := run.Last();
    var v :| 0 <= v < |t.secrets| && t.secretAt <= v && Passes(t.secrets[v], u);
    later := Go(s, run, ReadSecret(v));
  }

  lemma PassSecret(s: State, run: Run<State, Event>, u: nat) returns (later: Run<State, Event>)
    requires Path(s, run) && Unbinds(run.Last(), u) && Bound(run.Last(), u)
    requires run.Last().progress.SecretRead?
    ensures Path(s, later) && Unbinds(later.Last(), u) && Bound(later.Last(), u)
    ensures later.Last().progress.SecretDone? && later.Last().dead == run.Last().dead
  {
    var e := if run.Last().progress.seen.None? then CreateSecret("q") else KeepSecretOwner;
    later := Go(s, run, e);
    assert later.Last() == run.Last().(progress := SecretDone(run.Last().progress.db));
  }

  lemma Unbind(s: State, run: Run<State, Event>, u: nat) returns (later: Run<State, Event>)
    requires Path(s, run) && u in run.Last().dead
    requires Bound(run.Last(), u) && Unbinds(run.Last(), u)
        && (run.Last().progress.SecretDone? || run.Last().progress.SetRead?)
    ensures RunFrom(s, later) && !PasswordKept(later.Last())
  {
    if run.Last().progress.SecretDone? {
      later := WriteTheSet(s, run);
    } else {
      later := Go(s, run, WriteSet);
    }
    var t, t' := run.Last(), later.Last();
    assert t'.sets == t.sets + [Some(WantedSet(t.progress.db))] && t'.secrets == t.secrets && t'.copies == t.copies;
    later := LoseBound(s, later, u);
  }

  // A deletion after a complete pass.

  /** What a pass that read only present versions has achieved so far. */
  predicate CurrentInv(s: State)
  {
    && !s.progress.Idle? && s.TheDatabase() == Some(s.progress.db)
    && match s.progress {
         case Begun(_) => true
         case SecretRead(_, seen) => s.TheSecret() == seen || s.TheSecret().None?
         case SecretDone(db) => Released(s, db)
         case SetRead(db, found, _) =>
           Released(s, db) && (found.Some? && found.value.owner == db.uid ==> s.TheSet() == found)
         case SetDone(db) => Bound(s, db.uid)
         case Idle => false
       }
  }

  /** A Secret that is to outlive the SereneDB is not owned by it. */
  predicate Released(s: State, db: Database)
  {
    SecretOwnedByDatabase(db) || !OwnedBy(s.TheSecret(), db.uid)
  }

  predicate SettledInv(s: State)
  {
    && (s.current ==> CurrentInv(s))
    && (s.settled ==> s.TheDatabase().Some? && s.progress.Idle? && Bound(s, s.TheDatabase().value.uid))
  }

  lemma SettledInvStep(s: State, e: Event)
    requires UidInv(s) && CopyInv(s) && SettledInv(s) && Enabled(s, e)
    ensures SettledInv(Step(s, e))
  {
    if External(e) {
      OthersKeepSettled(s, e);
    } else {
      PassKeepsSettled(s, e);
    }
  }

  lemma OthersKeepSettled(s: State, e: Event)
    requires UidInv(s) && CopyInv(s) && SettledInv(s) && Enabled(s, e) && External(e)
    ensures SettledInv(Step(s, e))
  {
    if e.Collect? {
      CollectKeepsSettled(s, e.uid);
    }
  }

  lemma CollectKeepsSettled(s: State, uid: nat)
    requires UidInv(s) && CopyInv(s) && SettledInv(s) && uid in s.dead
    ensures SettledInv(Collected(s, uid))
  {
    if s.TheDatabase().Some? {
      CollectLeaves(s, uid, s.TheDatabase().value.uid);
    }
  }

  /** What a live SereneDB owns stays. */
  lemma CollectLeaves(s: State, uid: nat, live: nat)
    requires uid != live && CopyInv(s)
    ensures var s' := Collected(s, uid);
            && (s'.TheSecret() == s.TheSecret() || (s'.TheSecret().None? && !OwnedBy(s.TheSecret(), live)))
            && (s'.TheSet() == s.TheSet() || s.TheSet().value.owner == uid)
            && (Bound(s, live) ==> Bound(s', live))
  {
  }

  lemma PassKeepsSettled(s: State, e: Event)
    requires UidInv(s) && CopyInv(s) && SettledInv(s) && Enabled(s, e) && !External(e)
    ensures SettledInv(Step(s, e))
  {
  }

  lemma SettledAlways(run: Run<State, Event>, i: nat)
    requires run.Of(GUARDED) && i < |run.states|
    ensures SettledInv(run.states[i]) && (run.states[i].settled ==> Safe(run.states[i]))
  {
    var keep := (s: State) => UidInv(s) && CopyInv(s) && SettledInv(s);
    forall s, e | keep(s) && GuardedEnabled(s, e) ensures keep(Step(s, e)) {
      UidInvStep(s, e);
      CopyInvStep(s, e);
      SettledInvStep(s, e);
    }
    Invariance(GUARDED, keep, run, i);
    if run.states[i].settled {
      SettledIsSafe(run.states[i]);
    }
  }

  predicate SettledEnabled(s: State, e: Event)
  {
    && Enabled(s, e)
    && match e {
         case DeleteDatabase => s.settled
         case Begin(v) => s.copies[v].value.uid !in s.dead
         case _ => true
       }
  }

  /** SereneDBs are deleted after a complete pass over the present SereneDB that read only present versions, and before
      another one begins; that they are gone is noticed before the next pass begins. */
  const SETTLED: Machine<State, Event> := Machine(EMPTY, SettledEnabled, Step, External)

  lemma SettledIsSafe(s: State)
    requires SettledInv(s) && s.settled
    ensures Safe(s)
  {
  }

  /** At every moment of every run whose deletions follow such a pass. */
  lemma PasswordOutlivesSettled(run: Run<State, Event>, i: nat)
    requires run.Of(SETTLED) && i < |run.states|
    ensures PasswordKept(run.states[i])
  {
    forall s, e | Inv(s) && SettledInv(s) && SettledEnabled(s, e) ensures Inv(Step(s, e)) && SettledInv(Step(s, e)) {
      if s.settled {
        SettledIsSafe(s);
      }
      InvStep(s, e);
      SettledInvStep(s, e);
    }
    Invariance(SETTLED, s => Inv(s) && SettledInv(s), run, i);
  }

  // Runs in which a deletion, or the pass after it, is not safe.

  /** A first pass under `policy`. */
  lemma FirstPass(policy: string) returns (run: Run<State, Event>)
    ensures Path(EMPTY, run)
    ensures var db := Database(0, policy);
            run.Last() == State([None, Some(db)], 1, [None, Some(Secret(WantedOwner(db), map[PASSWORD_KEY := "p"]))], 0,
                                [None, Some(WantedSet(db))], 0, None, Idle, true, false, true, {}, 1)
  {
    run := FirstSecret(policy);
    run := WriteTheSet(EMPTY, run);
    run := Go(EMPTY, run, Finish);
  }

  lemma FirstSecret(policy: string) returns (run: Run<State, Event>)
    ensures Path(EMPTY, run)
    ensures var db := Database(0, policy);
            run.Last() == State([None, Some(db)], 1, [None, Some(Secret(WantedOwner(db), map[PASSWORD_KEY := "p"]))], 0,
                                [None], 0, None, SecretDone(db), false, true, false, {}, 1)
  {
    run := FirstBegin(policy);
    run := Go(EMPTY, run, ReadSecret(0));
    run := Go(EMPTY, run, CreateSecret("p"));
  }

  lemma FirstBegin(policy: string) returns (run: Run<State, Event>)
    ensures Path(EMPTY, run)
    ensures var db := Database(0, policy);
            run.Last() == State([None, Some(db)], 1, [None], 0, [None], 0, None, Begun(db), false, true, false, {}, 1)
  {
    run := Run([EMPTY], []);
    run := Go(EMPTY, run, CreateDatabase(policy));
    run := Go(EMPTY, run, Begin(1));
  }

  lemma EditedToDelete() returns (run: Run<State, Event>)
    ensures Path(EMPTY, run)
    ensures run.Last() == State([None, Some(Database(0, "Retain")), Some(Database(0, "Delete"))], 2,
                                [None, Some(Secret(None, map[PASSWORD_KEY := "p"]))], 0,
                                [None, Some(StatefulSet(0, Retain))], 0, run.Last().volume,
                                Begun(Database(0, "Delete")),
                                false, true, false, {}, 1)
  {
    run := FirstPass("Retain");
    run := Boot(EMPTY, run);
    run := Go(EMPTY, run, EditPolicy("Delete"));
    run := Go(EMPTY, run, Begin(2));
  }

  /** An edit to Delete, and a pass cut short between the Secret and the StatefulSet. */
  lemma DeleteInsideWindow() returns (run: Run<State, Event>)
    ensures Path(EMPTY, run) && run.Last().progress.Idle? && !Safe(run.Last())
    ensures run.Last().copies == [None, Some(Database(0, "Retain")), Some(Database(0, "Delete"))]
    ensures run.Last().secrets == [None, Some(Secret(None, map[PASSWORD_KEY := "p"])),
                                   Some(Secret(Some(0), map[PASSWORD_KEY := "p"]))]
    ensures run.Last().sets == [None, Some(StatefulSet(0, Retain))] && run.Last().secretAt == 1
    ensures run.Last().copyAt == 2 && run.Last().setAt == 0
  {
    run := EditedToDelete();
    run := Go(EMPTY, run, ReadSecret(1));
    run := PatchAndCrash(run);
  }

  lemma PatchAndCrash(run: Run<State, Event>) returns (later: Run<State, Event>)
    requires Path(EMPTY, run) && Enabled(run.Last(), PatchSecretOwner)
    ensures Path(EMPTY, later)
    ensures var t := run.Last();
            later.Last() == t.(secrets := t.secrets + [Some(t.TheSecret().value.(owner := WantedOwner(t.progress.db)))],
                               progress := Idle, current := false)
  {
    later := Go(EMPTY, run, PatchSecretOwner);
    later := Go(EMPTY, later, Crash);
  }

  /** The last pass completed for the present policy and none is running, yet a deletion is not safe: after the cut
      pass the policy is set back to Retain, and the next pass reads the Secret as it was before the patch, with
      nothing to undo. A cached answer that there is no Secret does the same, as AlreadyExists is swallowed. */
  lemma StaleSecretBreaksPromise() returns (run: Run<State, Event>)
    ensures Path(EMPTY, run) && run.Last().applied && run.Last().progress.Idle?
    ensures Inv(run.Last()) && !Safe(run.Last()) && !Keeps(Deleted(run.Last()))
  {
    run := ReadOldSecret();
    run := FinishOverSet(run);
    InvAlways(EMPTY, run, |run.events|);
    DeletionIsSafeExactlyWhen(run.Last());
  }

  lemma ReadOldSecret() returns (run: Run<State, Event>)
    ensures Path(EMPTY, run) && run.Last().progress == SecretDone(Database(0, "Retain"))
    ensures run.Last().TheDatabase() == Some(Database(0, "Retain")) && OwnedBy(run.Last().TheSecret(), 0)
    ensures run.Last().sets == [None, Some(StatefulSet(0, Retain))] && run.Last().setAt == 0
  {
    run := DeleteInsideWindow();
    run := Go(EMPTY, run, EditPolicy("Retain"));
    run := Go(EMPTY, run, Begin(3));
    assert run.Last().progress == Begun(Database(0, "Retain"));
    run := ReadAndKeep(run, 1);
  }

  lemma ReadAndKeep(run: Run<State, Event>, v: nat) returns (later: Run<State, Event>)
    requires Path(EMPTY, run) && Enabled(run.Last(), ReadSecret(v))
    requires Enabled(Step(run.Last(), ReadSecret(v)), KeepSecretOwner)
    ensures Path(EMPTY, later)
    ensures var t := run.Last();
            later.Last() == t.(secretAt := v, progress := SecretDone(t.progress.db), current := later.Last().current)
  {
    later := Go(EMPTY, run, ReadSecret(v));
    later := Go(EMPTY, later, KeepSecretOwner);
  }

  lemma FinishOverSet(run: Run<State, Event>) returns (later: Run<State, Event>)
    requires Path(EMPTY, run) && run.Last().progress == SecretDone(Database(0, "Retain"))
    requires run.Last().sets == [None, Some(StatefulSet(0, Retain))] && run.Last().setAt <= 1
    ensures Path(EMPTY, later)
    ensures later.Last() == run.Last().(setAt := 1, progress := Idle, current := false, settled := later.Last().settled,
                                        applied := run.Last().TheDatabase() == Some(Database(0, "Retain")))
  {
    var t, db := run.Last(), Database(0, "Retain");
    later := Go(EMPTY, run, ReadSet(1));
    assert later.Last() == t.(setAt := 1, progress := SetRead(db, Some(WantedSet(db)), 1), current := t.current);
    later := KeepAndFinish(later);
  }

  lemma KeepAndFinish(run: Run<State, Event>) returns (later: Run<State, Event>)
    requires Path(EMPTY, run) && Enabled(run.Last(), KeepSet)
    ensures Path(EMPTY, later)
    ensures var t := run.Last();
            later.Last() == t.(progress := Idle, applied := t.TheDatabase() == Some(t.progress.db),
                               settled := t.current, current := false)
  {
    later := Go(EMPTY, run, KeepSet);
    later := Go(EMPTY, later, Finish);
  }

  /** Everything is as the policy wants it, so that a deletion with its collection keeps the promise at that instant,
      but a pass is running: it creates the Secret anew for the deleted SereneDB, a Retain successor finds and uses
      it, and the garbage collector takes it. */
  lemma DeleteDuringPass() returns (run: Run<State, Event>)
    ensures Path(EMPTY, run) && Bound(run.Last(), 0) && run.Last().TheDatabase().Some?
    ensures PasswordKept(Collected(Deleted(run.Last()), 0))
    ensures Inv(run.Last()) && !Safe(run.Last()) && !Keeps(Deleted(run.Last()))
  {
    run := FirstPass("Delete");
    run := Go(EMPTY, run, Begin(1));
    InvAlways(EMPTY, run, |run.events|);
    DeletionIsSafeExactlyWhen(run.Last());
  }

  /** After a complete pass and a safe deletion: the cache still shows the SereneDB, and a pass that begins over it
      creates the Secret anew for an owner that is gone. */
  lemma StalePassAfterDeletion() returns (run: Run<State, Event>)
    ensures Path(EMPTY, run) && Inv(run.Last()) && run.Last().TheDatabase().None?
    ensures Enabled(run.Last(), Begin(1)) && run.Last().copies[1].value.uid in run.Last().dead
    ensures !SafeBegin(run.Last(), 1) && !Keeps(Step(run.Last(), Begin(1)))
  {
    run := FirstPass("Delete");
    run := Go(EMPTY, run, DeleteDatabase);
    InvAlways(EMPTY, run, |run.events|);
    BeginIsSafeExactlyWhen(run.Last(), 1);
  }

  // The code.

  datatype Outcome = Ok | Blocked | Error

  /** The state that the last event of the history of `w` acted on. */
  ghost function Before(w: World<State, Event>): State
    requires w.Runs(GUARDED) && w.run.events != []
    reads w`run, w`state
  {
    w.run.states[|w.run.events| - 1]
  }

  ghost predicate EndsWith(w: World<State, Event>, e: Event)
    reads w`run, w`state
  {
    w.run.events != [] && w.run.events[|w.run.events| - 1] == e
  }

  /** One pass over version `v` of the SereneDB, which the cache shows: the Secret first, the StatefulSet after it.
      Any request may fail, and others act between any two requests. The history of `w` stays a run of the protocol,
      so what holds in every run holds throughout. A pass that succeeds leaves both as its copy of the SereneDB wants
      them, if it read present versions. */
  method Reconcile(w: World<State, Event>, v: nat, password: string) returns (outcome: Outcome)
    requires w.Runs(GUARDED) && w.state.progress.Idle?
    requires Enabled(w.state, Begin(v)) ==> SafeBegin(w.state, v)
    modifies w
    ensures w.Runs(GUARDED) && w.run.Continues(old(w.run))
    ensures w.state.progress.Idle? && PasswordKept(w.state)
    ensures if Enabled(old(w.state), Begin(v)) then old(w.run.events) < w.run.events
            else outcome.Ok? && w.state == old(w.state)
    ensures w.run.events != old(w.run.events) && outcome.Ok? ==>
              EndsWith(w, Finish) && (w.state.settled <==> Before(w).current)
    ensures w.state.settled ==> Safe(w.state)
    ensures !outcome.Ok? ==> w.faults > old(w.faults) || (w.run.events != [] && Obstructed(Before(w)))
  {
    if w.state.copyAt <= v < |w.state.copies| && w.state.copies[v].Some? {
      outcome := Pass(w, v, password);
    } else {
      // Not found.
      outcome := Ok;
    }
    KeptAtLast(w.run);
  }

  lemma KeptAtLast(run: Run<State, Event>)
    requires run.Of(GUARDED)
    ensures PasswordKept(run.Last()) && (run.Last().settled ==> Safe(run.Last()))
  {
    PasswordOutlivesNothing(run, |run.events|);
    SettledAlways(run, |run.events|);
  }

  method Pass(w: World<State, Event>, v: nat, password: string) returns (outcome: Outcome)
    requires w.Runs(GUARDED) && GuardedEnabled(w.state, Begin(v))
    modifies w
    ensures w.Runs(GUARDED) && old(w.run.events) < w.run.events && w.state.progress.Idle?
    ensures outcome.Ok? ==> EndsWith(w, Finish) && (w.state.settled <==> Before(w).current)
    ensures !outcome.Ok? ==> w.faults > old(w.faults) || (w.run.events != [] && Obstructed(Before(w)))
  {
    w.Do(Begin(v));
    outcome := ReconcileResources(w, w.state.progress.db, password);
    EndPass(w, outcome);
  }

  method EndPass(w: World<State, Event>, outcome: Outcome)
    requires w.Runs(GUARDED) && !w.state.progress.Idle? && (outcome.Ok? ==> w.state.progress.SetDone?)
    modifies w
    ensures w.Runs(GUARDED) && old(w.run.events) < w.run.events && w.state.progress.Idle?
    ensures outcome.Ok? ==> EndsWith(w, Finish) && (w.state.settled <==> Before(w).current)
    ensures w.run.events != [] && Before(w) == old(w.state) && w.faults == old(w.faults)
  {
    w.Do(if outcome.Ok? then Finish else Crash);
  }

  method ReconcileResources(w: World<State, Event>, db: Database, password: string) returns (outcome: Outcome)
    requires w.Runs(GUARDED) && w.state.progress == Begun(db)
    modifies w
    ensures w.Runs(GUARDED) && w.run.Continues(old(w.run))
    ensures if outcome.Ok? then w.state.progress == SetDone(db) else !w.state.progress.Idle?
    ensures w.faults >= old(w.faults) && (!outcome.Ok? ==> w.faults > old(w.faults) || Obstructed(w.state))
  {
    outcome := ReconcileSecret(w, db, password);
    if outcome.Ok? {
      outcome := ReconcileRest(w, db);
    }
  }

  method ReconcileRest(w: World<State, Event>, db: Database) returns (outcome: Outcome)
    requires w.Runs(GUARDED) && w.state.progress == SecretDone(db)
    modifies w
    ensures w.Runs(GUARDED) && w.run.Continues(old(w.run))
    ensures if outcome.Ok? then w.state.progress == SetDone(db) else !w.state.progress.Idle?
    ensures w.faults >= old(w.faults) && (!outcome.Ok? ==> w.faults > old(w.faults) || Obstructed(w.state))
  {
    Interfere(w);
    var missing := w.Fails();
    if missing {
      // The TLS Secret, the ConfigMap or a Service could not be reconciled.
      return Error;
    }
    outcome := ReconcileStatefulSet(w, db);
    if outcome.Ok? {
      Interfere(w);
      var failed := w.Fails();
      // The NetworkPolicy may fail to be reconciled.
      outcome := if failed then Error else Ok;
    }
  }

  predicate LacksKey(p: Progress)
  {
    p.SecretRead? && p.seen.Some? && !HasKey(p.seen.value)
  }

  /** The Secret that was read is not there any more. */
  predicate Vanished(s: State)
  {
    s.progress.SecretRead? && s.progress.seen.Some? && s.TheSecret().None?
  }

  /** What ends a pass besides a request that fails. */
  predicate Obstructed(s: State)
  {
    || LacksKey(s.progress) || Refused(s.progress) || Vanished(s) || Outdated(s)
    || (s.progress.SetRead? && Foreign(s.progress.found, s.progress.db))
  }

  /** The SereneDB wants the Secret and another object controls the copy of it. */
  predicate Refused(p: Progress)
  {
    && p.SecretRead? && p.seen.Some? && p.db.whenDeleted == "Delete"
    && p.seen.value.owner.Some? && p.seen.value.owner.value != p.db.uid
  }

  /** Over the Secret as the cache shows it. It fails only by a fault, over a Secret of another owner, or one that has
      gone. A copy without the key blocks; on success the Secret was just created, or
      found by a create, or left alone, or given the owner the SereneDB wants. */
  method ReconcileSecret(w: World<State, Event>, db: Database, password: string) returns (outcome: Outcome)
    requires w.Runs(GUARDED) && w.state.progress == Begun(db)
    modifies w
    ensures w.faults >= old(w.faults)
    ensures w.Runs(GUARDED) && w.run.Continues(old(w.run))
    ensures if outcome.Ok? then w.state.progress == SecretDone(db) else !w.state.progress.Idle?
    ensures outcome.Ok?
        ==> EndsWith(w, CreateSecret(password)) || EndsWith(w, KeepSecretOwner) || EndsWith(w, PatchSecretOwner)
    ensures outcome.Blocked? <==> LacksKey(w.state.progress)
    ensures outcome.Error? ==>
              w.faults > old(w.faults) || Refused(w.state.progress) || Vanished(w.state)
  {
    Interfere(w);
    var v: int := *;
    if !(w.state.secretAt <= v < |w.state.secrets|) {
      // The Secret could not be read.
      w.Fault();
      return Error;
    }
    var existing := w.state.secrets[v];
    w.Do(ReadSecret(v));
    outcome := HandleSecret(w, db, password, existing);
  }

  method HandleSecret(w: World<State, Event>, db: Database, password: string, existing: Option<Secret>)
    returns (outcome: Outcome)
    requires w.Runs(GUARDED) && w.state.progress == SecretRead(db, existing)
    modifies w
    ensures w.faults >= old(w.faults)
    ensures w.Runs(GUARDED) && w.run.Continues(old(w.run))
    ensures if outcome.Ok? then w.state.progress == SecretDone(db) else !w.state.progress.Idle?
    ensures outcome.Ok?
        ==> EndsWith(w, CreateSecret(password)) || EndsWith(w, KeepSecretOwner) || EndsWith(w, PatchSecretOwner)
    ensures outcome.Blocked? <==> LacksKey(w.state.progress)
    ensures outcome.Error? ==>
              w.faults > old(w.faults) || Refused(w.state.progress) || Vanished(w.state)
  {
    if existing.None? {
      outcome := CreateGeneratedSecret(w, db, password);
    } else if !HasKey(existing.value) {
      outcome := Blocked;
    } else {
      outcome := SyncSecretOwnership(w, db, existing.value);
    }
  }

  lemma CreatedSecret(s: State, password: string)
    requires Enabled(s, CreateSecret(password))
    ensures var s' := Step(s, CreateSecret(password));
            && s'.progress == SecretDone(s.progress.db)
            && s'.TheSecret() == if s.TheSecret().Some? then s.TheSecret()
                                 else Some(Secret(WantedOwner(s.progress.db), map[PASSWORD_KEY := password]))
  {
  }

  /** A Secret that turns out to exist is left alone. */
  method CreateGeneratedSecret(w: World<State, Event>, db: Database, password: string) returns (outcome: Outcome)
    requires w.Runs(GUARDED) && w.state.progress == SecretRead(db, None)
    modifies w
    ensures w.faults >= old(w.faults)
    ensures w.Runs(GUARDED) && w.run.Continues(old(w.run)) && !outcome.Blocked?
    ensures w.state.progress == SecretDone(db) || (!outcome.Ok? && w.state.progress == old(w.state).progress)
    ensures outcome.Ok? ==>
              && EndsWith(w, CreateSecret(password))
              && w.state.TheSecret() == if Before(w).TheSecret().Some? then Before(w).TheSecret()
                                        else Some(Secret(WantedOwner(db), map[PASSWORD_KEY := password]))
    ensures outcome.Ok? && Before(w).TheSecret().None? ==>
              w.state.TheSecret() == Some(Secret(if db.whenDeleted == "Delete" then Some(db.uid) else None,
                                                 map["postgres-password" := password]))
    ensures outcome.Error? ==> w.faults > old(w.faults)
  {
    Interfere(w);
    var failed := w.Fails();
    if failed {
      return Error;
    }
    ghost var s := w.state;
    w.Do(CreateSecret(password));
    assert Before(w) == s;
    CreatedSecret(s, password);
    var lost := w.Fails();
    if lost {
      // The Secret was created but the answer got lost.
      return Error;
    }
    outcome := Ok;
  }

  /** The controller reference is added or dropped by the retention policy of the SereneDB; a Secret that another object
      controls is refused. */
  method SyncSecretOwnership(w: World<State, Event>, db: Database, secret: Secret) returns (outcome: Outcome)
    requires w.Runs(GUARDED) && w.state.progress == SecretRead(db, Some(secret)) && HasKey(secret)
    modifies w
    ensures w.faults >= old(w.faults)
    ensures w.Runs(GUARDED) && w.run.Continues(old(w.run)) && !outcome.Blocked?
    ensures w.state.progress == SecretDone(db) || (!outcome.Ok? && w.state.progress == old(w.state).progress)
    ensures SecretOwnedByDatabase(db) && secret.owner.Some? && !IsControlledBy(secret, db) ==> outcome.Error?
    ensures SecretOwnedByDatabase(db) == IsControlledBy(secret, db) ==>
              outcome.Ok? && EndsWith(w, KeepSecretOwner) && w.state.secrets == old(w.state).secrets
    ensures outcome.Ok? && SecretOwnedByDatabase(db) != IsControlledBy(secret, db) ==>
              && EndsWith(w, PatchSecretOwner) && Before(w).TheSecret().Some?
              && w.state.TheSecret() == Some(Before(w).TheSecret().value.(owner := WantedOwner(db)))
    ensures outcome.Ok? ==>
              if db.whenDeleted == "Delete" then secret.owner == Some(db.uid) || OwnedBy(w.state.TheSecret(), db.uid)
              else secret.owner != Some(db.uid) || Unowned(w.state.TheSecret())
    ensures outcome.Error? ==>
              w.faults > old(w.faults) || Refused(w.state.progress) || Vanished(w.state)
  {
    var wantOwned, isOwned := SecretOwnedByDatabase(db), IsControlledBy(secret, db);
    if wantOwned == isOwned {
      w.Do(KeepSecretOwner);
      return Ok;
    }
    if wantOwned && secret.owner.Some? {
      // Another controller already owns the Secret.
      return Error;
    }
    outcome := PatchOwner(w, db, secret);
  }

  method PatchOwner(w: World<State, Event>, db: Database, secret: Secret) returns (outcome: Outcome)
    requires w.Runs(GUARDED) && w.state.progress == SecretRead(db, Some(secret)) && Patchable(secret, db)
    modifies w
    ensures w.faults >= old(w.faults)
    ensures w.Runs(GUARDED) && w.run.Continues(old(w.run)) && !outcome.Blocked?
    ensures w.state.progress == SecretDone(db) || (!outcome.Ok? && w.state.progress == old(w.state).progress)
    ensures outcome.Ok? ==>
              && EndsWith(w, PatchSecretOwner) && Before(w).TheSecret().Some?
              && w.state.TheSecret() == Some(Before(w).TheSecret().value.(owner := WantedOwner(db)))
    ensures outcome.Error? ==> w.faults > old(w.faults) || Vanished(w.state)
  {
    Interfere(w);
    var failed := w.Fails();
    if failed || w.state.TheSecret().None? {
      return Error;
    }
    w.Do(PatchSecretOwner);
    var lost := w.Fails();
    outcome := if lost then Error else Ok;
  }

  predicate Foreign(found: Option<StatefulSet>, db: Database)
  {
    found.Some? && found.value.owner != db.uid
  }

  /** An update goes out under the version that was read, which is not the present one any more. */
  predicate Outdated(s: State)
  {
    s.progress.SetRead? &&
    if s.progress.found.None? then s.TheSet().Some? else s.progress.at + 1 != |s.sets|
  }

  /** On success the StatefulSet is as the SereneDB wants it. It fails only by a fault, over one of another owner, which
      is left alone, or over an old copy. */
  method ReconcileStatefulSet(w: World<State, Event>, db: Database) returns (outcome: Outcome)
    requires w.Runs(GUARDED) && w.state.progress == SecretDone(db)
    modifies w
    ensures w.faults >= old(w.faults)
    ensures w.Runs(GUARDED) && w.run.Continues(old(w.run)) && !outcome.Blocked?
    ensures if outcome.Ok? then w.state.progress == SetDone(db) else !w.state.progress.Idle?
    ensures w.state.progress.SetRead? && Foreign(w.state.progress.found, db) ==>
              outcome.Error? && w.run.events == old(w.run.events) + [ReadSet(w.state.progress.at)]
    ensures outcome.Ok? ==>
              && (EndsWith(w, WriteSet) || EndsWith(w, KeepSet)) && w.state.TheSet() == Some(WantedSet(db))
              && Before(w).progress.SetRead? && !Foreign(Before(w).progress.found, db)
              && w.state.TheSet() == Some(StatefulSet(db.uid, if db.whenDeleted == "Delete" then Delete else Retain))
    ensures outcome.Error? ==>
              || w.faults > old(w.faults) || Outdated(w.state)
              || (w.state.progress.SetRead? && w.state.progress.db == db && Foreign(w.state.progress.found, db))
  {
    var v: int := *;
    if !(w.state.setAt <= v < |w.state.sets|) {
      // The StatefulSet could not be read.
      w.Fault();
      return Error;
    }
    var found := w.state.sets[v];
    w.Do(ReadSet(v));
    if found.Some? && found.value.owner != db.uid {
      outcome := Error;
    } else {
      outcome := SendSet(w, db, found, v);
    }
  }

  method SendSet(w: World<State, Event>, db: Database, found: Option<StatefulSet>, v: nat) returns (outcome: Outcome)
    requires w.Runs(GUARDED) && w.state.progress == SetRead(db, found, v) && !Foreign(found, db)
    modifies w
    ensures w.faults >= old(w.faults)
    ensures w.Runs(GUARDED) && w.run.Continues(old(w.run)) && !outcome.Blocked?
    ensures w.state.progress == SetDone(db) || (outcome.Error? && w.state.progress == old(w.state).progress)
    ensures outcome.Ok? ==>
              && (EndsWith(w, WriteSet) || EndsWith(w, KeepSet)) && w.state.TheSet() == Some(WantedSet(db))
              && Before(w).progress == SetRead(db, found, v)
    ensures outcome.Error? ==> w.faults > old(w.faults) || Outdated(w.state)
  {
    Interfere(w);
    var failed := w.Fails();
    if failed || (if found.None? then w.state.TheSet().Some? else v + 1 != |w.state.sets|) {
      return Error;
    }
    var same: bool := *;
    PutSet(w, db, same && found == Some(WantedSet(db)));
    var lost := w.Fails();
    outcome := if lost then Error else Ok;
  }

  method PutSet(w: World<State, Event>, db: Database, same: bool)
    requires w.Runs(GUARDED) && w.state.progress.SetRead? && w.state.progress.db == db && !Outdated(w.state)
    requires !Foreign(w.state.progress.found, db) && (same ==> w.state.progress.found == Some(WantedSet(db)))
    modifies w
    ensures w.Runs(GUARDED) && w.run.Continues(old(w.run)) && w.faults == old(w.faults)
    ensures w.state.progress == SetDone(db) && w.state.TheSet() == Some(WantedSet(db))
    ensures (EndsWith(w, WriteSet) || EndsWith(w, KeepSet)) && Before(w) == old(w.state)
  {
    FoundCopy(w.run);
    SetSent(w.state, same);
    w.Do(if same then KeepSet else WriteSet);
  }

  lemma FoundCopy(run: Run<State, Event>)
    requires run.Of(GUARDED) && run.Last().progress.SetRead?
    ensures var s := run.Last(); s.progress.at < |s.sets| && s.sets[s.progress.at] == s.progress.found
  {
    InvAlways(EMPTY, run, |run.events|);
  }

  lemma SetSent(s: State, same: bool)
    requires s.progress.SetRead? && s.progress.at < |s.sets| && s.sets[s.progress.at] == s.progress.found
    requires same ==> s.progress.found == Some(WantedSet(s.progress.db))
    requires if s.progress.found.None? then s.TheSet().None?
             else !Foreign(s.progress.found, s.progress.db) && s.progress.at + 1 == |s.sets|
    ensures var e := if same then KeepSet else WriteSet;
            && GuardedEnabled(s, e) && Step(s, e).progress == SetDone(s.progress.db)
            && Step(s, e).TheSet() == Some(WantedSet(s.progress.db))
  {
  }

  method Interfere(w: World<State, Event>)
    requires w.Runs(GUARDED)
    modifies w
    ensures w.Runs(GUARDED) && w.run.Continues(old(w.run))
    ensures w.state.progress == old(w.state).progress && w.faults == old(w.faults)
  {
    ghost var before, progress := |w.run.events|, w.state.progress;
    w.Others();
    ExternalInvariance(GUARDED, (s: State) => s.progress == progress, w.run, before, |w.run.events|);
  }
}
