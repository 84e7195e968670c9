# Verified model of serenedb-operator

The operator reconciles six kinds of Kubernetes objects (SereneDB, DatabaseRole, Database, ServerSecret, Backup and
ScheduledBackup) against two unreliable stores: the Kubernetes API and a SQL server. This project models its state machines
and its printers in Dafny and proves what they keep.

## How a protocol is modelled

A reconcile is a sequence of small steps over an explicit state: what is in the stores, and a program counter (`Progress`)
with the copies the running pass works on. `Enabled` and `Step` give one step per effect on a store. Users, the garbage
collector, the StatefulSet controller, the snapshot controller and the clock act between any two steps, and `Crash` may end a
pass at any step, which covers every failed call, every lost status write and a restart of the operator. A request that took
effect although its answer got lost is the step followed by `Crash`. `Machines.Run` is any sequence of enabled steps from the
start, and the main theorems hold at every moment of every run, so in the middle of a pass as well.

Reads go through the manager's cached client (cmd/main.go:182). Each read of an object takes any version of it that is not
older than the one read before, so that a pass may work on copies that lag behind its own writes; a status is written by a
merge patch without a lock, which carries only what the pass changed of its copy. An update of a whole object goes out under
the version that was read, and is refused when that is an old one. Where a promise depends on how old the copies were, the
model has a run in which it fails and a theorem that says exactly when it holds, or counts what old copies cost.

Beside each machine stands the code in its own form: methods that follow the branches of the Go functions and act on a
`Machines.World`, an object with the present state and the history that led there. Their contracts say that the history stays
a run of the machine (so that every theorem applies to it), which status a pass leaves, what success means, and what a
failure can come from: `World.faults` counts the requests that failed, whose answer got lost, or that missed a resource
outside the machine (such as the TLS Secret), and without one a pass fails only where the code refuses to go on.

| Module | Source | Subject |
|---|---|---|
| `SecretLifetime` | serenedb_controller.go, secret.go, statefulset.go | the generated Secret and the volume initialised with it |
| `Rollout` | serenedb_controller.go | Ready and `status.version` from counters that lag |
| `RolePassword` | databaserole_controller.go | the password and the recorded Secret version |
| `Memberships` | databaserole_controller.go | GRANT and REVOKE until the memberships are right |
| `Dependents` | dependent.go, database_controller.go, serversecret_controller.go | the finalizer protocol |
| `Backups` | backup_controller.go, snapshot.go | the phases of a Backup and its side effects |
| `Schedules`, `Ticks`, `BackupStore`, `KeptBackups`, `Retention`, `BackupNames` | scheduledbackup_controller.go | due times, counts, names, pruning |
| `SqlText`, `RoleStatements`, `SecretStatements` | session.go, statements.go, serversecret_controller.go | SQL text and its reading |
| `ServerConfig`, `ConfigDigest` | configmap.go, statefulset.go | the flagfile, its reading, and the config hash |
| `Machines`, `Sorting`, `Strings` | | runs and their induction, sorting, string order and decimals |

## Assumptions

- One pass per object at a time. Cached reads never go back in version, but may stay old for any length of time.
- `SecretLifetime`: the SereneDB, the Secret and the StatefulSet are read from the cache, deleted SereneDBs and earlier ones
  of the name included. `spec.auth` is fixed without an existing Secret, the claim comes from the template, there is no
  bootstrap, nobody else touches the Secret or the StatefulSet, and deleting a StatefulSet removes its claim exactly if the
  retention policy recorded in it says Delete. One step of the garbage collector takes all that a deleted SereneDB owns at
  that moment.
- `SecretLifetime` and `Rollout`: the API server fills in fields of a stored StatefulSet that the builder leaves unset
  (internal/resources/statefulset.go:44 and 98-190: the update strategy's partition, the restart policy, probe timeouts and
  others), so the copy read never equals the one wanted and every pass sends an update. One that asks for nothing new changes
  nothing, but over an old copy it is refused like any other.
- `Rollout`: the SereneDB and the StatefulSet are read from the cache. The operator alone writes the StatefulSet. Its
  controller publishes a generation together with that generation's counts and revisions; it may work on an old copy that
  never goes back.
- `RolePassword`: the DatabaseRole and the Secret are read from the cache. Secret versions increase strictly, the Secret's
  name and key are fixed, and nobody else creates the role or sets its password.
- `Dependents`: the object and its SereneDB are read from the cache. The cluster reference and the server name are fixed,
  nobody else edits the finalizer or manages that name on the server. The server may lose its data at any time.
- `Backups`: the Backup and its SereneDB are read from the cache, VolumeSnapshots from the API server itself, since they are
  unstructured objects, which the client does not cache. No VolumeSnapshot of the Backup's name exists beforehand and nobody
  else creates one. It may be deleted, and deletions are counted.
- `Schedules`: the schedule with its status and the list of Backups are read from the cache. `Next` of a five-field schedule
  is an abstract function that answers with the least fire time strictly after its argument; fire times are whole seconds;
  there always is a next one. Stored times are cut to whole seconds. The clock does not run backwards and stays within
  four-digit years. Nobody else creates or deletes the schedule's Backups; their phases may change in any way, since passes
  over old copies may move them back.
- SQL: names have no NUL, since the quoting of identifiers is the pgx library's and only its doubling of quotes is known. A
  secret type is one of the words the API admits.
- Go's strings stand as sequences of characters, one per byte where bytes matter. `int32` and `int64` values are only printed
  and compared, so they are unbounded here.

## What turned out different from the documentation or the obvious claim

- The Secret lives as long as the volume if and only if each deletion of a SereneDB is safe
  (`SecretLifetime.DeletionIsSafeExactlyWhen`) and so is each pass that begins over a copy of one that is gone
  (`SecretLifetime.BeginIsSafeExactlyWhen`): it owns the Secret only together with a StatefulSet that deletes its claim, and
  the running pass can no longer change that. Four runs show what is not: a deletion between the write of the Secret's owner
  and that of the retention policy (`DeleteInsideWindow`), one during a pass (`DeleteDuringPass`), one after a complete pass
  for the present policy that had read an old copy of the Secret (`StaleSecretBreaksPromise`), and a pass that begins after a
  safe deletion because the cache still shows the SereneDB (`StalePassAfterDeletion`). A deletion after a complete pass that
  read only present versions is safe (`PasswordOutlivesSettled`).
- Ready for the present spec means that it is served, however old the copies are (`Rollout.ReadyMeansServing`), but
  `status.version` can then still be the tag of the spec before, when a pass works on an old copy whose version is already
  the right one, so that the patch leaves it out (`Rollout.OldStatusKeepsVersion`; exactly when:
  `Rollout.VersionExactlyWhen`).
- "When status records the Secret's present version, the server has its present password" fails exactly while the role is one
  that was created without a password and not given one since (`RolePassword.PasswordCurrentExactlyWhen`), which takes a
  pass over an unset `passwordSecret` (`OnlyUnsetReferenceBares`, `UnsetReferenceLosesPassword`).
- A group listed twice in `inRoles` and missing on the server is granted twice; every statement changes something exactly
  when no missing group is listed twice (`Memberships.NeedlessExactlyOnRepetition`).
- A Retain object can see its database dropped while the cache still shows the Delete object of that name before it
  (`Dependents.DropHitsRetained`; exactly when: `Dependents.DropsExactlyWhen`). An object can go and stay on the server while
  the cache still shows its SereneDB as absent or going (`Dependents.LeavesExactlyWhen`). An object with policy Delete that
  is removed before its first pass leaves standing what an earlier object of that name created and retained
  (`Dependents.RemovedBeforeFinalizer`, `Dependents.VanishesExactlyWithoutFinalizer`).
- Completed and Failed are final only if every copy of the Backup that the cache may still show is
  (`Backups.FinalExactlyWhen`); `Backups.CompletedThenFailed` is a run from Completed to Failed that keeps `completedAt`.
- A prune always spares the newest Backup that ever completed, but a pass over an old copy can take its status from it,
  so that none is completed (`KeptBackups.CompletedStatusLost`), and a prune can delete a Backup that such a pass has set
  back to work (`KeptBackups.UnfinishedDeleted`). `KeptBackups.NewestIsKept` and `KeptBackups.OnlyOldOnesGo` say exactly when, by
  which Backups were moved since they completed; over present copies none is (`KeptBackups.KeptOverPresentCopies`).
- `status.startedAt` is documented as the time of the CHECKPOINT. It is the time of the CHECKPOINT before the snapshot's
  creation exactly if the pass that wrote it also created the snapshot (`Backups.StartedAtExactlyWhen`); after a lost status
  write it is a later one (`Backups.StartedAtAfterLostPatch`).
- A tick over an old status makes one more Backup than there are reasons (`Schedules.OldStatusMakesAnother`).
- An option called `scope` in any case, sorted first and without a scope in the spec, prints the same statement as that scope
  (`SecretStatements.ScopeReadsExactlyWhen`). "The Secret wins" holds exactly if the last key in order of each upper-cased
  name has the Secret's value (`SecretStatements.SecretWinsExactlyWhen`); an inline key in lower case comes after the
  Secret's in upper case (`SecretStatements.LowerCaseKeyComesLast`).
- A comma in `sslmode` is read as the end of the first listener (`ServerConfig.ListenReadsExactlyWhen`). NULs in ConfigMap
  values let different data have one hash (`ConfigDigest.NulsCollide`).

## Model

| member | source | states |
|---|---|---|
| `SecretLifetime.PasswordOutlivesNothing` | internal/controller/serenedb_controller.go:133-206 | With safe deletions and begins, at every moment of every run, whatever fails and however old the copies are: an initialised data volume comes with the Secret that still holds the password it was initialised with. |
| `SecretLifetime.DeletionIsSafeExactlyWhen` | internal/resources/statefulset.go:56-63 | For every state the runs lead to: all continuations of a deletion keep the promise if and only if the deletion is safe, a condition on the Secret, the StatefulSet and the running pass. |
| `SecretLifetime.BeginIsSafeExactlyWhen` | internal/controller/serenedb_controller.go:80-91 | For every state the runs lead to, with or without a successor: all continuations of a pass that begins over a copy of a SereneDB that is gone keep the promise if and only if that begin is safe, a condition on the copy, the Secret, its versions the cache may show, and the StatefulSet. |
| `SecretLifetime.PasswordOutlivesSettled` | internal/controller/serenedb_controller.go:80-131 | The promise holds at every moment of every run in which SereneDBs are deleted only after a complete pass that read present versions, with no edit and no other pass since, and passes begin over live ones. |
| `SecretLifetime.SettledIsSafe` | internal/controller/serenedb_controller.go:80-131 | After such a pass a deletion is safe. |
| `SecretLifetime.InvStep` | internal/controller/serenedb_controller.go:109-131 | Every step of a pass over old copies, of users, the garbage collector and the pod keeps that dead owners are harmless and the password is kept. |
| `SecretLifetime.DeleteInsideWindow` | internal/controller/serenedb_controller.go:185-206 | A run cut short between Secret and StatefulSet after which a deletion is not safe. |
| `SecretLifetime.StaleSecretBreaksPromise` | internal/controller/serenedb_controller.go:185-206 | A run that ends with a complete pass for the present policy over an old copy of the Secret, after which a deletion loses the password. |
| `SecretLifetime.DeleteDuringPass` | internal/controller/serenedb_controller.go:169-183 | A run in which a deletion during a pass keeps the promise at that instant and loses it later. |
| `SecretLifetime.StalePassAfterDeletion` | internal/controller/serenedb_controller.go:80-91 | A run with a complete pass and a safe deletion after which a pass over the cached SereneDB loses the password. |
| `SecretLifetime.Reconcile` | internal/controller/serenedb_controller.go:80-131 | A pass over the version the cache shows is made and keeps the promise whatever fails; one that succeeds has settled exactly if it read only present versions, and then a deletion is safe; it fails only by a failed request, a Secret without the key, of another owner or gone since it was read, or a StatefulSet of another owner or an old copy of it. |
| `SecretLifetime.ReconcileSecret` | internal/controller/serenedb_controller.go:133-151 | Success means the Secret was created, found by the create, left alone, or given the wanted owner; a copy without the key, and only that, blocks. |
| `SecretLifetime.CreateGeneratedSecret` | internal/controller/serenedb_controller.go:169-183 | On success the Secret exists: a present one is as it was, a missing one has the password and the owner the SereneDB wants. |
| `SecretLifetime.SyncSecretOwnership` | internal/controller/serenedb_controller.go:185-206 | Refuses a Secret of another owner, leaves it alone when the copy is as wanted, and otherwise leaves the wanted owner in place. |
| `SecretLifetime.ReconcileStatefulSet` | internal/controller/serenedb_controller.go:280-299 | On success the StatefulSet is the SereneDB's with the retention policy of the pass's copy; one of another owner is refused and left alone. |
| `Rollout.ReadyMeansServing` | internal/controller/serenedb_controller.go:348-386 | At every moment of every run, however old the copies that passes work on: Ready for the present spec means that the StatefulSet is the one rendered from it, a ready pod was published for exactly that StatefulSet generation, and no pod runs another template. |
| `Rollout.PassReportsReadyExactlyWhen` | internal/controller/serenedb_controller.go:348-386 | From any idle moment of any run, an undisturbed pass over the latest versions ends Ready for the present spec if and only if the StatefulSet already said what it asks for and its rollout was complete. |
| `Rollout.VersionExactlyWhen` | internal/controller/serenedb_controller.go:348-376 | At every moment of every run with Ready for the present spec, `version` is its tag if and only if the patch for the rollout did not leave it out. |
| `Rollout.OnlyOldCopiesMiss` | internal/controller/serenedb_controller.go:92-97 | The version is left out only by a pass over an old copy of the SereneDB. |
| `Rollout.OldStatusKeepsVersion` | internal/controller/serenedb_controller.go:92-97 | A run that ends Ready for the present spec with the version of the spec before. |
| `Rollout.VersionWaitsForRollout` | internal/controller/serenedb_controller.go:348-386 | Ready turns on and `version` changes only in a status patch while the spec of the pass's copy is served; a version once shown belonged to a pod that was ready. |
| `Rollout.CompletedOnlyWhileReady` | internal/controller/serenedb_controller.go:378-386 | In every run a StatefulSet generation counts as completed only by a status published while the pod was ready and ran that generation's template. |
| `Rollout.InvStep` | internal/controller/serenedb_controller.go:280-299 | Every read of an old copy, every write, every lagging publication and every pod event keeps the counters' meaning. |
| `Rollout.Reconcile` | internal/controller/serenedb_controller.go:80-107 | A pass over the version the cache shows is made; over the present copy success leaves the StatefulSet's ready count, Ready and Progressing exactly as its four counters say, and the tag or the default one once they say complete; whatever happened, Ready for the present spec means that it is served; a pass fails only by a failed request or over an old copy of the StatefulSet. |
| `Rollout.PatchesShowWhatWasFound` | internal/controller/serenedb_controller.go:348-386 | In every run each patch over the present copy leaves, field by field, the counters, conditions and version that the pass found, none ready while it is blocked, and Progressing after an error. |
| `Rollout.MergeLaws` | internal/controller/serenedb_controller.go:92-97 | The status patch carries what differs from the copy and no more, for every present status and every copy. |
| `Rollout.ReconcileStatefulSet` | internal/controller/serenedb_controller.go:280-299 | Success gives the present StatefulSet, just written or confirmed, rendered from the spec: its tag or 26.09.2, its other pod fields and its other fields. |
| `RolePassword.PasswordCurrentExactlyWhen` | internal/controller/databaserole_controller.go:72-131 | At every moment of every run: the server has the Secret's present value whenever the recorded version is the present one, except exactly while such a record stands beside a role that was created without a password and not given one since. |
| `RolePassword.OnlyUnsetReferenceBares` | internal/controller/databaserole_controller.go:111-131 | Such a role comes only from a CREATE by a pass that saw the reference unset. |
| `RolePassword.InvStep` | internal/controller/databaserole_controller.go:72-108 | Every step keeps, for every version on record in any copy, that a role which is not bare has a password the Secret held at that version or a later one already read. |
| `RolePassword.UnsetReferenceLosesPassword` | internal/controller/databaserole_controller.go:111-131 | A run in which the reference was unset for a while ends with the promise broken, and a further undisturbed pass does not repair it. |
| `RolePassword.Pass` | internal/controller/databaserole_controller.go:44-70 | The exact effect of an undisturbed pass on role and status, for every history of the Secret and the role. |
| `RolePassword.Reconcile` | internal/controller/databaserole_controller.go:44-70 | Whatever fails and however old the copies are, the promise holds after a pass exactly unless the role is bare and the record present; success means the status was patched, failure that a request failed, the version of the Secret was not there, a password to send had a NUL, or the role came or went after the query for it. |
| `RolePassword.ExecStatement` | internal/controller/databaserole_controller.go:184-189 | A NUL, and only that, blocks; success leaves the Secret's password on creation and on a changed version, the password the role had on an unchanged one, and none on a role created without a reference. |
| `Memberships.Session.Converge` | internal/controller/databaserole_controller.go:133-166 | Success leaves exactly the listed groups; the statements are the missing groups in order and then each unlisted group once, in any order; it fails exactly at the first error answer, and then leaves no larger difference. |
| `Memberships.Session.GrantMissing` | internal/controller/databaserole_controller.go:133-152 | Grants exactly the entries not in the queried memberships, in order. |
| `Memberships.Session.RevokeUnlisted` | internal/controller/databaserole_controller.go:153-166 | Revokes each queried membership that is not listed exactly once, for every iteration order. |
| `Memberships.NeedlessExactlyOnRepetition` | internal/controller/databaserole_controller.go:133-166 | Every statement of a successful pass changes something if and only if no missing group is listed twice. |
| `Memberships.StatementsShrinkDifference` | internal/controller/databaserole_controller.go:133-166 | A statement that changes something removes one group from the symmetric difference, any other was about a group already right. |
| `Memberships.GrantsNeeded` | internal/controller/databaserole_controller.go:133-152 | A sequence of grants adds exactly its groups, and each is effective if and only if they are distinct and new. |
| `Dependents.NothingLeftBehind` | internal/controller/dependent.go:127-153 | At every moment of every run: once an object that had its finalizer and wanted a drop is gone, its name is absent on the server, unless the version of its SereneDB that the pass read was absent or going. |
| `Dependents.StatementsAreGuarded` | internal/controller/dependent.go:156-165 | No CREATE is sent while the finalizer is missing; a DROP is sent only for a ServerSecret or under the policy Delete, for a version that was being deleted and that the pass read last, so a Retain object is hit only if it came or changed since. |
| `Dependents.WantsDropExactlyWhen` | internal/controller/databaserole_controller.go:51-56 | Databases and roles ask for a drop under Delete only, ServerSecrets always. |
| `Dependents.DropsExactlyWhen` | internal/controller/dependent.go:127-153 | The next undisturbed pass can send a DROP if and only if the cache may still show a version that asked for it and a SereneDB that is not going, and there is something to drop. |
| `Dependents.DropHitsRetained` | internal/controller/dependent.go:127-153 | A run in which the database of a Retain object is dropped for the Delete object before it. |
| `Dependents.LeavesExactlyWhen` | internal/controller/dependent.go:113-123 | The next undisturbed pass can let an object that asks for a drop go and leave it on the server if and only if it is there and the cache may still show an absent or going SereneDB. |
| `Dependents.RetriedDropSucceeds` | internal/controller/dependent.go:127-153 | Wherever earlier passes were cut short, one undisturbed pass ends the deletion. |
| `Dependents.RemovedBeforeFinalizer` | internal/controller/dependent.go:156-165 | A run in which a Delete object vanishes before its finalizer and an earlier object's database stays. |
| `Dependents.InvStep` | internal/controller/dependent.go:111-165 | Every step keeps the invariant behind these theorems, with both cached objects lagging. |
| `Dependents.Reconcile` | internal/controller/database_controller.go:41-67 | A pass over the version the cache shows keeps the promise; success means that an object being deleted is gone with what it was to drop, that another one has its finalizer, or that one that had it is on the server, and failure that a request failed, the SereneDB was absent, the object had changed since, or it was not on the server. |
| `Dependents.Apply` | internal/controller/database_controller.go:69-88 | Success means the object is on the server; a Database that is there is left alone, a role altered, everything else created. |
| `Dependents.Finalize` | internal/controller/dependent.go:127-153 | Without the finalizer nothing is done; for a Database or a Role under Retain no DROP is sent, whatever the outcome; success leaves no object and nothing on the server that was wanted gone: the finalizer was removed, or the object was gone already. |
| `Dependents.DropOnServer` | internal/controller/serversecret_controller.go:112-122 | For a Database or a Role under Retain, and for a SereneDB that is going, no DROP is sent; otherwise success leaves the object absent. |
| `Dependents.EnsureFinalizer` | internal/controller/dependent.go:156-165 | Success means the finalizer was written on the version that was read; it fails only when a request fails or the object has changed since. |
| `Backups.SnapshotsAreCounted` | internal/controller/backup_controller.go:81-126 | At every moment of every run snapshots were created at most once more than they were deleted. |
| `Backups.StartedAtExactlyWhen` | internal/controller/backup_controller.go:99-126 | At every moment of every run a `startedAt` is the time of a CHECKPOINT, and of the one before the creation of the present snapshot if and only if one pass wrote the one and created the other. |
| `Backups.StartedAtAfterLostPatch` | internal/controller/backup_controller.go:63-78 | A run over fresh copies whose `startedAt` belongs to a CHECKPOINT after the snapshot. |
| `Backups.PhasesAreConsistent` | internal/controller/backup_controller.go:63-162 | As long as no pass worked on a status other than the present one, start time, snapshot name, error and completion time agree with the phase, and each step moves the phase only along Pending, Running, Completed or Failed. |
| `Backups.TerminalIsFinal` | internal/controller/backup_controller.go:63-70 | As long as no pass worked on a status other than the present one, nothing changes after Completed or Failed. |
| `Backups.FinalExactlyWhen` | internal/controller/backup_controller.go:63-70 | From any state, in the middle of a pass as well: the status stays in all continuations if and only if every copy the cache may still show is terminal. |
| `Backups.CompletedThenFailed` | internal/controller/backup_controller.go:129-152 | A run from Completed to Failed, the completion time left in place. |
| `Backups.SnapshotFollowsCheckpoint` | internal/controller/backup_controller.go:81-126 | Every snapshot request follows, in the same pass, a read of a version of the SereneDB and a CHECKPOINT that succeeded, and creates a snapshot of the claim that the server of that version mounts; the version is the one the cache showed last, which may be an old one. |
| `Backups.CompletedSawReady` | internal/controller/backup_controller.go:129-152 | Completed is reached only after the snapshot was seen ready and without error. |
| `Backups.FailedSawCause` | internal/controller/backup_controller.go:81-162 | In every run Failed is reached only after an unsupported method, a missing snapshot API, or an observed snapshot that is missing or carries an error. |
| `Backups.DecisionsSaySo` | internal/controller/backup_controller.go:81-162 | In every run, what each step decides, as a status: Pending, Failed, Running or Completed with the message, start, completion and snapshot name, and nothing else of the copy changed. |
| `Backups.MergeLaws` | internal/controller/backup_controller.go:71-76 | The status patch carries what differs from the copy and no more. |
| `Backups.CompletesByObserving` | internal/resources/snapshot.go:58-63 | Only observing a ready snapshot turns a state towards Completed. |
| `Backups.Reconcile` | internal/controller/backup_controller.go:52-78 | Whatever fails, a pass creates no second snapshot; over present copies it leaves a consistent status reached by an allowed move; a terminal copy is left alone, and success over another one has patched the status; it fails only by a request that failed. |
| `Backups.Start` | internal/controller/backup_controller.go:81-126 | What it returns for each answer: an unsupported method or no snapshot API fails the Backup, a missing SereneDB, a refused session or a failed CHECKPOINT leaves it pending with the message, a request makes it running since the CHECKPOINT; nothing else of the copy changes. |
| `Backups.Observe` | internal/controller/backup_controller.go:129-152 | For a running Backup: a missing snapshot or one with an error fails it, one not yet ready leaves it, a ready one completes it at the time of the look. |
| `Schedules.DueExactlyWhenFired` | internal/controller/scheduledbackup_controller.go:98-107 | A tick is due if and only if a fire time lies after the last run (or creation) up to now, or it is the first immediate run. |
| `Schedules.TickAnnouncesNextDue` | internal/controller/scheduledbackup_controller.go:83-107 | After a stored tick nothing up to now is uncovered, and for all later times the schedule is due exactly from the next fire time on, although the stored last time lost its fraction; the status announces that time exactly if the patch wrote it or it stood there. |
| `Schedules.BackupsAreCounted` | internal/controller/scheduledbackup_controller.go:52-128 | At every moment of every run, Backups created are at most the fire times so far, one for an immediate start, the ticks that broke off after their create or worked on an old status, and one for a tick that has just created its own. |
| `Schedules.OldStatusMakesAnother` | internal/controller/scheduledbackup_controller.go:52-69 | A run with two Backups before the first fire time, the second made for an old status. |
| `Schedules.CutHidesNoFire` | internal/controller/scheduledbackup_controller.go:98-107 | Cutting a time to whole seconds changes no next fire time. |
| `Schedules.MergeLaws` | internal/controller/scheduledbackup_controller.go:52-69 | The status patch carries what differs from the copy and no more. |
| `Schedules.ScheduleInvStep` | internal/controller/scheduledbackup_controller.go:71-96 | Every step keeps the invariant behind due times and counts, over old copies as well. |
| `Ticks.Reconcile` | internal/controller/scheduledbackup_controller.go:52-69 | At most one Backup per pass, none unless due; success patches last time, name and next time of the tick, or no next time when suspended or unparsable; failure comes from a request that failed, and has patched the same and lost the answer, or nothing. |
| `Ticks.Tick` | internal/controller/scheduledbackup_controller.go:71-96 | What a tick at a given time makes of the status and of the number of Backups, due or not. |
| `Ticks.CreateBackup` | internal/controller/scheduledbackup_controller.go:109-128 | Adds a Backup under the name of the second unless one has it, and records time and name. |
| `Ticks.Prune` | internal/controller/scheduledbackup_controller.go:131-158 | Success deletes exactly the completed Backups beyond `keep`; cut short it deletes only such; without `keep` none. |
| `Ticks.DeleteFrom` | internal/controller/scheduledbackup_controller.go:153-158 | The loop from index `keep` deletes what has `keep` or more newer completed Backups, and stops at the first failure. |
| `Ticks.Completed` | internal/controller/scheduledbackup_controller.go:140-145 | The filtered list holds each completed Backup once, for every order of the listing. |
| `BackupStore.NewerFollowsRuns` | internal/controller/scheduledbackup_controller.go:146-151 | Creation time and name together order the Backups of one schedule as their runs. |
| `KeptBackups.NewestIsKept` | internal/controller/scheduledbackup_controller.go:131-158 | At every moment of every run, however old the lists and whatever phases Backups move to: the newest Backup that ever completed is still there, completed unless it was moved since; a completed one exists if and only if not all that ever completed and are there were moved; and completed ones number at most the last full prune's `keep` plus the completions since its listing. |
| `KeptBackups.OnlyOldOnesGo` | internal/controller/scheduledbackup_controller.go:153-158 | What a prune deletes had completed and is older than one that completed; it is unfinished at the delete if and only if it was moved since. |
| `KeptBackups.KeptOverPresentCopies` | internal/controller/scheduledbackup_controller.go:131-158 | As long as phases move as passes over present copies move them, a completed Backup exists from the first completion on, the newest that ever completed among them. |
| `KeptBackups.OnlyOldPassesMove` | internal/controller/scheduledbackup_controller.go:131-158 | A Backup is moved after its completion only by a move that no pass over a present copy makes. |
| `KeptBackups.CompletedStatusLost` | internal/controller/scheduledbackup_controller.go:140-145 | A run in which a Backup has completed and none is completed. |
| `KeptBackups.UnfinishedDeleted` | internal/controller/scheduledbackup_controller.go:153-158 | A run in which a prune deletes a Backup that is running again. |
| `KeptBackups.StoreInvStep` | internal/controller/scheduledbackup_controller.go:109-158 | Every step keeps the newest, the bound and the origin of each Backup, with any change of phase between listing and deleting and a `keep` edited meanwhile. |
| `KeptBackups.TakenBySameSecond` | internal/controller/scheduledbackup_controller.go:109-128 | In every run a create finds its name taken if and only if an earlier run of the same second created a Backup. |
| `KeptBackups.OrderFollowsRuns` | internal/controller/scheduledbackup_controller.go:146-151 | In every run the comparator orders the completed Backups by the runs that created them. |
| `Retention.NewerIsStrictTotal` | internal/controller/scheduledbackup_controller.go:146-151 | The comparator is a strict total order on creation time and name. |
| `Retention.TailIsDoomed` | internal/controller/scheduledbackup_controller.go:146-155 | Sorted newest first, positions `keep` and beyond hold exactly those with `keep` or more newer ones. |
| `Retention.SparedAreNewest` | internal/controller/scheduledbackup_controller.go:146-155 | Exactly min(keep, n) are spared, and they are the greatest. |
| `Retention.PartialPruneFinishes` | internal/controller/scheduledbackup_controller.go:153-158 | After any part of the deletes the same Backups are spared and the rest of the same ones are due for deletion. |
| `BackupNames.NamesFollowTime` | internal/controller/scheduledbackup_controller.go:109-126 | Names of one schedule coincide exactly within a second and grow with time, across months, leap days and years. |
| `BackupNames.NameReads` | internal/controller/scheduledbackup_controller.go:109-126 | A name is the schedule's, a dash, and 15 characters whose digits give the date and time of day of the run's second in UTC, by a closed formula for the day number and within the month's length. |
| `BackupNames.UtcIsGregorian` | internal/controller/scheduledbackup_controller.go:109-126 | For every time the civil date has the day number of the whole days since 1970 and lies within its month, and hour, minute and second are the rest. |
| `BackupNames.UtcOrder` | internal/controller/scheduledbackup_controller.go:109-126 | The civil date and time grow with the seconds. |
| `BackupNames.EpochIsNewYear1970` | internal/controller/scheduledbackup_controller.go:109-126 | The calendar is anchored where Unix time is. |
| `SqlText.UnquotedOf` | internal/sqlexec/session.go:101-112 | Reading a quoted text gives it back, whatever quotes it contains. |
| `SqlText.LexesQuoted` | internal/sqlexec/session.go:101-112 | An identifier or literal is one token of sections 5.2 and 5.3 of ISO/IEC 9075-2, wherever it stands. |
| `SqlText.LiteralExactlyWithoutNul` | internal/sqlexec/session.go:107-112 | A literal is refused exactly for a text with a NUL. |
| `RoleStatements.CreateRole` | internal/statements/statements.go:100-106 | Fails exactly on a NUL in a used literal; otherwise reading and executing the text on an unset role gives exactly the attributes, under exactly the name. |
| `RoleStatements.AlterRole` | internal/statements/statements.go:109-115 | The same on any role: the five switches converge, an absent limit, time or password leaves what was there. |
| `RoleStatements.Render` | internal/statements/statements.go:71-97 | The text is read as items that turn any role into the wished one. |
| `RoleStatements.SettingsRead` | internal/statements/statements.go:71-97 | Reading the tokens of any list of items, whatever follows, gives the list and then what follows. |
| `SecretStatements.SecretWinsExactlyWhen` | internal/controller/serversecret_controller.go:92-110 | For all options and Secrets: every key of the Secret is found with the Secret's value if and only if the last merged key of that upper-cased name has it. |
| `SecretStatements.CreateSecret` | internal/statements/statements.go:152-177 | Fails exactly on a bad option name or a NUL, reporting the name first; otherwise one text for every iteration order, read back as name, type, scope and options in key order. |
| `SecretStatements.UpperLetters` | internal/statements/statements.go:168-174 | Upper-casing turns each of the 26 letters into its capital and leaves everything else. |
| `SecretStatements.OptionNames` | internal/statements/statements.go:152-160 | An option name consists of letters, digits and underscores with no digit in front, and everything that does is one. |
| `SecretStatements.StatementReads` | internal/statements/statements.go:152-177 | The text of any statement is read back as that statement. |
| `SecretStatements.OptionsReadExactlyWhen` | internal/statements/statements.go:168-174 | Every option is found under its upper-cased name if and only if keys that differ only in case have one value. |
| `SecretStatements.ScopeReadsExactlyWhen` | internal/statements/statements.go:161-167 | Scope and options are told apart if and only if there is a scope or no option called scope comes first. |
| `SecretStatements.Options` | internal/controller/serversecret_controller.go:92-110 | Every key of the referenced Secret overrides, other inline options stay; a missing Secret blocks. |
| `SecretStatements.LowerCaseKeyComesLast` | internal/controller/serversecret_controller.go:92-110 | An inline `key_id` and the Secret's `KEY_ID` reach the statement under one name, the inline one last. |
| `ServerConfig.Flagfile` | internal/resources/configmap.go:49-78 | Read line by line, each operator flag occurs at most once and says what the spec says, spelled out flag by flag with the defaults info, 30s, 75s and 1.2 and the ports 7890 and 9200, unset ones do not occur, and the extra flags end the file in order. |
| `ServerConfig.UnderstoodExactlyWhen` | internal/resources/configmap.go:49-94 | The flags read back, decimals and listeners parsed, give the spec with its defaults if and only if `sslmode` has no comma. |
| `ServerConfig.ListenReadsExactlyWhen` | internal/resources/configmap.go:81-94 | The joined listeners are read back if and only if `sslmode` has no comma. |
| `ServerConfig.ListenText` | internal/resources/configmap.go:81-94 | The listen value is the text of the one or two listeners. |
| `ServerConfig.ListenSpelled` | internal/resources/configmap.go:81-94 | The listen value spelled out: schemes, address, ports with their defaults, TLS mode and API, with and without HTTP and TLS. |
| `ServerConfig.OperatorLines` | internal/resources/configmap.go:49-75 | The appended lines are in the fixed order, and read back they say what the spec says. |
| `ConfigDigest.ConfigHash` | internal/resources/configmap.go:97-111 | The digest is that of the keys and values in ascending key order, for every iteration order. |
| `ConfigDigest.FedDetermines` | internal/resources/configmap.go:97-111 | Without NULs, equal bytes if and only if equal data. |
| `ConfigDigest.NulsCollide` | internal/resources/configmap.go:97-111 | With NULs, for any three texts, two different contents of the operator's own two files are fed as the same bytes. |
| `ConfigDigest.TemplateFollowsData` | internal/resources/statefulset.go:98-105 | With an injective digest the annotations of two templates agree if and only if the data does or the user sets the hash key. |
| `ConfigDigest.PodAnnotations` | internal/resources/statefulset.go:98-105 | Every annotation of the user's is kept, the hash is added unless the user sets that key, and nothing else is. |

## Left out

- Other resources a SereneDB pass writes (Services, NetworkPolicy, TLS check): they appear only as calls that may fail.
- Builders that copy fields (claim template, container, volumes, labels, `mergeMaps`, `keepAssignedNodePorts`): easy
  members only.
- Conditions of dependent objects and of schedules, and message texts, apart from Ready and Progressing of a SereneDB
  and whether a Backup's error is empty.
- A bootstrap from a snapshot, an existing claim (except as the claim a Backup snapshots) and an existing password
  Secret.
- The single-name statements (DROP, GRANT, REVOKE, CREATE DATABASE and the existence queries): one identifier or literal
  each, which `SqlText.LexesQuoted` covers.
- SqlText.LexesQuoted: also reads an empty delimited identifier, which the standard excludes, since names are never
  empty.
- ServerSecret's recorded values version: the statement is sent on every pass, so nothing depends on it.
- `@every` schedules, whose next time depends on the argument, and the parsing of cron expressions; a schedule that does
  not parse has no `Next`.
- Memberships.Session.Converge: the memberships change only by its own statements while it runs.
- A cache that goes back in version after a restart or a change of leader, users editing finalizers or the server behind
  the operator's back.
- Rollout: deletion of the SereneDB or its StatefulSet, and users editing the StatefulSet.
- SHA-256, random passwords, TLS and the pgx connection are parameters: an injective digest, an arbitrary password, a
  session that may fail.
