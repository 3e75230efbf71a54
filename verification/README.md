# Sleet in Dafny: mirroring and fleet coordination

Sleet runs the background services of SlateDB databases on a fleet of nodes. This
project models the two parts of it where order and interleaving matter, and proves
what they are for.

## The mirror

A mirror copies a database into a second object-store root by copying its immutable
objects and committing manifests last. `SourceDb.dfy` is the database as the mirror
finds it: every manifest body ever committed, what is at the store right now, and a
clock. Its writer, its operators, checkpoint expiry and its garbage collector are
`Action`s that may happen at any time. `Successor`, `KeepsManifest` and `KeepsObject`
are the whole of what the mirror assumes of them: ids only grow; the objects of a
manifest are those of the one before and ones no manifest ever referenced; WAL bounds
never decrease; a checkpoint has a fresh id, pins the manifest its creation commits or
the one just before, is listed in one contiguous run and is only ever extended while
unexpired; garbage collection keeps the latest manifest's live closure and WAL files no
manifest covers yet. There is one clock.

`World.dfy` holds both stores behind the calls the mirror makes. Before each call takes
effect the rest of the world may take any number of steps, and the call may be refused,
may land without its answer arriving, or may be where the process dies. Which of this
happens is a list the methods are given, so every theorem about them is about all
lists. Every call keeps the invariant `MirrorState.Inv`; a method that stops anywhere,
for any reason, has therefore kept it too. `Inv` says of every moment:

* every manifest at the target has the source's body, its own objects, and the pinned
  manifest of each live entry whose checkpoint the source still lists (`Held`; an entry
  whose checkpoint is already gone at the source may dangle);
* every manifest ever committed as a pass head keeps its full live closure while it is
  the latest or younger than `keep`, also after the source has deleted a checkpoint it
  carries (`PointOpen`);
* below the point the WAL tail has got to there is no gap, and nothing above it is
  unexplained (`TailOk`).

`Pass.dfy`, `WalTail.dfy`, `Prune.dfy` and `Run.dfy` are the code on top: the sync pass,
the WAL tail, restore-point retention and the continuous loop with its restarts, for one
task. Where nothing is in the way they also say what is achieved: `Convergence.dfy` how
fast passes catch up, `Run.dfy` what every undisturbed round of the loop does.
`Racing.dfy` is the other setting: any number of passes interleaved call by call, from
any complete state, with stale watermarks, cached manifests and frozen commit lists, and
no prune. `Restore.dfy` rebuilds a point in an empty root. `Names.dfy` is the naming of
objects.

## The fleet

`Placement.dfy` is the frozen hash and the ranking, `FrozenScores.dfy` the scores every
version must give, `Heartbeat.dfy` the names nodes announce themselves by, `Fleet.dfy`
liveness, ownership and status, `Supervision.dfy` the reconciliation of running tasks and
the supervisors' shared state, `Coordinator.dfy` epoch fencing and its retry across nodes,
`Poller.dfy` the registry poller.
`Services.dfy`, `Sorting.dfy` and `Wrappers.dfy` are shared.

Code that updates things step by step is methods over classes, proved against functions
and predicates that say what the result is; code made of expressions is functions.

## Where code and documentation part

* `src/mirror/prune.rs:65-67` says any object at the target at list time that a later
  pass commits was in the source's closure at read time. With an external copier it
  need not have been: it may have been replicated before any manifest referenced it.
  `Prune.ExactPreciselyForKnown` gives the exact condition, for every table;
  `Prune.ReplicatedTableIsPruned` the concrete case. What is lost is a copy: a pass that
  looks at the target afterwards finds the table missing and copies it again, as
  `Pass.PlanCoversClosure` says; a pass that overlaps the prune may already have counted
  it as there, and is what `min_age` guards.
* `src/daemon.rs:170-173` says a replaced supervisor's shutdown must not erase its
  replacement's entry. The instance number that decides this is taken at a supervisor's
  first poll (`src/daemon.rs:448`), not when it is spawned, so a replaced supervisor that
  is first polled after its replacement takes the larger number and does erase the
  entry. `Supervision.LateFirstPoll` is such a run, `Supervision.StandsExactlyWhenNewer`
  says what one write does to one entry, and `Supervision.ShownForGoodExactly` gives the
  exact condition over runs.
* `specs/mirror.fizz:377-379` reads the target's head again inside a prune; the code
  takes `latest` from its own first listing (`src/mirror/prune.rs:68-71`). The model
  follows the code.
* `docs/operations.md:138` and `docs/configuration.md:141` promise that a node that
  cannot read a new configuration or registry view keeps the last good one. An empty
  registry file is good: it asks for the default. But the poller never remembers it
  (`src/root.rs:382-384`), so when the file then cannot be used, by an invalid body or one
  failed GET, the database falls back to the override from before it was emptied, or is
  disabled and loses every assignment if there was none (`src/root.rs:410-427`).
  `Poller.BlankThenUnusable` and `Poller.OverrideComesBack` are the two cases,
  `Poller.EmptiedThenGarbled` both on concrete files. `Poller.ViewDepartsExactly` is the
  exact condition over every run of polls: the view departs from the documented one at a
  database exactly when its winning file is not empty, cannot be used, was empty when it
  last could, and what the poller has of it from before is not the default. Every
  successful poll's contract says so too.
* A policy change does not invalidate cached registry files (`src/root.rs:385-391`). The
  view is right all the same: a body decodes independently of the policy, which only
  decides validity, and the fallback for an invalid file is the same cached version.
  `Poller.ConfigPoller.Poll` therefore needs no unchanged policy.

## Model

| member | source | states |
|---|---|---|
| `Layout.ManifestObjects` | src/mirror/layout.rs:203-226 | place by place, on the manifest alone: an object is in the result if and only if it is a level-0 table or in any position of any sorted run of the root tree or of some segment, or a WAL id strictly between `replay_after_wal_id` and `next_wal_sst_id` |
| `SourceDb.ActionKeepsOk` | rfcs/0002-mirroring.md:55-74 | whatever the source, its operators, expiry and garbage collection do, the history stays consistent (bodies immutable, WAL bounds monotone, a checkpoint listed in one contiguous run, dropped objects never back, the live closure protected) and only moves on |
| `SourceDb.CommitKeepsOk` | rfcs/0002-mirroring.md:55-74 | one commit keeps all of that; this is where the environment assumptions on a commit are used |
| `SourceDb.LaterTrans` | rfcs/0002-mirroring.md:55-74 | what the mirror relies on across an interleaving composes over any number of steps |
| `MirrorState.EnvKeepsInv` | rfcs/0002-mirroring.md:82-94 | completeness, open restore points and the gapless tail survive any outside step, at any moment |
| `MirrorState.InvIsComplete` | rfcs/0002-mirroring.md:82-94 | the invariant gives completeness of the target's latest manifest: its own objects, and the pinned manifest with its objects for every live entry whose checkpoint the source still lists |
| `MirrorState.CompleteMeans` | rfcs/0002-mirroring.md:82-94 | the same spelled out on manifests and stores: for the highest manifest at the target, its objects, and for every unexpired entry still listed at the source the pinned manifest and its objects |
| `MirrorState.CarriedPin` | src/mirror/pass.rs:310-320 | why ascending order works: a still listed entry of an older manifest is a live entry of every newer head and pins nothing above its carrier |
| `MirrorState.MemberReady` | src/mirror/pass.rs:310-320 | once the smaller members of a frozen closure are committed, the next one may be |
| `MirrorState.ManifestArrives` | src/mirror/pass.rs:337-368 | one create-if-absent PUT keeps the whole contract, as head or as support |
| `MirrorState.ManifestGoes` | src/mirror/prune.rs:171-184 | deleting a manifest nothing relies on keeps the whole contract |
| `MirrorState.ObjectGoes` | src/mirror/prune.rs:203-231 | deleting an object no manifest at the target references, and no WAL above the latest, keeps the whole contract |
| `World.Stores.Yield` | rfcs/0002-mirroring.md:82-94 | between any two store calls the rest of the world may take any steps and any call may be refused, lose its answer or be where the process dies; the contract holds throughout |
| `World.Stores.CreateManifest` | src/mirror/pass.rs:346-367 | create-if-absent: an absent id gets the body, a taken one keeps the body it has, and either way the contract holds |
| `World.Stores.CreateCheckpoint` | src/mirror/pass.rs:386-410 | the pin covers the source's latest manifest or the one its creation commits, and the watermark's cover carries over to it |
| `World.Stores.DeleteManifest` | src/mirror/prune.rs:171-184 | only what is safe to drop is dropped, the latest manifest stays |
| `World.Stores.DeleteObject` | src/mirror/prune.rs:203-231 | at most the named object goes, whatever else happens; without an outside replicator exactly it, on success |
| `World.PinKeepsInv` | src/mirror/pass.rs:386-410 | creating the pin is an ordinary source commit and keeps the contract |
| `Pass.ManifestCache.Read` | src/mirror/layout.rs:254-277 | a manifest served from the cache is the source's body of that id, also after the source deleted it; a miss means it is gone |
| `Pass.ClosureOf` | src/mirror/layout.rs:304-328 | the one-level closure: the head and every manifest a live entry pins, each with exactly its objects; gone pins are reported, not skipped |
| `Pass.Proven` | src/mirror/pass.rs:239-261 | what the watermark proves present: its own objects and those of manifests in the closure pinned by a checkpoint live in both, no more and no less, said of the two manifests' entries |
| `Pass.DiffAgainstWatermark` | src/mirror/pass.rs:223-270 | candidates are the closure's objects less what the watermark proves; everything called present is whole at the target |
| `Pass.VouchedPresent` | src/mirror/pass.rs:242-261 | completeness of the watermark makes the subtraction sound |
| `Pass.HeadMisses` | src/mirror/layout.rs:56-80 | every item not reported missing is at the target, and nothing that was there at the start is reported missing |
| `Pass.PlanCompacted` | src/mirror/copier.rs:62-87 | the builtin copier and rclone plan every candidate; the external one nothing that was at the target at the start; whatever is not planned is there |
| `Pass.PlanWork` | src/mirror/pass.rs:192-211 | the planned work and the target together cover every candidate |
| `Pass.PlanCoversClosure` | src/mirror/pass.rs:192-270 | diff refines copy-everything: with or without a watermark, copying only the planned work leaves the same closure present as copying all of it |
| `Pass.CopyUnderPin` | src/mirror/pass.rs:282-308 | all named objects become present, or an error or a restart; every copy starts before the pin is due for its refresh at half its life |
| `Pass.CommitOne` | src/mirror/pass.rs:322-368 | one turn of the commit loop; a taken id always holds the same body, so the fork error cannot arise; reports one exactly when the target has one manifest more |
| `Pass.CommitClosure` | src/mirror/pass.rs:312-375 | ascending commits with the head last keep the contract after every single PUT; at the end the head is the target's latest manifest, and as many manifests as reported are new |
| `Pass.CopyAndCommit` | src/mirror/pass.rs:164-184 | between the last copy and the first manifest there is a moment at which everything planned is at the target, no manifest of this pass is, and the pin's confirmed life has not run out |
| `Pass.PinAndCommit` | src/mirror/pass.rs:155-187 | steps 4 to 6; undisturbed it succeeds and leaves the source two checkpoint-only manifests further on |
| `Pass.PassOnce` | src/mirror/pass.rs:107-188 | the contract holds at every step and wherever the pass stops; it never reports divergence; the manifests it reports are those the target has gained; a pass that creates no checkpoint writes nothing at the source, disturbed or not; undisturbed it is exactly one step forward, or touches nothing and says that there is no database, or that it is a clone or keeps its WAL elsewhere |
| `Pass.SyncPass` | src/mirror/pass.rs:81-105 | at most five attempts, and stalled only after the fifth; the contract throughout, and on success the reported head is the target's latest manifest |
| `Convergence.CatchUp` | src/mirror/pass.rs:129-187 | with a quiet source and no failures, and any time passing before each, two passes bring the target to the source's head, the second without writing at the source, and a third finds nothing to do and changes nothing |
| `Convergence.PinnedPassSettles` | src/mirror/pass.rs:155-187 | a pinned pass leaves only differences the pinless path can commit |
| `Convergence.StepSettles` | src/mirror/pass.rs:129-187 | after any undisturbed pass the next one needs no pin |
| `WalTail.Tail.Start` | src/mirror/pass.rs:454-460 | the tail starts just above the highest WAL id at the target, no lower than the floor, with no gap below it; it changes no manifest |
| `WalTail.Tail.AdvanceFloor` | src/mirror/pass.rs:462-464 | raising the floor opens no gap |
| `WalTail.Tail.Step` | src/mirror/pass.rs:468-490 | copies in id order until the source has no further file; every id passed is at the target; undisturbed something is copied exactly when the source has the next file |
| `WalTail.StartIsSolid` | src/mirror/pass.rs:446-460 | why a restart may trust the highest WAL id it finds |
| `WalTail.FollowingHasNoGap` | src/mirror/pass.rs:446-490 | while a tail exists, every WAL id above the target head's `replay_after_wal_id` and below `next` is at the target |
| `WalTail.FloorIsSolid` | src/mirror/pass.rs:462-464 | below the head's `next_wal_sst_id` its own WAL window is present |
| `Prune.PinFloor` | src/mirror/prune.rs:79-95 | guard 2: the oldest pin's creation time less the slack, or nothing exactly when no checkpoint has the pin's name |
| `Prune.SourceClosure` | src/mirror/prune.rs:246-266 | the source's latest closure, expired entries included; a pinned manifest that is missed had no live checkpoint left |
| `Prune.KeptManifests` | src/mirror/prune.rs:103-137 | restore points plus the manifests their live entries pin at the target |
| `Prune.ReferencedBy` | src/mirror/prune.rs:139-157 | exactly what the kept manifests reference |
| `Prune.Survey` | src/mirror/prune.rs:65-169 | everything read before the first deletion: what is kept covers all the contract asks for, and every object up for deletion was already known to the source when it was read |
| `Prune.DropManifests` | src/mirror/prune.rs:171-184 | on success exactly the listed manifests that are not kept are gone, each at a moment when nothing relies on it, and no object with them |
| `Prune.DropObjects` | src/mirror/prune.rs:203-231 | nothing leaves the target but what is recorded as deleted: on success exactly the listed objects below the tail floor that neither closure has, older than the minimum age and older than the pin floor; without an outside replicator exactly those are gone |
| `Prune.PruneAt` | src/mirror/prune.rs:52-240 | the contract holds at every step and wherever the prune stops, and the latest manifest is never touched. However disturbed: every object written within `min_age` of the start is still there; so is every object no older than the creation, less `min_age`, of any checkpoint with the pin's name that was read; what leaves is in the trace, and nothing in it that was known at the read is in a later closure. Undisturbed the target is left exactly as `LeavesExactly` spells out from settings and stores |
| `Prune.PruneNow` | src/mirror/prune.rs:42-49 | the same at the present time |
| `Prune.PrunedExactly` | src/mirror/prune.rs:103-231 | an undisturbed prune place by place: a manifest stays if and only if it is the highest, younger than `keep`, or pinned by an unexpired entry of such; an object if and only if it is a WAL file from the latest `next_wal_sst_id` on, in a staying manifest, in the source's latest manifest or one its entries pin, written within `min_age`, or no older than some pin's creation less `min_age` |
| `Prune.ReportCounts` | src/mirror/prune.rs:159-240 | the report counts the manifests left and the manifests and objects gone |
| `Prune.YoungStay` | src/mirror/prune.rs:203-204 | what was written too recently, or since the oldest pin, stays |
| `Prune.SweepCarriesOut` | src/mirror/prune.rs:171-240 | why a plan drawn from the target, carried out amid other activity, leaves exactly what it should |
| `Prune.PromisedKept` | src/mirror/prune.rs:103-137 | every manifest committed as a pass head that is the latest or younger than `keep` is kept, with every manifest its live entries pin, also entries the source has deleted |
| `Prune.KeptCovers` | src/mirror/prune.rs:103-137 | what is kept covers the latest manifest's needs and every promised restore point |
| `Prune.UnkeptIsSafe` | src/mirror/prune.rs:171-184 | nothing relies on a manifest that is not kept |
| `Prune.UnkeptIsUnneeded` | src/mirror/prune.rs:203-231 | nothing needs an object no kept manifest references and below the tail |
| `Prune.GuardIsExact` | src/mirror/prune.rs:65-78 | an object known to the source when it was read, and not spared, is in the live closure of no head the source has from then on |
| `Prune.GuardWhileReading` | src/mirror/prune.rs:246-266 | between the first and the last of the guard's own reads: only through a checkpoint gone by the last one |
| `Prune.ListedIsKnown` | src/mirror/prune.rs:65-68 | because the target is listed first, what the builtin copier and rclone brought was known, and so is every WAL file below the tail floor, for every copier |
| `Prune.ExactPreciselyForKnown` | src/mirror/prune.rs:65-78 | for a table that was not spared, guard 1 is exact if and only if some source manifest had referenced the table by then |
| `Prune.ExactWhileReading` | src/mirror/prune.rs:65-78 | the same if-and-only-if when the source moves during the guard's reads: the table was known when the head was read, or has been referenced since and is out of the live closure again |
| `Prune.StillInClosure` | src/mirror/prune.rs:65-78 | a table that has been referenced is in a later live closure only if it is in the present one |
| `Prune.ReplicatedTableIsPruned` | src/mirror/prune.rs:65-68 | the other side on concrete data: a table an outside replicator brought before any manifest references it, older than `min_age`, is pruned, and the source may commit it next |
| `Prune.PruneIsIdempotent` | src/mirror/prune.rs:103-231 | a second prune at the same time of an unchanged source changes nothing |
| `Prune.PruneTwice` | src/mirror/prune.rs:52-240 | run twice, the second run deletes nothing |
| `Prune.LongerKeepRetains` | src/mirror/prune.rs:103-231 | a longer `keep` retains a superset of manifests and objects; none at all retains everything |
| `Prune.PruneKeepsHighest` | src/mirror/prune.rs:103-109 | no prune lowers the target's highest manifest id |
| `Run.SyncOnce` | src/mirror/mod.rs:194-205 | a pass then a prune: the contract throughout, the highest id never lower, and no object lost that the prune's trace does not record; undisturbed one step forward and then exactly what the prune leaves of it |
| `Run.Mirroring.PassRound` | src/mirror/mod.rs:230-245 | pass, tail floor, then prune; the tail still has no gap; undisturbed it commits exactly when the target was behind, and prunes when it did or the last prune is long past |
| `Run.Mirroring.Round` | src/mirror/mod.rs:224-266 | one turn of the loop; undisturbed, told of source and target alone: the target reaches the listed source head or a newer one and the tail exists; once the data is settled it reaches that very head and nothing is written at the source; in sync, its manifests stay as they are but for a prune that is due; the idle wait doubles exactly when nothing was committed or tailed |
| `Run.RunContinuous` | src/mirror/mod.rs:207-267 | any number of rounds ended anywhere by an error, a crash or cancellation: contract, monotone target, no WAL gap, never a divergence error; undisturbed it is only ever ended by cancellation, after one round the target has reached the source's head and the tail exists, and after two the target is in sync |
| `Run.RunLives` | src/mirror/mod.rs:169-192 | any number of task lives: the latest manifest is complete and every promised restore point opens |
| `Run.PromisedPointOpens` | src/mirror/prune.rs:103-137 | a promised restore point has its full live closure at the target |
| `Run.PointOpensMeans` | src/mirror/prune.rs:103-137 | spelled out on manifests and stores: a once committed head that is the highest at the target or younger than `keep` is there, with its objects and, for every unexpired entry of its own, the pinned manifest and its objects |
| `Run.Backoff` | src/mirror/mod.rs:257-261 | the idle wait stays between `poll` and the larger of 300 seconds and `poll` |
| `Racing.RaceIsComplete` | src/mirror/pass.rs:312-375 | from any complete state, any number of passes interleaved call by call with each other and the world, every GET, PUT and comparing GET its own step: the latest manifest is always complete, every body at the target is the source's, no pass meets another body, a finished pass has its whole closure there |
| `Racing.RaceOnlyAdds` | src/mirror/pass.rs:346-367 | no manifest already at the target ever changes, nothing is lost |
| `Racing.MayStartAnywhere` | rfcs/0002-mirroring.md:82-94 | any state a mirror reaches may be where a race starts |
| `Racing.PutBodyOk` | src/mirror/pass.rs:346-353 | the next manifest of a frozen commit list may always be written, however stale the list and even if the source has dropped it since it was read |
| `Racing.CompareBodyOk` | src/mirror/pass.rs:354-366 | a taken id holds the very body that was carried |
| `Racing.PutObjectOk` | src/mirror/copier.rs:174-198 | an object read at the source is written also if the source has dropped it since |
| `Racing.ReadPinOk` | src/mirror/layout.rs:254-277 | a manifest from the cache serves as well as one from the source, also after the source has deleted it |
| `Racing.PlanOk` | src/mirror/pass.rs:223-270 | subtracting a stale watermark's closure leaves nothing out |
| `Racing.PinOk` | src/mirror/pass.rs:155-163 | a pass that pins may go on with the watermark it read before |
| `Racing.TaskLasts` | src/mirror/pass.rs:107-188 | what one pass has established no other pass or source action takes away |
| `Racing.AloneItFinishes` | src/mirror/pass.rs:107-188 | liveness: at any point of any race, any one task, left alone, has moves of its own that bring the source's head or a newer one to the target, unless the source is excluded; the other tasks are not touched |
| `Restore.FindTs` | src/mirror/restore.rs:188-195 | the tracker entry with the largest sequence number not above the given one |
| `Restore.TrackedTimesAdvance` | src/mirror/restore.rs:152-157 | where the tracker advances, newer states never map to older times |
| `Restore.ResolvePoint` | src/mirror/restore.rs:158-206 | latest, the id if listed, or the largest readable id tracked at or before the time, where the unreadable ones were absent at some moment of the run; an error only when no readable manifest qualifies |
| `Restore.Closure` | src/mirror/restore.rs:86-111 | the point's live closure, or the refusal when a live entry's manifest is gone |
| `Restore.CopyAll` | src/mirror/restore.rs:113-124 | all objects present, or an error |
| `Restore.CommitAll` | src/mirror/restore.rs:126-143 | ascending, the point last: no manifest precedes its objects, and the point is there only when its whole closure is |
| `Restore.RestorePoint` | src/mirror/restore.rs:56-150 | refusals leave the destination untouched; success leaves exactly the chosen point's live closure; undisturbed it succeeds if and only if the root is empty, the point resolves and nothing it needs is missing, and otherwise says which of these failed |
| `Restore.RestoredIsLatest` | src/mirror/restore.rs:126-143 | the chosen id is the highest manifest of the restored root |
| `Names.NamesRoundTrip` | src/mirror/layout.rs:28-90 | every u64 id is read back from its manifest and WAL name |
| `Names.NamesSort` | src/mirror/layout.rs:28-90 | names sort as the ids do |
| `Names.PaddedIsDigits` | src/mirror/layout.rs:30-37 | zero padding gives exactly the fixed-width digits |
| `Names.PrintedExactlyWhenTwentyDigits` | src/mirror/layout.rs:82-85 | other spellings parse too: a name that parses is the printed one if and only if it has twenty digits |
| `Heartbeat.SplitLast` | src/heartbeat.rs:56-56 | splits at the last dot |
| `Heartbeat.NameIs` | src/heartbeat.rs:42-49 | the letters of a name: g, c, w and m exactly for the services offered, each once, in the order of the alphabet |
| `Heartbeat.NameRoundTrips` | src/heartbeat.rs:43-63 | a heartbeat name parses back to the node id and the offered services, each once in canonical order |
| `Heartbeat.NamesAreDistinct` | src/heartbeat.rs:43-63 | different nodes or different offers never share a name |
| `Placement.Fnv1a64` | src/placement.rs:19-28 | the running hash over the chunks is the hash of their concatenation |
| `Placement.RoundIsBijective` | src/placement.rs:23-24 | every hash step can be undone, in both directions |
| `Placement.FnvIsInjective` | src/placement.rs:19-28 | hashing the same bytes keeps different states different |
| `Placement.FnvSeparates` | src/placement.rs:19-28 | strings of one length differing in one byte hash differently from any state |
| `Placement.CloseIdsNeverTie` | src/placement.rs:30-39 | node ids differing in exactly one byte get different scores for every database, service and target |
| `Placement.Score` | src/placement.rs:31-39 | the score is the hash of the key with NUL separators |
| `Placement.ScoreTarget` | src/placement.rs:72-82 | the same with the target name in the key |
| `Placement.PairKeysAreDistinct` | src/placement.rs:12-13 | database, service and node can be read back from a pair's key |
| `Placement.TargetKeysAreDistinct` | src/placement.rs:68-71 | a target's key is never a pair's key of the same database |
| `Placement.RankRanks` | src/placement.rs:43-51 | a permutation of the candidates, best score first, ties by node id, said of the scores as numbers |
| `Placement.LexLeExactly` | src/placement.rs:48-49 | node ids compare by their first difference, a proper prefix first |
| `Placement.OwnersAreBest` | src/placement.rs:53-65 | no candidate that is not an owner beats one that is |
| `FrozenScores.ScoresAreFrozen` | src/placement.rs:107-161 | the published scores of three services and a mirror target, byte for byte |
| `Placement.RankIgnoresOrder` | src/placement.rs:41-51 | the ranking depends on which nodes there are, not on their order |
| `Placement.RemovalKeepsOrder` | src/placement.rs:8-9 | removing nodes leaves the others in the same relative order |
| `Placement.JoinDisplacesAtMostOne` | src/placement.rs:8-9 | adding a node displaces at most the last of the top `count`, and only the newcomer gains |
| `Placement.OwnersAreCapped` | src/placement.rs:53-65 | min(count, candidates) owners, all different, all candidates |
| `Fleet.YoungestPerNode` | src/root.rs:194-205 | one heartbeat per node id: the youngest, the first of equals |
| `Fleet.ViewOf` | src/root.rs:209-219 | exactly the nodes whose youngest heartbeat is younger than the timeout, each once |
| `Fleet.OwnedAssignments` | src/daemon.rs:117-162 | exactly the assignments the ranking gives this node, itself always counted live |
| `Fleet.OwnedOf` | src/daemon.rs:133-160 | one database's part of the share |
| `Fleet.PlacementsOf` | src/ops.rs:107-147 | exactly the placements of one database's services and targets |
| `Fleet.ServiceHasItsOwners` | src/daemon.rs:117-162 | with one shared view a service has exactly min(count, offering nodes) owners, each deciding for itself |
| `Fleet.TargetHasOneOwner` | src/daemon.rs:140-149 | with one shared view a mirror target has exactly one owner if any node offers mirroring |
| `Fleet.StatusShowsTheOwners` | src/ops.rs:101-147 | status shows exactly the nodes that consider themselves assigned |
| `Fleet.OwnsIgnoresOrder` | src/daemon.rs:117-162 | what a node owns does not depend on the order of its view |
| `Fleet.ShownIgnoresOrder` | src/ops.rs:101-147 | nor does a line of the status |
| `Fleet.ListGivesServiceOwners` | src/daemon.rs:117-162 | from one heartbeat list, every live node deciding by its own view of it: a service has exactly min(count, live offering nodes) owners |
| `Fleet.ListGivesTargetOwner` | src/daemon.rs:140-149 | and a mirror target exactly one, if any live node offers mirroring |
| `Fleet.ListGivesStatus` | src/ops.rs:101-147 | and status, by its own view, shows exactly those nodes |
| `Fleet.NothingIsUnowned` | src/daemon.rs:104-132 | nodes that read themselves as stale: no assignment a running node offers is unowned while every listed node is running |
| `Fleet.ListLeavesNothingUnowned` | src/daemon.rs:104-132 | the same with every running node reading the list for itself |
| `Supervision.NodeTasks.Reconcile` | src/daemon.rs:327-387 | the keys of the map become exactly the owned assignments with their fingerprints; surviving tasks are untouched; one supervisor is spawned per missing one; no other stands uncancelled |
| `Supervision.AtMostOneStands` | src/daemon.rs:327-387 | at most one uncancelled unfinished supervisor per assignment, in every reachable state |
| `Supervision.TakeKeepsValid` | src/daemon.rs:448-448 | taking an instance number keeps the invariant |
| `Supervision.AnnounceKeepsValid` | src/daemon.rs:453-453 | announcing a run keeps it: an entry belongs to a supervisor that has not exited, and a current supervisor in order is shown |
| `Supervision.EndRunKeepsValid` | src/daemon.rs:454-473 | so does the end of a run, whether clean, fenced, failed or cancelled |
| `Supervision.WakeKeepsValid` | src/daemon.rs:474-477 | so does the end of a wait |
| `Supervision.ExitKeepsValid` | src/daemon.rs:479-485 | so does leaving: only the own entry is removed |
| `Supervision.DelayInForce` | src/daemon.rs:450-473 | after k plain failures since the start or the last fence the delay is min(2^k, 60) seconds; right after a fence one heartbeat |
| `Supervision.WaitFollowsFailures` | src/daemon.rs:450-473 | counted from the moves of any run: a supervisor waits only after a fence or a plain failure; after a fence one heartbeat, after k plain failures since its start or last fence min(2^k, 60) seconds |
| `Supervision.ComesToRun` | src/daemon.rs:448-453 | from wherever it is, a supervisor that has not left its loop comes to run its task, and is shown as working unless a newer one of its key is shown |
| `Supervision.CancelledEnds` | src/daemon.rs:454-485 | from wherever it is, a cancelled supervisor comes to its end whatever its task returns, and leaves no entry of its own |
| `Supervision.AlwaysTruthful` | src/daemon.rs:450-496 | in every state of every run a shown supervisor says working while its task runs and backoff while it waits |
| `Supervision.OlderNeverDisturbs` | src/daemon.rs:479-496 | in every step of every run an entry changes only at the hands of a supervisor of its key whose number is no smaller |
| `Supervision.ShownForGoodExactly` | src/daemon.rs:448-485 | a current supervisor that has announced itself is shown through every run that keeps it current if and only if it is shown now, no other supervisor of its key has yet to be polled for the first time, and none with a larger number will announce itself again |
| `Supervision.StandsExactlyWhenNewer` | src/daemon.rs:479-496 | for one write and the erasure that ends it: the entry outlives them if and only if the writer has the smaller number |
| `Supervision.CurrentIsShown` | src/daemon.rs:170-173 | the current supervisor, once announced, is shown whenever the instance numbers were taken in the order of spawning |
| `Supervision.LateFirstPoll` | src/daemon.rs:448-448 | the number is taken at the first poll, not at the spawn: a replaced supervisor polled after its replacement overwrites and then erases the replacement's entry |
| `Coordinator.StepOk` | src/daemon.rs:452-478 | every step keeps: distinct epochs, only the newest acquirer unfenced, one standing runner per node |
| `Coordinator.AtMostOneUnfenced` | src/daemon.rs:452-478 | in every run at most one coordinator is unfenced and it is the newest acquirer |
| `Coordinator.OnlyTheTopStands` | src/daemon.rs:327-387 | once all nodes share a view and each has reconciled, only the top-ranked node's coordinator stands |
| `Coordinator.ExactlyOneStands` | src/daemon.rs:327-387 | and unless that coordinator has exited since its node reconciled, exactly one stands, on the top-ranked node |
| `Coordinator.TheTopTakesOver` | src/daemon.rs:452-478 | from there a bounded number of moves, the cancelled ones' exits and its own try, makes it unfenced and the newest, and it stays so for as long as it runs |
| `Coordinator.ChangeReplaces` | src/daemon.rs:334-358 | once a node has reconciled with a changed configuration none of its earlier coordinators ever stands again |
| `Coordinator.FencingSettles` | src/daemon.rs:327-387 | the two halves as one run: after every node has reconciled on a shared view only the top-ranked coordinator stands, and it retries at most once for itself, once for each cancelled runner that can still acquire and once for each replacement by a changed configuration, so at most once more when there is neither; all fences are bounded likewise |
| `Coordinator.RunWeighs` | src/daemon.rs:452-478 | fences and retries noticed so far, plus those the remaining runners can still bring about, never grow |
| `Coordinator.CancelTop` | src/daemon.rs:334-358 | a changed configuration cancels and respawns the coordinator on its node, and makes at most one straggler |
| `Coordinator.HoldsForGoodExactly` | src/daemon.rs:452-478 | the standing coordinator that holds the epoch keeps it for good, for as long as it runs and is not replaced, if and only if no cancelled runner can still acquire |
| `Coordinator.OneRetryRegains` | src/daemon.rs:462-466 | wherever the standing coordinator is, one more try gives it the epoch |
| `Coordinator.FailureGivesUp` | src/daemon.rs:467-477 | a plain failure gives the epoch up; a standing coordinator's next try gives it a new one, a cancelled one is gone |
| `Coordinator.StragglerCosts` | src/daemon.rs:452-478 | a cancelled runner that can still acquire does cost a retry and two fences |
| `Poller.ConfigPoller.PollConfig` | src/root.rs:266-309 | no file gives the default policy; a failed read, an unreadable body or one that does not parse leaves the policy as it is; any other body is the policy, whether fetched or known by its ETag |
| `Poller.ConfigPoller.FileConfig` | src/root.rs:371-429 | an empty file gives the default and is not remembered; a body that can be read, parses and is valid is in force and remembered; anything else gives the last version remembered, or disabled |
| `Poller.ConfigPoller.PollRegistry` | src/root.rs:311-369 | the view is every winning file's settings by what the poller remembers, and departs from the documented last good view exactly where `FallsBackWrongly` says; a failed LIST keeps the previous view whole |
| `Poller.ConfigPoller.Poll` | src/root.rs:255-264 | both, over any run of polls, also across policy changes |
| `Poller.ViewDepartsExactly` | docs/configuration.md:141-142 | over any run of polls, the view differs from the documented last good view at a winning file's database if and only if the file is not empty, cannot be used now, was empty when it last could, and what the poller has of it from before is not the default |
| `Poller.MemoriesAgree` | src/root.rs:374-429 | what the poller remembers and what it is documented to remember differ on files last seen empty alone, and there the documented one is the default |
| `Poller.DiffersExactly` | src/root.rs:374-429 | the same if-and-only-if for one file |
| `Poller.BlankThenUnusable` | docs/operations.md:138-139 | a database registered with an empty file whose file then cannot be used is disabled, where the default is documented |
| `Poller.OverrideComesBack` | src/root.rs:410-418 | an override, then emptied, then unusable: the override comes back |
| `Poller.EmptiedThenGarbled` | src/root.rs:382-427 | both on concrete files, poll by poll |
| `Poller.PolledOnce` | src/root.rs:365-368 | what is remembered after a poll is what the run of polls so far comes to |
| `Poller.OneWinner` | src/root.rs:324-364 | one file wins per database, an alias never against a canonical spelling, and among alike spellings the first in byte order |
| `Poller.ViewIgnoresOrder` | src/root.rs:324-369 | the view does not depend on the order of the LIST |
| `Poller.SeenWins` | src/root.rs:352-364 | the files read are exactly the winning ones |

## Left out

- Prune.GuardIsExact: speaks of source heads from the end of the guard's own reads on; what can happen between the first and the last of them is `Prune.GuardWhileReading`. A pass racing a prune is not modelled beyond that.
- Prune.PruneAt: an injected time is never later than the clock; a later one could give up restore points that are still promised.
- Prune.DropObjects: says nothing of what an outside replicator brings again while the prune runs; the exact contents are for the other copiers.
- Convergence.CatchUp: time passes between the passes, not inside one; a pass that outlives its pin restarts, which `Pass.PassOnce` covers without a bound on how often.
- WalTail.FollowingHasNoGap: claims nothing for an external copier, whose replicator delivers WAL files in any order, nor of WAL files above `next` left behind by a crashed pass.
- Run.RunContinuous: does not model waiting for a job permit; cancellation comes after a given number of rounds, for every number. What it achieves is said of undisturbed rounds, in which the clock stands still.
- Racing.AloneItFinishes: says that a task left alone has moves that finish, not how it is scheduled, and nothing of the tail or a prune beside it.
- Racing.RaceIsComplete: has no prune and no WAL tail, so its state is only the part of the contract those do not touch.
- Supervision.CurrentIsShown: goes one way, and Supervision.StandsExactlyWhenNewer is about one write and one erasure; the if-and-only-if over runs is `Supervision.ShownForGoodExactly`.
- Supervision.StandsExactlyWhenNewer: see the line above.
- Supervision.NodeTasks.Reconcile: compares fingerprints as given; two configurations with one hash are one configuration to the code as well.
- Fleet.NothingIsUnowned: all running nodes read one heartbeat list; nodes with different lists may leave a share unowned until they agree.
- Placement.RankRanks: the standard library's sort is modelled as insertion sort on values, not in place.
- Restore.RestorePoint: no other writer touches the destination during a restore.
- World.Stores.RefreshCheckpoint: a refresh only ever extends an entry; the deadline is read from the one clock.
- Object-store clients, multipart upload, the rclone process, task scheduling: stores are maps changed by atomic steps. Bytes copied are not counted, object contents are their names, and copies finish in any order.
- Ids and times are unbounded integers, except in names, where ids are u64.
- The periodic loop, target and destination resolution, prefix matching: easy members over `SyncOnce`.
- Foreign manifest writers at the target, and the fork detection that would meet them.
- Clock skew between nodes and stores, and the exact instant a pin expires.
- SlateDB's own compaction and epochs, beyond the assumptions in `SourceDb.dfy` and the rule that acquiring an epoch fences every other runner.
- URL canonicalisation, percent-encoding, TOML and duration parsing, field-by-field configuration overrides: parameters of the poller.
- Heartbeat bodies, housekeeping of old heartbeats, status warnings and probes, the command line, rendering, schemas, the embedding API.
- Panics, aborted tasks and the shutdown timeout.
