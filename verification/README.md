# Verified model of the walking RPG

A Dafny model of the logic of a location-based role-playing app (React Native, TypeScript) and of the
script that cuts its creature sprites out of their pictures (Swift). The player walks, meets creatures,
fights them turn by turn, gains levels and gear, and is saved on the device and in the cloud.

`dafny verify dfyconfig.toml` checks the whole project.

- **Sprite cut-out** (`Raster`, `Labelling`, `Islands`, `Crop`, `Blur`). The explicit-stack flood fill, the
  removal of detached islands, the bounding-box crop and the separable box blur of the background
  estimate, on arrays of any width and height. Colours are reals; the threshold `Int(0.015 * biggest)` is
  `biggest * 15 / 1000`.
- **Saving** (`SaveProtocol`, `SaveSafety`, `SaveHazards`, `SaveRecovery`, `SaveWitnesses`, `SaveSessions`,
  `DeferredCommit`, `WalkLog`, `CloudSync`, `AccountDeletion`). The player hook is a transition system whose
  steps are the stretches of code between two awaits: loading, the post-paint reconcile, the retrying
  archetype choice, progress saves, deferred screen commits, delivery of queued cloud writes, process kill
  and reinstall. What storage, clock and cloud answer is part of each step, including reads that fail and
  clear the snapshot.
  The reconcile effect starts only after a render in which the player or the selection flag changed. The
  walk log is a system of calls linked by their promises and cleared at any moment, account deletion a
  transition system; the cloud client is a class.
- **Combat** (`Combat`, `Damage`, `StatusEffects`). The combat hook's refs, timers and handlers as a
  transition system, with the stored foe, its hold and the refresh of its card; the damage pipeline over
  reals; status effects and the resource over whole fights.
- **Player** (`Leveling`, `Inventory`, `PlayerRules`, `PlayerLaws`, `Saves`, `Player`). `Player` is the object
  with its fields and its shared gear object; each method is tied to a function on values, and the laws
  are proved about those.
- **Encounters** (`Pacing`, `WeightedDraw`, `Spawning`). The distance and time gate with its previews, the
  weighted draw, level bands, templates and the time of day.

`Basics` holds what several modules share. Random draws, clock readings and the results of storage,
network and sign-in are parameters of the steps.

## Where the code does not do what is promised

Each of these is a lemma with a concrete case or a constructed run; where a promise holds under a
condition, a lemma beside it gives that condition exactly.

- A fresh character can replace a cloud save after a hazard: a superseded reconcile persists the cloud
  record without the live session taking it over; a load finds no snapshot, or fails to read it, while a
  provisional character is live; no player can be built from a confirmed snapshot; a failed read clears the
  snapshot of a character whose first write is still queued; a save built from one character lands after
  another one went live (`SaveSafety.SafeStepIffNoHazard`, `SaveRecovery.HazardOverwritesIff`,
  `SaveHazards.HazardCanOverwrite`, `SaveWitnesses`).
- A selection that ends after its session was cleared and loaded again can cancel the new session's
  selection screen and strand the hook on its loading screen (`SaveSessions.TrackLostIff`,
  `SaveSessions.StrandedOccurs`).
- Islands of exactly the truncated threshold size are kept although they are under 1.5% of the largest
  (`Islands.DocumentedThresholdExactly`).
- Re-appending a drained walk log can trim the newest entry instead of the oldest
  (`WalkLog.OnlyOldestTrimmedIff`, `WalkLog.NewestIsTrimmed`).
- Walk-log entries of the account before can come back after the log is cleared, since the clear does not
  wait for the calls under way (`WalkLog.ClearedReturnIff`).
- After a drain that timed out a late write can restore the erased record, and a late erase can remove a
  newer save (`AccountDeletion.OrphanIffInFlight`, `AccountDeletion.RecordLostIffLateErase`).
- Fleeing during a kill beat wins the next encounter or blocks all abilities (`Combat.KillBeatSoundIff`,
  `Combat.FleeInKillBeatWinsNextEncounter`, `Combat.FleeInKillBeatSticks`).
- One foe can be won twice: by a double engage tap, or when a refresh of the foe card that read it, or
  the hold that stored it, puts it on the card after it was engaged (`Combat.FoesDistinctIff`,
  `Combat.EachFoeOnce`, `Combat.SameFoeWonTwice`, `Combat.StaleFoeWonTwice`, `Combat.HeldFoeWonTwice`).
- An effect with a tick count below 1 still gets one tick (`StatusEffects.LabelledDurationIff`).
- "Every point of defense always helps" holds before rounding only (`Damage.DefenseAlwaysHelpsIff`,
  `Damage.DefenseLowersHitIff`, `Damage.DefenseCanBeWasted`).
- An experience loss across a gained level depends on how the award is split (`Leveling.SplitAwardIff`).
- A gear swap and its undo can heal a wounded player or move the item in the bag (`PlayerLaws.SwapUndoneIff`).
- Copies of a player share one gear object, so an equip on one changes the other (`Player.CopyKeepsItemsIff`).
- The countdown to the next encounter ignores the bypass flag (`Pacing.CountdownAgreesIff`).
- A record without stats loads without its gear's bonuses (`Saves.LegacyLoadsIff`).

## Model

| member | source | states |
|---|---|---|
| `Labelling.LabelComponents` | scripts/cutout.swift:159-182 | for every image size and alpha field the fill ends with a labelling: a pixel has a label iff its alpha is above 40, two pixels share one iff a chain of touching solid pixels joins them, and each size counts its label exactly |
| `Labelling.Flood` | scripts/cutout.swift:166-181 | one flood marks exactly the island of its start pixel, keeps all earlier marks and counts what it marked |
| `Labelling.Spread` | scripts/cutout.swift:173-179 | after a popped pixel is spread, all its solid neighbours are marked and the frontier invariant of the fill holds again; it made progress or changed nothing |
| `Labelling.TryMark` | scripts/cutout.swift:175-178 | the neighbour in a direction is marked iff it exists, is solid and was unmarked; nothing else changes |
| `Labelling.Neighbour` | scripts/cutout.swift:173-177 | the bounds guard and the index arithmetic find exactly the touching pixel in that direction, or none outside the image |
| `Labelling.ScanPixel` | scripts/cutout.swift:165-182 | one step of the outer scan keeps the labelling correct for all pixels scanned so far |
| `Islands.LabelMeasuresIsland` | scripts/cutout.swift:159-182 | the size recorded for a pixel's label is the number of pixels of its island |
| `Islands.MaxSize` | scripts/cutout.swift:183 | the biggest size is one of the sizes and none exceeds it |
| `Islands.DropSmallIslands` | scripts/cutout.swift:183-191 | given any correct labelling, exactly the pixels of islands below the threshold become transparent black and no other byte changes |
| `Islands.RemoveDetachedIslands` | scripts/cutout.swift:153-192 | the whole clean-up, stated without labels: exactly the islands smaller than the truncated threshold are cleared |
| `Islands.IslandsGoWhole` | scripts/cutout.swift:153-192 | an island is cleared or kept as a whole, the largest is always kept, and kept pixels are unchanged |
| `Islands.SurvivorKeepsShape` | scripts/cutout.swift:153-192 | a surviving island is the same set of pixels after the clean-up |
| `Islands.LargestSurvives` | scripts/cutout.swift:183-191 | the largest island of the cleaned image has the size of the largest before |
| `Islands.CleanupIdempotent` | scripts/cutout.swift:153-192 | cleaning a cleaned image changes nothing |
| `Islands.ThresholdAgainstDocumentation` | scripts/cutout.swift:156-187 | against the documented 1.5%, the truncated threshold spares exactly the islands of the threshold size itself |
| `Islands.DocumentedThresholdExactly` | scripts/cutout.swift:156-187 | clearing matches the documented 1.5% for every island size iff the largest size is a multiple of 200 |
| `Crop.FindBox` | scripts/cutout.swift:199-207 | the box covers every pixel with alpha above 8 and each side touches one; it is non-empty iff there is one |
| `Crop.CopyBox` | scripts/cutout.swift:208-217 | each pixel of the crop is the image pixel shifted by the box corner, all four bytes |
| `Crop.Trim` | scripts/cutout.swift:199-217 | the result is the crop to the tightest covering box, or the empty-cutout exit iff nothing is visible |
| `Crop.CropIsTightest` | scripts/cutout.swift:199-217 | any box covering the visible pixels contains the crop box |
| `Crop.CropIsUnique` | scripts/cutout.swift:199-217 | the image determines its crop |
| `Crop.VisibleSurvives` | scripts/cutout.swift:210-217 | every visible pixel is found in the crop at its shifted place, unchanged |
| `Crop.CropIdempotent` | scripts/cutout.swift:199-217 | cropping a crop changes nothing |
| `Blur.SumWindow` | scripts/cutout.swift:55-61 | the inner loops compute the clamped window sum of every channel and of the weight |
| `Blur.Pass` | scripts/cutout.swift:52-67 | one pass leaves at every pixel and channel the clamped one-dimensional window sum of its input |
| `Blur.SumExchange` | scripts/cutout.swift:49-87 | the two orders of a double sum agree, for any family of terms and any bounds |
| `Blur.PassesMakeBox` | scripts/cutout.swift:49-87 | a horizontal then a vertical pass is the full two-dimensional clamped window sum, for every radius and size |
| `Blur.BoxSumEitherWay` | scripts/cutout.swift:49-87 | the window summed by rows equals the window summed by columns, so the order of the passes does not matter |
| `Blur.BoxBlur` | scripts/cutout.swift:49-87 | values and weights are replaced in place by their two-dimensional clamped window sums |
| `Blur.EstimateBackground` | scripts/cutout.swift:89-102 | the estimate is the blurred premultiplied colour over the blurred weight, the weight kept at least 0.0001 |
| `Blur.BackgroundBetweenExtremes` | scripts/cutout.swift:89-102 | where the window holds enough background, or the colour range contains 0, every channel of the estimate lies between the extremes of that channel |
| `Blur.BackgroundInUnitRange` | scripts/cutout.swift:89-102 | with colours in [0, 1] and a mask of at most 1, every channel of the estimate is in [0, 1] |
| `SaveSafety.StepKeeps` | src/hooks/usePlayer.ts:167-392 | every step of loading, reconciling, failed and cleared local reads, retrying, choosing, saving, delivery, kill and relaunch that is not a hazard keeps the invariant and the owner of an existing cloud record |
| `SaveSafety.CoreStep` | src/hooks/usePlayer.ts:167-392 | a step that puts no second character in line for the cloud record keeps the one that is, whether or not that one was cleared for the cloud |
| `SaveSafety.HazardBreaks` | src/hooks/usePlayer.ts:167-392 | a hazard leaves the invariant from any safe state |
| `SaveSafety.SafeStepIffNoHazard` | src/hooks/usePlayer.ts:167-392 | from a safe state a step is safe iff it is not one of the named hazards |
| `SaveSafety.ResolveConfirmedKeeps` | src/hooks/usePlayer.ts:187-196 | a read that found nothing newer promotes a provisional character or lets one be created only while nobody owns the cloud record |
| `SaveSafety.CloudOwnerKept` | src/utils/storage.ts:132-157 | over every run in which no second character is put in line an existing cloud record keeps its character |
| `SaveSafety.CloudSaveNeverReplaced` | src/hooks/usePlayer.ts:305-392 | over every hazard-free run from a launch no cloud save is replaced by another character's, and only characters cleared by a read or loaded from a confirmed save are ever sent to the cloud |
| `SaveHazards.SafeCannotOverwrite` | src/hooks/usePlayer.ts:167-392 | from a safe state no run of ordinary steps replaces a cloud record: an overwrite needs a hazard |
| `SaveHazards.HazardCanOverwrite` | src/hooks/usePlayer.ts:167-392 | from any safe state a hazard can be followed by ordinary steps alone that replace a record: when there is no record yet but a write is under way, and beside a record always, whatever the age of the snapshot, unless the hazard persists the record behind a selection that can only adopt it |
| `SaveHazards.LoadExposes` | src/hooks/usePlayer.ts:238-303 | every load that drops a provisional mark or offers the selection over a confirmed snapshot can be followed by an overwrite, if there is a record or a write under way |
| `SaveHazards.PersistExposes` | src/hooks/usePlayer.ts:167-200 | so can a persisted record that nobody takes over, beside any provisional character, the record's own included, and beside a selection that need not adopt it |
| `SaveRecovery.HazardOverwritesIff` | src/hooks/usePlayer.ts:167-392 | the exact condition: after a hazard in a safe state ordinary steps can replace a record iff one of those cases holds |
| `SaveRecovery.BlankStep` | src/hooks/usePlayer.ts:167-392 | with neither a record nor a write under way, any step whatever, hazards included, leaves it so or leaves one character in line |
| `SaveRecovery.AdoptingStep` | src/hooks/usePlayer.ts:305-392 | while every reconcile call a selection awaits, or will by the next tap, can only adopt the record, a step that is no conflict keeps it so or leaves the record's character alone in line |
| `SaveRecovery.HarmlessCannotOverwrite` | src/hooks/usePlayer.ts:167-392 | from such states no run of ordinary steps replaces a record |
| `SaveWitnesses.ReachableIsSafe` | src/hooks/usePlayer.ts:167-392 | every state reached from a launch by ordinary steps is safe |
| `SaveWitnesses.LostAdoptionOccurs` | src/utils/storage.ts:147-156 | a reachable state: a reload overtakes a reconcile that then persists the cloud record; the reload publishes the provisional character, whose effect promotes it over the record |
| `SaveWitnesses.EmptyLoadOccurs` | src/hooks/usePlayer.ts:263-271 | a reachable state: a second load finds no snapshot while a provisional character is live and clears the provisional mark |
| `SaveWitnesses.FailedReadOccurs` | src/utils/storage.ts:461-486 | a reachable state: the local read of a second load fails, the stored provisional character is taken for absent and its next save replaces a record never read |
| `SaveWitnesses.UnparsedLoadOccurs` | src/hooks/usePlayer.ts:281-302 | a reachable state: a confirmed snapshot no player can be built from leads to the selection screen and then to replacing the record |
| `SaveWitnesses.StaleSaveOccurs` | src/hooks/usePlayer.ts:202-215 | a reachable state: a save built from the provisional player lands after the cloud character was adopted |
| `SaveWitnesses.LateClearedSaveOccurs` | src/hooks/usePlayer.ts:202-215 | a reachable state: a save of a character that was cleared for the cloud but never stored lands after the next one went live, and can replace its first write |
| `SaveWitnesses.QueuedLossOccurs` | src/utils/storage.ts:477-485 | a reachable state: a failed read clears the snapshot of a new character whose first write is still queued, and a second new character can replace it |
| `SaveWitnesses.HarmlessHazardOccurs` | src/hooks/usePlayer.ts:342-356 | a reachable hazard that leads to no overwrite: no player can be built from the record the selection has just persisted, and every further tap is told to adopt it |
| `SaveSessions.SupersededChangesNothing` | src/hooks/usePlayer.ts:92-99 | a load, reconcile or selection superseded while it waited leaves the live player and the screens alone; it reaches the snapshot only when it adopts or fails to read, and the pending commit only when a selection ends whose save was under way |
| `SaveSessions.CommitPublishesLive` | src/hooks/usePlayer.ts:284-291 | a deferred commit fires once, publishes only the current player, and clearing the player cancels it |
| `SaveSessions.LoadEndsOnTrack` | src/hooks/usePlayer.ts:238-303 | when the load of the current generation ends, a player or the selection screen is on screen or a commit is pending that will show it |
| `SaveSessions.TrackLostIff` | src/hooks/usePlayer.ts:383-391 | a step of the same session takes that away iff it ends an outdated selection while the pending selection screen has not come up |
| `SaveSessions.NeverStranded` | src/hooks/usePlayer.ts:159-166 | in every run from a launch, over every stretch that starts no session anew, a finished load leaves something on screen or about to be, unless such a step occurs |
| `SaveSessions.RunShownIsLive` | src/hooks/usePlayer.ts:131-236 | over every run from a launch only a live player is ever on screen |
| `SaveSessions.StrandedStays` | src/hooks/usePlayer.ts:167-236 | with the load finished, nothing painted and nothing under way that could paint, only a new load, a clear or a restart leads out |
| `SaveSessions.StrandedOccurs` | src/hooks/usePlayer.ts:383-391 | a reachable state with the selection screen of the live load pending, in which a selection of the session before ends, cancels it and leaves the hook stranded |
| `DeferredCommit.Commit.constructor` | src/hooks/usePlayer.ts:31-64 | a deferral starts with its listener and its timer armed and nothing committed |
| `DeferredCommit.Commit.OnStateChange` | src/hooks/usePlayer.ts:37-47 | an active state change commits and disarms both sources, once |
| `DeferredCommit.Commit.OnTimer` | src/hooks/usePlayer.ts:57-64 | the timer commits only if the app is active and nothing was settled before |
| `DeferredCommit.Commit.CancelCommit` | src/hooks/usePlayer.ts:66-75 | a cancel before the commit settles it without committing |
| `DeferredCommit.CommitsOnceIff` | src/hooks/usePlayer.ts:31-76 | over any events the commit runs exactly once iff the app is seen active before a cancel, never otherwise, and leaves no timer or listener behind |
| `DeferredCommit.CancelIsFinal` | src/hooks/usePlayer.ts:66-75 | whatever happens after a cancel, the commit does not run any more |
| `WalkLog.LinksTakeTurns` | src/utils/storage.ts:319-325 | with each call waiting for the settling of the one before, only the first call that has not ended can take a step |
| `WalkLog.OneAtATime` | src/utils/storage.ts:308-311 | over every run, cleared at any moment, no two calls are between their read and their write |
| `WalkLog.UnlinkedLoses` | src/utils/storage.ts:308-311 | without the links two overlapping appends lose an entry |
| `WalkLog.EndIsAlone` | src/utils/storage.ts:318-360 | a call ends, fulfilled or rejected, exactly as if it had run alone |
| `WalkLog.InterleavingIsSerial` | src/utils/storage.ts:308-360 | any interleaving of concurrent appends and drains, with any storage failures and with clears while no call holds what it read, has the stored log and the results of running the calls since the last clear one at a time in issue order |
| `WalkLog.ClearedReturnIff` | src/utils/storage.ts:488-500 | after the log is cleared its old entries can come back, in storage or in the hands of a drain, iff a call at work has read them |
| `WalkLog.StoreIsTrimmedTail` | src/utils/storage.ts:318-323 | while storage works the stored log is the last 100 entries appended since the last drain |
| `WalkLog.DrainReturnsTrimmedTail` | src/utils/storage.ts:341-348 | while storage works every drain returns the last 100 entries appended since the drain before it |
| `WalkLog.NothingLostBelowCap` | src/utils/storage.ts:308-360 | below the cap the drained entries followed by the stored ones are all appended entries, in order |
| `WalkLog.AppendKeepsLogIff` | src/utils/storage.ts:289-323 | an append whose write succeeds keeps the earlier entries iff its read succeeded or there were none |
| `WalkLog.StoreIsTrimmedSurvivors` | src/utils/storage.ts:289-360 | whatever storage does, the stored log is the last 100 of the entries its faults leave |
| `WalkLog.PutBackDropsExactly` | src/hooks/useEncounter.ts:611-623 | of a drained log put back between other appends nothing is lost before trimming iff every write succeeds and every read but the first; then exactly the first entries beyond the cap go, and none below it |
| `WalkLog.OnlyDrainedTrimmedIff` | src/hooks/useEncounter.ts:611-623 | only drained entries are trimmed iff those put back before anything else is appended cover all that has to go |
| `WalkLog.OnlyOldestTrimmedIff` | src/utils/storage.ts:25-29 | only the oldest entries are trimmed iff that holds or all drained entries go |
| `WalkLog.NewestIsTrimmed` | src/hooks/useEncounter.ts:611-623 | the failing case: a fight recorded between the drain of a full log and its being put back is the one trimmed, although it is the newest |
| `CloudSync.CloudSyncService.constructor` | src/services/CloudSyncService.ts:37-57 | a session starts with no write issued, none in flight and writes open |
| `CloudSync.CloudSyncService.SuspendWrites` | src/services/CloudSyncService.ts:59-61 | writes are suspended and nothing else changes |
| `CloudSync.CloudSyncService.ResumeWrites` | src/services/CloudSyncService.ts:63-65 | writes are open again and nothing else changes |
| `CloudSync.CloudSyncService.SavePlayerData` | src/services/CloudSyncService.ts:127-159 | a write is issued iff writes are open and a user is signed in; its timestamp is at least the requested one and above all earlier ones |
| `CloudSync.CloudSyncService.Settle` | src/services/CloudSyncService.ts:145-154 | a settled write leaves the in-flight set and the pending count stays its size |
| `CloudSync.CloudSyncService.Drained` | src/services/CloudSyncService.ts:74-86 | the pending-write promise has resolved iff no write is in flight |
| `CloudSync.ResolvedMeansAllSettled` | src/services/CloudSyncService.ts:155-157 | the chained promise resolves iff every write issued so far has settled |
| `CloudSync.NewestSurvives` | firestore.rules:11-13 | whatever the delivery order, the record left is the newest of what was there and what arrived |
| `CloudSync.LastIssuedWins` | src/services/CloudSyncService.ts:38-42 | every delivery order of all writes of a session ends with the last issued one when that is newer than what was there |
| `CloudSync.LastIssuedWinsIff` | src/services/CloudSyncService.ts:38-42 | the proviso is exact: otherwise the last issued write is not the record left |
| `CloudSync.OlderNeverReplaces` | firestore.rules:12-13 | writes no newer than the record never replace it |
| `AccountDeletion.StepKeepsInv` | src/hooks/useAuth.ts:319-410 | each step keeps: writes are suspended exactly during a deletion, the account is deleted only after the erase was applied, local data is wiped only after that |
| `AccountDeletion.RunKeepsInv` | src/hooks/useAuth.ts:319-410 | the same over every run, with any failures, timeouts and late arrivals; so every exit path has resumed writes |
| `AccountDeletion.InFlightShrinks` | src/services/CloudSyncService.ts:43-47 | during a deletion the writes in flight only become fewer |
| `AccountDeletion.ErasedStaysErased` | src/hooks/useAuth.ts:348-359 | without a write in flight an erased record stays erased until writes resume |
| `AccountDeletion.CompleteDrainErases` | src/services/CloudSyncService.ts:67-86 | a drain that ends without its timeout leaves no write in flight, and no client write brings the erased record back before writes resume |
| `AccountDeletion.CleanNeverOrphans` | src/hooks/useAuth.ts:348-371 | a deletion carried through from there ends without a cloud record |
| `AccountDeletion.OrphanIffInFlight` | src/hooks/useAuth.ts:321-371 | once the erase is applied, this deletion can still end with the record restored iff a write is in flight at that moment |
| `AccountDeletion.LateEraseDeletesNewerSave` | src/services/CloudSyncService.ts:100-125 | an erase request that outlives its timeout later removes a record saved and acknowledged in between |
| `AccountDeletion.RecordLostIffLateErase` | src/services/CloudSyncService.ts:100-125 | after an aborted deletion the record can be lost without a new deletion iff an erase request that outlived its timeout is on its way |
| `Combat.StepKeepsInv` | src/hooks/useEncounter.ts:209-1227 | every tap, timer, flee, auto-resolve, hold, refresh, engage, defeat and teardown keeps the combat invariant |
| `Combat.RunKeepsInv` | src/hooks/useEncounter.ts:209-1227 | in every reachable state the input freeze, the enemy-turn flag and an armed counter timer coincide, outcomes are distinct and strikes accounted for |
| `Combat.OutcomesBounded` | src/hooks/useEncounter.ts:296-431 | victories, flights and defeats together never outnumber the presentations, and each presentation ends at most once |
| `Combat.FrozenDuringBeat` | src/hooks/useEncounter.ts:873-881 | while the counter timer is armed, abilities, flee, auto-flee and close change nothing |
| `Combat.BeatEnds` | src/hooks/useEncounter.ts:779-871 | at most two timer firings release input, each firing brings the release nearer and no other event delays it |
| `Combat.StrikesLandWhereScheduled` | src/hooks/useEncounter.ts:795-819 | over every run a strike lands only on the encounter it was scheduled for, at most one for each accepted ability |
| `Combat.KillBeatSoundIff` | src/hooks/useEncounter.ts:422-431 | a pending kill stays tied to the open, defeated encounter iff that encounter is not left or replaced during the kill beat |
| `Combat.KillVictoriesEarned` | src/hooks/useEncounter.ts:317-431 | in a run whose kill beats are never left, each victory of a kill timer goes to the encounter it was set for, whose creature is down |
| `Combat.FleeInKillBeatWinsNextEncounter` | src/hooks/useEncounter.ts:648-683 | fleeing in a kill beat and meeting another creature before its timer fires wins that encounter with its creature untouched |
| `Combat.FleeInKillBeatSticks` | src/hooks/useEncounter.ts:317-331 | fleeing in a kill beat and meeting nothing leaves the kill guard set with no timer to clear it |
| `Combat.StuckRefusesAbilities` | src/hooks/useEncounter.ts:873-881 | a stuck guard refuses every ability and is released exactly by a victory that needs none or by a teardown |
| `Combat.FoesDistinctIff` | src/hooks/useEncounter.ts:263-491 | a step keeps outcomes, encounter, held, stored and waiting foes apart iff it is neither an engage tap while the held foe already waits to be engaged nor a refresh or a hold that puts a foe on the card which has been engaged since it was read or stored |
| `Combat.EachFoeOnce` | src/hooks/useEncounter.ts:263-491 | in every run without such a double tap or stale card each foe is won, fled from or lost to at most once, however often it is stored and loaded again |
| `Combat.SameFoeWonTwice` | src/hooks/useEncounter.ts:296-315 | the converse: from any idle state with a held foe, a run with a double tap in which the same foe is won twice |
| `Combat.StaleFoeWonTwice` | src/hooks/useEncounter.ts:263-315 | the other converse: a refresh that reads the stored foe before it is engaged and acts after its defeat brings it back alive, and it is won again |
| `Combat.HeldFoeWonTwice` | src/hooks/useEncounter.ts:433-491 | so does a hold that ends only after a refresh has brought its foe to the card and the foe was defeated |
| `Damage.MitigationMonotone` | src/models/combat.ts:20-26 | more attack, less defense or a bigger multiplier never lowers the mitigated hit |
| `Damage.ResistanceMonotone` | src/models/DamageType.ts:23-25 | more raw damage or less resistance never lowers what passes the resistance, for any resistance |
| `Damage.EvasionMonotone` | src/models/evasion.ts:90-98 | a dodge deals at most a glance, a glance at most a clean hit, each non-decreasing in the base damage |
| `Damage.HitMonotone` | src/models/combat.ts:20-26 | the whole pipeline of mitigation, resistance and evasion is monotone in everything that favours the attacker |
| `Damage.HitZeroIff` | src/models/evasion.ts:85-98 | a swing deals nothing iff it is dodged or the resistance leaves less than one point; glancing never invents damage |
| `Damage.DefenseAlwaysHelpsIff` | src/models/combat.ts:1-26 | a point of defense strictly lowers the unrounded hit iff there is an attack |
| `Damage.DefenseLowersHitIff` | src/models/combat.ts:20-26 | a point of defense lowers the hit dealt iff the unrounded hit falls past a whole number of at least 2 |
| `Damage.DefenseCanBeWasted` | src/models/combat.ts:1-26 | after rounding a point of defense can change nothing: 10 attack against 9 or 10 defense |
| `Damage.EqualDefenseHalves` | src/models/combat.ts:1-26 | defense equal to attack halves the unrounded hit |
| `Damage.RollMonotone` | src/models/evasion.ts:51-83 | on the same draw a faster defender, a longer streak or the player's side never evades less |
| `Damage.RampReachesCapIff` | src/models/evasion.ts:64-72 | the streak lifts the dodge chance to its cap iff the defender is at most five points slower; slower ones never dodge |
| `Damage.StreakCountsSinceDodge` | src/models/evasion.ts:39-83 | over any run of rolls the streak fed back is the number of rolls since the last dodge |
| `StatusEffects.TickStatusEffects` | src/models/Ability.ts:111-132 | a tick returns the summed damage, the damaging effects in order, and the effects with more than one tick left, aged by one |
| `StatusEffects.ResistedTick` | src/hooks/useEncounter.ts:909-940 | the creature's tick sums each damaging effect through its own resistance |
| `StatusEffects.ComputeEffectiveStats` | src/models/Ability.ts:136-150 | attack and defense are the base plus all modifiers, floored at 1 and 0 |
| `StatusEffects.AfterIsAged` | src/models/Ability.ts:111-132 | k ticks leave exactly the effects with more than k ticks to live, each aged by k |
| `StatusEffects.EmptyAfterLongestIff` | src/models/Ability.ts:111-132 | the list is empty after k ticks iff no effect lives longer than k |
| `StatusEffects.LabelledDurationIff` | src/models/Ability.ts:124-128 | an effect lives exactly its labelled number of ticks iff the label is at least 1; lower labels get one tick |
| `StatusEffects.ActiveIsRemnant` | src/hooks/useEncounter.ts:1070-1096 | over any fight the active list is every applied effect within its lifetime, aged by the turns since |
| `StatusEffects.DealtIsLedger` | src/models/Ability.ts:111-132 | over any fight the amount ticked off is the sum over all applied effects of amount times ticks lived, for any amount that does not depend on age |
| `StatusEffects.CreatureDotLedger` | src/hooks/useEncounter.ts:905-940 | the same for a creature's damage over time through its resistances |
| `StatusEffects.ModifierWindow` | src/hooks/useEncounter.ts:897-902 | adding one effect in turn i changes a turn's total exactly in the next lifetime-many turns, whatever else is active |
| `StatusEffects.BuffWindow` | src/hooks/useEncounter.ts:897-902 | a buff moves the attack and defense modifiers of exactly the next so many turns, not its own and none later |
| `StatusEffects.ResourceBudget` | src/hooks/useEncounter.ts:1070-1087 | over any taps the resource stays within 0 and its maximum, and what was spent plus what is left never exceeds the start plus one regeneration per accepted ability |
| `Leveling.SquareRoot` | src/models/Player.ts:216-218 | the integer square root that stands for the rounded-down power 1.5 |
| `Leveling.RequirementGrows` | src/models/Player.ts:216-218 | the requirement is at least 100 and never falls with the level |
| `Leveling.Levelled` | src/models/Player.ts:225-249 | the level-up loop ends below the next requirement, never lowers the level, and leaves no negative remainder once a level was gained |
| `Leveling.LevelledConserves` | src/models/Player.ts:225-249 | levelling up neither creates nor loses experience |
| `Leveling.ExperienceConserved` | src/models/Player.ts:220-249 | whatever the amount, the experience earned grows by exactly it |
| `Leveling.AttributesFollowLevel` | src/models/Archetype.ts:81-89 | attributes gained level by level are the ones computed from the level |
| `Leveling.SplitAwardIff` | src/models/Player.ts:220-249 | adding a then b equals adding a + b iff b is not negative, or a gained no level, or the remainder covers the loss |
| `Leveling.SplitAwardFails` | src/models/Player.ts:220-249 | the failing case: 150 then -100 against 50 at once |
| `Leveling.BatchingIrrelevant` | src/models/Player.ts:220-249 | however an award is cut into pieces the progress is the same |
| `Inventory.GetEquipTargetSlot` | src/models/Player.ts:393-398 | the automatic target slot fits the item |
| `Inventory.ResolveEquipTargetSlot` | src/models/Player.ts:423-431 | the target slot fits the item, and a fitting slot the player asked for is honoured |
| `Inventory.FindEmpty` | src/models/Player.ts:352-359 | the search finds the first empty bag slot or reports that there is none |
| `Inventory.BagExchange` | src/models/Player.ts:352-373 | changing one bag slot exchanges exactly its content in the collection |
| `Inventory.GearExchange` | src/models/Player.ts:457-488 | filling a gear slot exchanges exactly what it held |
| `PlayerRules.DerivedStatsRoundDown` | src/models/Archetype.ts:91-97 | attack and defense are the documented weighted sums of strength and agility, rounded down, at least 1 |
| `PlayerRules.FreshInv` | src/models/Player.ts:153-214 | a new player of any archetype satisfies the player invariant |
| `PlayerRules.RecalculatedInv` | src/models/Player.ts:496-516 | recalculating makes any player with bag, gear and progress in order consistent |
| `PlayerRules.OpKeepsInv` | src/models/Player.ts:220-516 | every operation keeps 50 bag slots, gear where it fits, attributes of the level, stats equal to derived plus gear, 0 <= hp <= maxHp and experience below the requirement |
| `PlayerRules.RunKeepsInv` | src/models/Player.ts:220-516 | the same over any run of operations |
| `PlayerRules.OpConservesItems` | src/models/Player.ts:352-494 | an operation changes the items in bag and gear only by a granted or a removed item |
| `PlayerRules.RunConservesItems` | src/models/Player.ts:352-494 | over any run nothing is duplicated and nothing is lost |
| `PlayerLaws.AwardKeepsMissingHp` | src/models/Player.ts:243-247 | a level-up keeps the HP missing from the maximum |
| `PlayerLaws.SplitAwardIff` | src/models/Player.ts:220-249 | adding a then b gives the same whole player as a + b, stats and HP included, under exactly the condition above |
| `PlayerLaws.JumpIsEarned` | src/models/Player.ts:298-313 | setting a level gives the player that earning the level would have given, healed, with no experience into the level |
| `PlayerLaws.EquipPower` | src/models/Player.ts:433-516 | equipping changes the combined stats by exactly the difference of the two items |
| `PlayerLaws.BadgeIsHonest` | src/models/Player.ts:400-415 | with the target slot occupied, the upgrade badge shows iff equipping raises the combined stats |
| `PlayerLaws.SwapUndoneIff` | src/models/Player.ts:433-516 | swapping an item in and putting the displaced one back restores the player iff no earlier bag slot was empty and the swap costs no more HP than the player has |
| `Saves.Normalize` | src/models/Player.ts:203-213 | an inventory of any length is padded or cut to 50 slots, keeping what fits in place |
| `Saves.Constructed` | src/models/Player.ts:153-214 | any record builds a player with 50 bag slots and HP within the maximum |
| `Saves.RoundTripIff` | src/models/Player.ts:518-554 | saving and loading is the identity iff the bag has 50 slots and the HP is within the maximum |
| `Saves.RunsRoundTrip` | src/models/Player.ts:518-554 | every player any run of operations can produce survives a save and a load |
| `Saves.LegacyLoadsIff` | src/models/Player.ts:541-554 | a record with attributes missing loads as a consistent player iff its stats, or the gearless ones standing in for missing ones, are derived plus gear and its HP is not negative; the next recalculation makes it consistent in any case |
| `Saves.LoadedIsConstructedIff` | src/models/Player.ts:541-554 | the loader and the bare constructor agree on the progress iff no attribute is missing or the present ones are the computed ones |
| `Player.Player.constructor` | src/models/Player.ts:153-214 | the object built equals the specified player, sharing the gear object it was given |
| `Player.Player.ToJSON` | src/models/Player.ts:518-539 | the record holds every field; the gear object is handed out, not copied |
| `Player.Player.FromJSON` | src/models/Player.ts:541-554 | the loaded object is the specified loaded player |
| `Player.Player.Clone` | src/hooks/useEncounter.ts:895 | a copy made from a player's record equals it and shares its gear object |
| `Player.Player.RecalculateStats` | src/models/Player.ts:496-516 | the loop over the gear slots computes derived stats plus the gear sums and moves HP by the change of the maximum |
| `Player.Player.GainLevels` | src/models/Player.ts:225-241 | the while loop computes the levelled progress and counts the levels |
| `Player.Player.AddExperience` | src/models/Player.ts:220-249 | the new state is the specified award; the result is the number of levels gained |
| `Player.Player.AddItemToInventory` | src/models/Player.ts:352-359 | the item is in the first empty slot, whose index is returned, or the bag was full and nothing changed |
| `Player.Player.RemoveItemFromInventory` | src/models/Player.ts:366-373 | the slot is emptied and its content returned; out of range changes nothing |
| `Player.Player.EquipItem` | src/models/Player.ts:433-494 | the new state is the specified equip, it succeeds iff the index holds an item the level allows, and the roll-back branch is unreachable |
| `Player.Player.TakeDamage` | src/models/Player.ts:264-266 | HP falls by the amount, not below 0 |
| `Player.Player.RestoreHp` | src/models/Player.ts:272-274 | HP rises by the amount, not above the maximum |
| `Player.Player.FullHeal` | src/models/Player.ts:276-278 | HP is the maximum |
| `Player.Player.SetLevel` | src/models/Player.ts:304-313 | the new state is the specified jump to the level |
| `Player.Player.SetArchetype` | src/models/Player.ts:321-329 | the new state is the specified change of archetype at the same level |
| `Player.CopyKeepsItemsIff` | src/models/Player.ts:518-539 | a copy keeps its items through an equip on the player it shares gear with iff the equip is refused or swaps equal items; otherwise the new item is counted twice and the displaced one is gone |
| `Player.EquipOnCopy` | src/models/Player.ts:518-539 | equipping on a copy rewrites the original's gear and nothing else of it |
| `Pacing.EncounterService.constructor` | src/services/EncounterService.ts:24-31 | a service starts with no distance, no encounter, 50 m, 0.1% per metre and 30 s |
| `Pacing.EncounterService.ProcessDistanceUpdate` | src/services/EncounterService.ts:43-86 | the new state and the outcome are the specified gate and roll; a missing reading changes nothing |
| `Pacing.EncounterService.GetProbabilityAfterIncremental` | src/services/EncounterService.ts:150-164 | the preview is the specified probability at that clock |
| `Pacing.SinceEncounter` | src/services/EncounterService.ts:43-182 | since its last encounter, rolled or forced, or its last reset the service has counted exactly the metres walked and holds that encounter's stamp, or none |
| `Pacing.ConsecutiveEncounters` | src/services/EncounterService.ts:43-182 | over any walk a rolled encounter comes more than the minimum distance after the encounter before it, rolled or forced, or after the last reset, and at least the minimum time after that encounter unless bypassed or stamped 0 |
| `Pacing.StampZeroForgotten` | src/services/EncounterService.ts:55-57 | the exception: an encounter stamped 0 is forgotten |
| `Pacing.CertainIff` | src/services/EncounterService.ts:62-68 | every roll yields an encounter iff the time is met and the distance reaches the minimum plus 1 over the chance |
| `Pacing.PreviewDecides` | src/services/EncounterService.ts:146-164 | an update yields an encounter iff the roll is below the previewed probability at the same clock |
| `Pacing.EarlierPreviewAgreesIff` | src/services/EncounterService.ts:146-164 | an earlier preview agrees with the probability used iff the time constraint did not let go in between with a non-zero chance |
| `Pacing.CountdownAgreesIff` | src/services/EncounterService.ts:202-224 | the countdown is positive exactly while the constraint blocks, unless it is bypassed while the countdown runs |
| `Pacing.CountdownIsCeiling` | src/services/EncounterService.ts:217-224 | the countdown is the remaining time rounded up to seconds |
| `WeightedDraw.Draw` | src/models/Creature.ts:600-605 | the subtract-and-test walk returns the first index at which the roll is used up, or falls through |
| `WeightedDraw.PickIff` | src/models/Creature.ts:600-605 | an index is drawn iff the roll lies in its cumulative interval; the first also takes rolls at or below 0 |
| `WeightedDraw.NeverFallsThrough` | src/models/Creature.ts:654-661 | a roll within the total never falls through |
| `WeightedDraw.PossibleIff` | src/models/Creature.ts:600-605 | some draw picks an index iff its weight is positive or it is the first: a zero weight is otherwise never drawn |
| `Spawning.FindBand` | src/models/Creature.ts:595-597 | the first band the level reaches, or the last one |
| `Spawning.RollRarity` | src/services/LootService.ts:95-104 | the rarity drawn from the level's band; the fall-back to common is never taken |
| `Spawning.RollEncounterRarity` | src/models/Creature.ts:594-606 | the same for the encounter bands |
| `Spawning.RollLootRarity` | src/services/LootService.ts:95-104 | the same for the loot bands |
| `Spawning.CanRollIff` | src/models/Creature.ts:594-606 | a rarity can come up at a level iff its band gives it a positive weight |
| `Spawning.EncounterRaritiesIff` | src/models/Creature.ts:585-591 | rare creatures are possible iff the level is at least 3, epic iff at least 12, legendary never, the others always |
| `Spawning.LootRaritiesIff` | src/services/LootService.ts:22-27 | epic loot is possible iff the level is at least 5, legendary iff at least 10, the others always |
| `Spawning.SpawnWeightAt` | src/models/Creature.ts:87-97 | every creature has a positive weight at every hour |
| `Spawning.PickEncounterTemplateOfRarity` | src/models/Creature.ts:638-662 | the template picked is the one the draw selects in the rarity's pool, weighted by the light or uniform without it |
| `Spawning.PickKeepsRarity` | src/models/Creature.ts:638-662 | whatever the light and the draw, the template has the rarity asked for iff the rarity has a template |
| `Spawning.EveryTemplatePossible` | src/models/Creature.ts:80-97 | every creature of a pool stays possible by day and by night |
| `Spawning.RollableHaveTemplates` | src/models/Creature.ts:209-553 | every rarity but legendary has a template |
| `Spawning.PickEncounterTemplate` | src/models/Creature.ts:616-622 | the creature met has the rarity rolled for the level, for either daylight and without it |
| `Spawning.RarityIgnoresDaylight` | src/models/Creature.ts:625-637 | two creatures met on the same rarity draw at the same level are equally rare, whatever the light |

## Left out

- React components, screens, themes, effects and the scheduling of renders; only what a render publishes (the shown player, the selection screen) is part of the model.
- Firebase, AsyncStorage, geolocation, notifications and other native calls appear only as outcomes of steps.
- The hooks `usePlayer` and `useEncounter` and the delete handler of `useAuth` are value-level transition systems rather than objects: their refs are fields of one state and each stretch between awaits is one step, so object identity inside a stretch is not modelled beyond the encounter objects of `Combat`.
- Corrupted walk-log or held-foe storage, which the app clears: corrupted data reads as none, and its removal is not tied to that read.
- The save protocol covers one account on one device: no account switch with another record, no conflict dialog, and local writes take effect when they are issued.
- Account deletion without a signed-in user, sign-in, re-authentication and the server-side clean-up function.
- Debug actions (forced defeat, clearing the inventory, forced rarities), analytics, logging and feature flags.
- The subject mask, the colour key, matting, ground contacts and PNG output of the cut-out script.
- Sun position and distances on the globe; daylight and metres are inputs.
- Creature stat scaling, reward amounts, item generation, affixes and names; an item is what its slot, level and bonuses are.
- `resolveAbility` beyond the direct hit: which effect an ability appends is an input of the fights in `StatusEffects`, and healing and shields only add easy members.
- `configure` and the bypass setter of the encounter service: they assign settings; the lemmas hold for every setting.
- Floating-point rounding: reals or integers stand for the app's numbers throughout.
- Combat.StepKeepsInv: the read and the write of one hold are one step, and so are the removal of the stored foe and its presentation; of a stored foe only its identity and hit points are modelled, because the other fields are copied.
- Combat.RunKeepsInv: rewards and loot are not computed, only the number and kind of outcomes, because their amounts add only easy members.
- CloudSync.CloudSyncService.Settle: does not say whether the server accepted the write, because the client treats both alike.
- SaveWitnesses.QueuedLossOccurs: takes a cloud read to answer from the server's record alone; whether the client library adds its own queued writes to the answer is not part of this model.
- SaveWitnesses.LateClearedSaveOccurs: takes any earlier character to be able to save late; that an account switch also cancels the victory timer, from which a captured player is saved, is not part of the save model.
