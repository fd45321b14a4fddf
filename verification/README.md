# JOUST — a Dafny model of the jousting game's core

JOUST is a browser jousting game. Two mounted knights, the player and an
opponent, start at opposite ends of the lists. Once the round countdown ends
they charge towards each other. The player's lance looks for a hit on the
opponent's hit spheres and bones, and a hit scores 1 to 3 points. After passing,
each knight walks out to the far end. The next bout then swaps lanes and
facings, and the split-screen UI shows the pennants won, bout by bout.

This project models that core in Dafny:

- **Entities.** `KnightEntity`, `PlayerEntity` and `OpponentEntity` are
  classes whose fields are updated in place. They cover loading and tagging
  the model with hit spheres, finding bones, hit latching, flipping and
  per-frame placement of the model, horse and hand. The three.js scene graph
  is a value tree (`SceneGraph.Object3D`) with a preorder `Traverse`.
- **Lances.** `LanceEntity` covers mouse normalisation, speed in mph, the
  hit classification and scoring table, and the hit flag. Nothing in the
  lance clears that flag, so as written a lance scores at most once in its
  lifetime (see "## Findings"). `AILanceEntity` covers the retarget timer
  and the choice of aim point, although no code as written reaches them.
- **Round state.** `game-state.js` is modelled as its countdown state
  machine. `Game` is modelled as the per-frame round logic: ride, reach the
  far end, walk out, report to the bout controller. Also covered: resetting
  and swapping bouts, the passing check, and the throttled subscriber
  notifications.
- **Loaders.** `AnimationLoader` and `ModelLoader` share one load queue
  (`Loading`): callbacks registered before the fetch completes each run
  exactly once.
- **UI logic.** `ModalContext`, `PennantPeg`, `SplitScreenUI`,
  `CountdownModal` and `getAssetPath` are modelled as pure functions.

`Controller.BoutController` is an interface that exposes the bout number,
`can_move` and the countdown, and records every call made to it. Those call
logs are what the contracts speak about. It stands for two different objects:

- In `Game`, it is the match controller `gameStateManager`, which is not part
  of the sources modelled. `Game` reads its `can_move` and countdown and calls
  `markPlayerReachedEnd` and `updateWalkDistance` on it.
- In the lance and the knight entities, it stands for the `getBout` and
  `setBoutMetadata` members these files call on the `GameState` singleton of
  `game-state.js`, which does not define them. The lance reads `can_move`
  from that same singleton, modelled as `GameState.GameState`, and not from
  the interface. So `Lance.EngagesOnlyAfterCountdown` ties the lance's hit
  test to the 3-2-1 countdown.

The model follows the code as written. Where the code departs from its
evident intent, both versions are modelled, and the differences are listed
under "## Left out" and "## Findings".

## Model

| member | source | states |
|---|---|---|
| AssetPath.CleanPath | src/utils/AssetPath.js:4 | one leading slash is dropped and nothing else changes |
| AssetPath.GetAssetPath | src/utils/AssetPath.js:7-9 | the result starts with the base, and its length is the base's plus the path's, less one for a dropped leading slash |
| AssetPath.RootBaseResult | src/utils/AssetPath.js:7-9 | with base "/", the asset path is the path itself when rooted, else "/" + path |
| AssetPath.RootBaseIdempotent | src/utils/AssetPath.js:4-9 | with base "/", resolving an already-resolved path changes nothing |
| AssetPath.DoubleSlashKeepsOne | src/utils/AssetPath.js:4 | only one leading slash is stripped: "//x" becomes "/x" |
| CountdownModal.RendersIff | src/ui/components/CountdownModal.jsx:8-12 | the modal renders exactly when the countdown is positive, and its label is non-empty exactly for 3, 2 and 1 |
| CountdownModal.BannerOverCountdown | src/ui/components/CountdownModal.jsx:8-12 | fed by the round countdown, the modal reads MARKS at the start, READY after one tick, JOUST after two, and disappears on the third |
| ModalContext.OpenModal | src/contexts/ModalContext.jsx:13-17 | opening appends exactly one modal with the given id and component, keeps the others, and returns the id |
| ModalContext.CloseRemovesExactly | src/contexts/ModalContext.jsx:19-21 | closing removes every modal with the id and keeps every other modal, with its multiplicity |
| ModalContext.ClosePrefix | src/contexts/ModalContext.jsx:19-21 | closing distributes over concatenation, so the order of the kept modals is unchanged |
| ModalContext.CloseUnknown | src/contexts/ModalContext.jsx:19-21 | closing an id that is not open changes nothing |
| ModalContext.OpenThenClose | src/contexts/ModalContext.jsx:13-21 | closing a freshly opened modal restores the stack |
| PennantPeg.ShownExactly | src/ui/components/PennantPeg.jsx:6-24 | a pennant image is shown exactly for scores -1, 1, 2 and 3 |
| PennantPeg.TeamDependence | src/ui/components/PennantPeg.jsx:6-24 | scores -1 and 3 look the same for every team; for 1 and 2, "blue" gets the blue pennant and every other team the red one |
| PennantPeg.DistinctPerScore | src/ui/components/PennantPeg.jsx:6-24 | within a team, different shown scores have different images |
| SplitScreenUI.BoutOrder | src/ui/components/SplitScreenUI.jsx:73-76 | one entry per bout (none for a non-positive count) |
| SplitScreenUI.BoutOrderIsPermutation | src/ui/components/SplitScreenUI.jsx:73-76 | each order holds every bout 1..n exactly once; red's order is blue's reversed |
| SplitScreenUI.GeneratePennantPegs | src/ui/components/SplitScreenUI.jsx:68-96 | one peg per bout in the team's order, each with that bout's points for the team (0 when unrecorded); 5 bouts when the count is absent |
| SplitScreenUI.MergeBoutData | src/ui/components/SplitScreenUI.jsx:17-20 | the merge holds every bout of both maps, and the new data wins |
| SplitScreenUI.RecordBoutEnd | src/ui/components/SplitScreenUI.jsx:29-32 | the ended bout's entry is set and every other bout is kept |
| SplitScreenUI.MergeIdempotent | src/ui/components/SplitScreenUI.jsx:17-20 | merging the same update twice equals merging it once |
| GameState.StartRoundStep | src/game-state.js:28-34 | `startRound` does nothing once started; otherwise it starts, sets the timer to 3, forbids movement and starts the interval |
| GameState.Tick | src/game-state.js:35-41 | an interval tick decrements the timer, allows movement and stops the interval exactly when the timer reaches 0 or below |
| GameState.InvInitial | src/game-state.js:3-13 | the initial state satisfies the countdown invariant |
| GameState.InvPreserved | src/game-state.js:28-42 | `startRound` and a tick both preserve the invariant (timer in 0..3, interval active only while counting, movement only once the countdown is done) |
| GameState.CountdownSchedule | src/game-state.js:28-42 | n ticks after `startRound`, the timer is max(3-n, 0) and the knights may move exactly when n ≥ 3 |
| GameState.TicksAfterDone | src/game-state.js:35-41 | once the countdown has ended, ticks change nothing |
| GameState.StartRoundOnce | src/game-state.js:29 | a second `startRound` at any point of the countdown changes nothing |
| GameState.GameState.constructor | src/game-state.js:3-13 | debug on, not started, timer 3, no movement, zero points |
| GameState.GameState.StartRound | src/game-state.js:28-34 | the new countdown state is `StartRoundStep` of the old one; nothing else changes |
| GameState.GameState.IntervalTick | src/game-state.js:35-41 | the new countdown state is `Tick` of the old one; nothing else changes |
| GameState.GameState.SetDebug | src/game-state.js:48-50 | sets the debug flag |
| Controller.Marks | src/core/Game.js:382-392 | the number of `markPlayerReachedEnd` calls for one side is zero exactly when the log has none |
| Controller.BoutController.SetBoutMetadataCall | src/core/objects/LanceEntity.js:323-332 | records one `setBoutMetadata` call, appended to the log |
| Controller.BoutController.MarkPlayerReachedEndCall | src/core/Game.js:385-391 | records one `markPlayerReachedEnd` call, appended to the log |
| Controller.BoutController.UpdateWalkDistanceCall | src/core/Game.js:403-417 | records one `updateWalkDistance` call, appended to the log |
| HitLatch.Latch | src/core/entities/KnightEntity.js:109-119 | a hit is reported exactly when one is attempted while the flag is clear, and the flag is then set |
| HitLatch.LatchedReportsNothing | src/core/entities/KnightEntity.js:109-119 | once the flag is set, no attempt reports anything |
| HitLatch.AtMostOneReport | src/core/entities/KnightEntity.js:109-119 | from a clear flag, any run of attempts reports exactly one hit if it holds an attempt, else none |
| Teams.OtherTeam | src/core/Game.js:45-46 | the other team is "blue" for "red" and "red" otherwise |
| Teams.OtherTeamInvolutive | src/core/Game.js:45-46 | for the two team colours, the other team of the other team is the team |
| Placement.ModelPlacement | src/core/entities/KnightEntity.js:253-258 | the model sits 1.5 below the knight's position, at the same x and z |
| Placement.HorsePlacement | src/core/entities/KnightEntity.js:46-55 | the horse sits 2.5 below the knight's position, at the same x and z |
| Placement.HandTarget | src/core/entities/KnightEntity.js:284 | the hand target is the hand's world position offset by (0.25, 0.05, 0.05) |
| Placement.HorseUnderModel | src/core/entities/KnightEntity.js:253-273 | the horse is always exactly one unit below the model |
| Placement.FullLerpIsTarget | src/core/entities/KnightEntity.js:287 | over exact reals, a lerp with factor 1 lands on the target, so the hand reference equals the hand target |
| SceneGraph.Traverse | src/core/entities/KnightEntity.js:158-163 | the traversal starts at the root and holds at least one node |
| SceneGraph.TexturedAll | src/utils/ModelLoader.js:62-69 | retexturing a list of children keeps its length |
| SceneGraph.TexturedTraverse | src/utils/ModelLoader.js:62-69 | node by node in traversal order, retexturing keeps every node's shape and sets the texture on exactly the meshes |
| Hitboxes.MakeHitbox | src/core/entities/KnightEntity.js:121-151 | a hit sphere is a childless mesh. Knight spheres: radius 0.4 for head bones else 0.3, the team as type, the lowercase bone name as part, marked as hitbox. Opponent spheres: radius 0.3 or 0.2, type "opponent", part "head" exactly for head bones, else "body" |
| Hitboxes.AddHitboxesAll | src/core/entities/KnightEntity.js:121-151 | tagging a list of children keeps its length |
| Hitboxes.HitboxesIn | src/core/entities/KnightEntity.js:153-166 | as many hitboxes are collected as the traversal holds hitbox nodes |
| Hitboxes.HitboxesInMembers | src/core/entities/KnightEntity.js:158-163 | an object is collected exactly when it is visited and passes the hitbox test |
| Hitboxes.MadeHitboxIsFound | src/core/entities/KnightEntity.js:140-160 | every sphere `addHitboxes` makes is recognised by `getHitboxes`, and is not a bone |
| Hitboxes.AddHitboxesCounts | src/core/entities/KnightEntity.js:121-151 | tagging adds exactly one hitbox per bone and keeps the bone count |
| Hitboxes.TaggedModelHasHitboxes | src/core/entities/KnightEntity.js:121-166 | a tagged model with a bone has a non-empty hitbox list |
| Hitboxes.GetHitboxAsWritten | src/core/entities/KnightEntity.js:168-181 | as written, `getHitbox` returns an empty list without a model and null otherwise, never a hitbox |
| Hitboxes.FirstNamedHitbox | src/core/entities/KnightEntity.js:171-178 | the first node in the list that is a hitbox whose name contains the key, or none exactly when no node qualifies |
| Hitboxes.GetHitbox | src/core/entities/KnightEntity.js:168-181 | as intended: empty list exactly without a model; the hitbox found is a named hitbox of the model; null exactly when none exists |
| Hitboxes.GetHitboxLosesTheMatch | src/core/entities/KnightEntity.js:168-181 | on a model with a "Head" bone, the written code returns null where the intended lookup finds the head sphere |
| Bones.OrdersDiffer | src/core/entities/KnightEntity.js:188-207 | KnightEntity's and PlayerEntity's bone precedences disagree exactly on bones named with both "head" and "arml" and neither right-hand word |
| Bones.NoAnchorForAi | src/core/entities/KnightEntity.js:204 | a non-player knight never takes a head anchor, and otherwise assigns roles as the player knight does |
| Bones.LastWithRoleHasRole | src/core/entities/KnightEntity.js:184-210 | a found reference is a traversed bone with that role |
| Bones.LastWithRoleIsLast | src/core/entities/KnightEntity.js:184-210 | no bone traversed after the found reference has that role, since each match overwrites the reference |
| Bones.LastWithRoleNone | src/core/entities/KnightEntity.js:184-210 | a reference stays unfound exactly when no traversed bone has the role |
| Bones.ScanBones | src/core/entities/KnightEntity.js:184-210 | the traversal loop leaves each reference at the last matching bone, or at its prior value when none matches |
| Bones.LanceAfter | src/core/entities/KnightEntity.js:212-245 | the lance is created exactly when both the right hand and the right arm were found, or it already existed; otherwise it is unchanged |
| Knight.KnightEntity.constructor | src/core/entities/KnightEntity.js:12-55 | position, team and facing as given; no model, bones or lance yet; the horse 2.5 below, facing the same way, its model not yet loaded |
| Knight.KnightEntity.OnModelLoaded | src/core/entities/KnightEntity.js:64-78 | the model is tagged with the team, gets the team's hit spheres, faces per `flipped` and sits 1.5 below; the bone references, POV anchor, hand positions, lance and shield are those `findBones` gives on the tagged model's traversal |
| Knight.KnightEntity.Prepare | src/core/entities/KnightEntity.js:64-74 | the model is tagged with the team, gets the team's hit spheres, faces per `flipped` and sits 1.5 below |
| Knight.KnightEntity.ResetHitState | src/core/entities/KnightEntity.js:94-106 | the hit flag is cleared; it throws exactly when the lance is the player lance, whose `reset` calls a missing `super.reset` |
| Knight.KnightEntity.RegisterHit | src/core/entities/KnightEntity.js:109-119 | reports the hit to the controller exactly when the flag was clear, then sets the flag |
| Knight.KnightEntity.AddHitboxes | src/core/entities/KnightEntity.js:121-151 | the model becomes its team-tagged version |
| Knight.KnightEntity.GetHitboxes | src/core/entities/KnightEntity.js:153-166 | the loop returns the hitboxes of the model in traversal order; empty without a model |
| Knight.KnightEntity.FindBones | src/core/entities/KnightEntity.js:183-245 | the references are those found by the KnightEntity precedence, the POV anchor follows the head, the hand positions come from the right hand, the lance (player or AI kind) is created per `LanceAfter` and the shield once the left arm exists |
| Knight.KnightEntity.Flip | src/core/entities/KnightEntity.js:247-251 | the facing flag toggles; with a model, the model and the horse's flag flip too; it throws exactly when the knight's model or the horse's model is not loaded (both rotations read a model) |
| Knight.KnightEntity.OnHorseLoaded | src/core/entities/HorseEntity.js:31-44 | the horse's load callback gives the horse a model |
| Knight.KnightEntity.UpdatePosition | src/core/entities/KnightEntity.js:253-258 | with a model, it sits 1.5 below the knight; without one, nothing moves |
| Knight.KnightEntity.Update | src/core/entities/KnightEntity.js:260-299 | takes the new position when given, places model and horse, sets the hand target and reference, and passes the hand to the lance only when there is one |
| Player.PlayerEntity.constructor | src/core/entities/PlayerEntity.js:10-46 | as the knight's, with no hits, no lance or shield, and the horse's model not yet loaded |
| Player.PlayerEntity.OnModelLoaded | src/core/entities/PlayerEntity.js:48-60 | the model is tagged with the team but gets no hit spheres, faces per `flipped`, sits 1.5 below; the bone references, POV anchor, hand positions, lance and shield are those `findBones` gives on its traversal |
| Player.PlayerEntity.Prepare | src/core/entities/PlayerEntity.js:49-57 | the model is tagged with the team (no hit spheres), faces per `flipped` and sits 1.5 below |
| Player.PlayerEntity.ResetHitState | src/core/entities/PlayerEntity.js:76-84 | the hit flag is cleared; the base lance has no `reset` |
| Player.PlayerEntity.RegisterHit | src/core/entities/PlayerEntity.js:87-95 | reports exactly when the flag was clear, then sets it |
| Player.PlayerEntity.FindBones | src/core/entities/PlayerEntity.js:97-145 | references found by the PlayerEntity precedence, the POV anchor follows the head, the hand positions come from the right hand; a base lance is created once hand and arm exist, and the shield once the left arm exists |
| Player.PlayerEntity.Flip | src/core/entities/PlayerEntity.js:147-151 | toggles the facing flag; with a model, the model and the horse's flag flip too; throws exactly when the knight's or the horse's model is not loaded |
| Player.PlayerEntity.OnHorseLoaded | src/core/entities/HorseEntity.js:31-44 | the horse's load callback gives the horse a model |
| Player.PlayerEntity.UpdatePosition | src/core/entities/PlayerEntity.js:153-168 | with a model, it sits 1.5 below the knight |
| Player.PlayerEntity.Update | src/core/entities/PlayerEntity.js:170-209 | as the knight's update |
| Opponent.OpponentEntity.constructor | src/core/entities/OpponentEntity.js:8-29 | position, team and facing as given; no model; the horse 2.5 below |
| Opponent.OpponentEntity.OnModelLoaded | src/core/entities/OpponentEntity.js:31-40 | the model gets "opponent" hit spheres, faces per `flipped` and sits 1.5 below |
| Opponent.OpponentEntity.AddHitboxes | src/core/entities/OpponentEntity.js:43-63 | the model becomes its opponent-tagged version |
| Opponent.OpponentEntity.UpdatePosition | src/core/entities/OpponentEntity.js:65-69 | with a model, it sits 1.5 below the knight |
| Opponent.OpponentEntity.Update | src/core/entities/OpponentEntity.js:71-87 | takes the new position when given; the model and horse follow |
| Lance.BoneRegionOrder | src/core/objects/LanceEntity.js:268-295 | a bone's region is head, arm, leg or torso by the first word group its lowercase name contains, else body |
| Lance.TagWins | src/core/objects/LanceEntity.js:265-295 | a tagged part wins; an untagged bone is classified by its name; any other untagged object is "body" |
| Lance.Points | src/core/objects/LanceEntity.js:297-318 | every hit earns between 1 and 3 points |
| Lance.PointsTable | src/core/objects/LanceEntity.js:297-318 | head earns 3; arm and leg earn 1; everything else earns 2 |
| Lance.HitRecord | src/core/objects/LanceEntity.js:320-332 | the metadata carries the classified part, the points for it and the lance speed |
| Lance.HitEarnsPennant | src/core/objects/LanceEntity.js:297-318 | every hit's score is one that the pennant peg shows |
| Lance.OpponentSphereScore | src/core/objects/LanceEntity.js:265-318 | a hit on an opponent sphere scores 3 on a head bone and 2 otherwise |
| Lance.KnightSphereScore | src/core/objects/LanceEntity.js:265-318 | a hit on a knight sphere scores `Points` of the sphere's part, the full lower-case bone name: exactly "head" scores 3, so "armr" or "legl" scores 2 rather than the region's 1 |
| Lance.Visible | src/core/objects/LanceEntity.js:244-257 | the visible hits are exactly the intersections whose objects are not ignored, and the first of them is the nearest such intersection |
| Lance.SpeedOf | src/core/objects/LanceEntity.js:134-149 | the speed is not finite exactly when the frame time is 0, and is a non-negative mph value for a positive frame time |
| Lance.LanceEntity.constructor | src/core/objects/LanceEntity.js:7-35 | team "red", no model, no mouse position, no hit, speed 0, positions at the origin |
| Lance.LanceEntity.OnModelLoaded | src/core/objects/LanceEntity.js:38-47 | the model is recorded at its loaded position; `customizeMaterials` throws exactly when the model has a styled mesh, and otherwise the debug objects are created and the hand position copied |
| Lance.NdcX | src/core/objects/LanceEntity.js:116-120 | the horizontal coordinate is non-finite exactly for a zero-width window, and inside [-1, 1] for a mouse inside the window |
| Lance.NdcY | src/core/objects/LanceEntity.js:116-121 | the vertical coordinate is non-finite exactly for a zero-height window, and inside [-1, 1] for a mouse inside the window |
| Lance.NdcCorners | src/core/objects/LanceEntity.js:119-121 | the window's top-left corner maps to (-1, 1) and its bottom-right to (1, -1) |
| Lance.LanceEntity.OnMouseMove | src/core/objects/LanceEntity.js:115-124 | the stored mouse position is `NdcX`, `NdcY` of the event, for any window size |
| Lance.LanceEntity.CalculateSpeed | src/core/objects/LanceEntity.js:134-149 | the speed is `SpeedOf` for the distance moved, and the previous position catches up |
| Lance.LanceEntity.Update | src/core/objects/LanceEntity.js:151-338 | position and speed update; the hit flag follows the latch for a lance engaged under `GameState.can_move` with a visible hit, and the nearest visible hit's metadata goes to the controller exactly when the latch reports and the bout number is positive; once the flag is set it stays set and nothing more is reported |
| Lance.LanceEntity.ScoreHit | src/core/objects/LanceEntity.js:175-335 | for an engaged lance with a visible hit, the flag follows the latch, and the nearest hit's metadata is reported exactly when the latch reports and the bout number is positive |
| Lance.LanceEntity.Reset | src/core/entities/KnightEntity.js:102-105 | as intended: the lance reset the knights look for clears the hit flag |
| Lance.EngagesOnlyAfterCountdown | src/core/objects/LanceEntity.js:221 | in every reachable countdown state, the lance engages only once the countdown has finished (started, at 0, interval cleared), and never before the start or while the countdown is positive |
| Lance.LatchedLanceSilent | src/core/objects/LanceEntity.js:260-334 | once the flag is set, no later bout reports anything |
| Lance.LanceScoresOnceEver | src/core/objects/LanceEntity.js:260-334 | as written, a lance reports one hit over all bouts if it ever strikes anything, and none otherwise |
| Lance.ScoresOncePerBout | src/core/entities/KnightEntity.js:86-105 | with the flag cleared at each bout start, every bout with a hit reports exactly one |
| Lance.SecondBoutHitLost | src/core/objects/LanceEntity.js:260-334 | two bouts with a hit each: as written one report, with a reset per bout two |
| AiLance.KnightForward | src/core/objects/AILanceEntity.js:219-223 | the forward direction is +X exactly when flipped, else -X |
| AiLance.TargetPreference | src/core/objects/AILanceEntity.js:244-281 | the aim prefers the head answer, then body, then any hitbox, then the target's position lifted 0.5 |
| AiLance.FallbackHeight | src/core/objects/AILanceEntity.js:275-280 | the fallback is the target model's position raised 0.5, or (0, 0.5, 0) without a model |
| AiLance.KnightTargetIsFirstHitbox | src/core/objects/AILanceEntity.js:244-255 | against a tagged knight with bones, the aim is the first hitbox of its traversal |
| AiLance.AILanceEntity.constructor | src/core/objects/AILanceEntity.js:7-36 | team "red", no model, a zeroed timer, aim points at the origin |
| AiLance.AILanceEntity.OpponentTeam | src/core/objects/AILanceEntity.js:168 | the inherited "red" team always targets "blue" |
| AiLance.AILanceEntity.UpdateAimPoint | src/core/objects/AILanceEntity.js:212-292 | without a target or an owner nothing changes; otherwise both aim points snap to the chosen target |
| AiLance.AILanceEntity.UpdateAiming | src/core/objects/AILanceEntity.js:63-81 | the timer follows `TimerStep`; the aim retargets when it fires, and otherwise moves 5% towards the target once the model exists; with a model it then throws, reading the never-assigned `handRef`, and returns normally exactly when there is no model |
| AiLance.TimerStep | src/core/objects/AILanceEntity.js:65-69 | the timer fires exactly at 0.5 s accumulated, restarting at 0, and otherwise accumulates |
| AiLance.TimerBounded | src/core/objects/AILanceEntity.js:65-69 | the timer stays within [0, 0.5) |
| AiLance.SnappedAimStays | src/core/objects/AILanceEntity.js:74 | after a snap, smoothing leaves the aim on the target |
| Loading.Given | src/utils/ModelLoader.js:18-26 | an absent callback registers nothing, a given one registers itself |
| Loading.Step | src/utils/ModelLoader.js:18-50 | loaded: the callback runs at once. Not loaded: it is queued. Fetched: every queued callback runs in order and the queue empties. Failure: nothing |
| Loading.StepConsistent | src/utils/ModelLoader.js:18-50 | no step loses or duplicates a callback, and a loaded queue stays empty |
| Loading.EveryCallbackOnce | src/utils/ModelLoader.js:18-50 | over any run of events, the callbacks invoked plus those still queued are exactly those registered, in order |
| Loading.LoadedStaysLoaded | src/utils/ModelLoader.js:19-22 | after loading, every later request is answered at once and the queue stays empty |
| Loading.NothingBeforeFetch | src/utils/ModelLoader.js:24-26 | before the fetch completes, nothing runs and every callback waits in order |
| Animations.FindClip | src/utils/AnimationLoader.js:99 | the clip found has the name and is one of the clips; none exactly when no clip has the name |
| Animations.FindClipIsFirst | src/utils/AnimationLoader.js:99 | the clip found is the first one with the name: every earlier clip has another name |
| Animations.AnimationLoader.constructor | src/utils/AnimationLoader.js:9-26 | the path is resolved with `getAssetPath`; not loaded, no callbacks, model or mixer |
| Animations.AnimationLoader.Load | src/utils/AnimationLoader.js:28-37 | the queue and the callbacks run follow `Loading.Step` for a load |
| Animations.AnimationLoader.OnFetched | src/utils/AnimationLoader.js:40-58 | the model is the scene renamed, the clips are kept, a mixer exists, and every queued callback runs once |
| Animations.AnimationLoader.SetMaterial | src/utils/AnimationLoader.js:68-88 | the texture is remembered and returned, and every mesh of a loaded model gets it |
| Animations.AnimationLoader.Update | src/utils/AnimationLoader.js:90-94 | the mixer advances by the frame time only when it exists |
| Animations.AnimationLoader.PlayAnimation | src/utils/AnimationLoader.js:96-107 | a clip plays exactly when a mixer and clips exist and one has the name, and it is the first such clip |
| Models.ModelLoader.constructor | src/utils/ModelLoader.js:6-16 | the path is kept as given; not loaded, no callbacks, no model |
| Models.ModelLoader.Load | src/utils/ModelLoader.js:18-50 | the queue and the callbacks run follow `Loading.Step` for a load |
| Models.ModelLoader.OnFetched | src/utils/ModelLoader.js:30-40 | the model is the scene renamed and every queued callback runs once |
| Models.ModelLoader.SetMaterial | src/utils/ModelLoader.js:52-72 | the texture is remembered and returned, and every mesh of a loaded model gets it |
| GameLoop.Direction | src/core/Game.js:364-368 | a knight rides towards -X exactly when it starts right of the other |
| GameLoop.DirectionsOppose | src/core/Game.js:364-368 | knights with different starts ride in opposite directions |
| GameLoop.Reach | src/core/Game.js:373-392 | a knight starts walking exactly when it reaches the far end while not yet walking, recording where it started and reporting once |
| GameLoop.Advance | src/core/Game.js:395-418 | a riding knight moves `moveSpeed * deltaTime`; a walking one moves the walk distance divided by the time scale and reports the distance walked |
| GameLoop.IdleFrame | src/core/Game.js:353-361 | while the knights may not move, a frame changes nothing and reports nothing |
| GameLoop.FrameLatch | src/core/Game.js:382-392 | in one frame, a knight is marked exactly when it starts walking |
| GameLoop.MarkedAtMostOnce | src/core/Game.js:382-392 | over any run of frames, each knight is marked at most once, once walking it stays walking, and its walk start never moves |
| GameLoop.WalkReports | src/core/Game.js:403-417 | every walk-distance report comes from a walking knight |
| GameLoop.ResetBoutState | src/core/Game.js:443-453 | no walking, no walk starts, time scale 1, not passed; positions and facings kept |
| GameLoop.SwapAsWritten | src/core/Game.js:531-561 | as written, the swap throws at the opponent's flip: the player has flipped, the opponent has not |
| GameLoop.SwapZPositionsAndFlip | src/core/Game.js:531-561 | as intended: starts and lanes exchanged, each knight at its new start, both facings toggled, the bout state reset |
| GameLoop.SwapTwiceRestores | src/core/Game.js:531-561 | two intended swaps restore starts, lanes and facings |
| GameLoop.SwapAsWrittenMisaligns | src/core/Game.js:531-561 | from knights facing each other, the intended swap keeps them so, and the written one leaves them facing the same way |
| GameLoop.CheckPassed | src/core/Game.js:633-640 | passed is set once the knights are within 2.02 and never cleared; nothing else changes |
| GameLoop.AssignTeams | src/core/Game.js:45-46 | the player is red on the coin's low half and blue otherwise; the opponent gets the other colour |
| GameLoop.TeamsDiffer | src/core/Game.js:45-46 | the two teams always differ, and both colours can fall to the player |
| GameLoop.Without | src/core/Game.js:697 | unsubscribing removes every copy of the callback and never grows the list |
| GameLoop.WithoutKeepsOthers | src/core/Game.js:697 | every other callback keeps its number of copies |
| GameLoop.WithoutAbsent | src/core/Game.js:697 | unsubscribing an absent callback changes nothing |
| GameLoop.SubscribeThenUnsubscribe | src/core/Game.js:694-699 | subscribing a new callback and unsubscribing it restores the list |
| Game.Game.constructor | src/core/Game.js:21-82 | player at the right start (y 2, z 0) and flipped; opponent at the left start (y 2, z 2) and not flipped; teams from the coin; no subscribers |
| Game.Game.CheckRoundPositions | src/core/Game.js:351-440 | the riders' new state and the calls to the controller are exactly those of `GameLoop.Frame` |
| Game.Game.MarkReachedEnds | src/core/Game.js:370-392 | both latches are tested on the unmoved positions, player first |
| Game.Game.MoveKnights | src/core/Game.js:394-418 | both knights advance, player first |
| Game.Game.MovePlayer | src/core/Game.js:394-405 | the player advances per `Advance` |
| Game.Game.MoveOpponent | src/core/Game.js:407-418 | the opponent advances per `Advance` |
| Game.Game.ResetBoutState | src/core/Game.js:443-453 | the bout state becomes `GameLoop.ResetBoutState` of the old one |
| Game.Game.SwapZPositionsAndFlip | src/core/Game.js:531-561 | the bout state and the outcome are those of `GameLoop.SwapAsWritten` |
| Game.Game.CheckHorsesPassed | src/core/Game.js:633-640 | the bout state becomes `GameLoop.CheckPassed` of the old one |
| Game.Game.Subscribe | src/core/Game.js:694-699 | the callback is appended and returned as the handle `Unsubscribe` takes |
| Game.Game.Unsubscribe | src/core/Game.js:697 | the subscribers become `GameLoop.Without` of the old list |
| Game.Game.NotifySubscribers | src/core/Game.js:702-714 | every subscriber, in order, receives the same snapshot of positions, speeds, countdown, movement and time scale |
| Game.Game.ThrottledNotify | src/core/Game.js:683-687 | notifies, and records the time, exactly when more than 1000/30 ms have passed; each subscriber, in order, then gets the same snapshot |

## Left out

- Rendering, three.js materials, cameras, audio, GSAP tweens, the DOM and
  `console` output are left out. The scene graph is a value tree, and world
  positions come in as a parameter function (`worldOf`).
- Aliasing: models are values. A model textured by a loader is not shared
  with the entity that received it, and entity positions are copies.
- Numbers: positions, vectors, speeds and times are exact reals, not IEEE
  doubles. Rounding is not modelled, so facts such as
  `Placement.FullLerpIsTarget` hold over exact reals. A double-precision lerp
  with factor 1 can miss its target by one unit in the last place.
- `gameStateManager` (the match controller `Game` uses) is not part of this
  model. It is represented by an interface that records calls.
- `game-state.js` does not define the `getBout`, `setBoutMetadata`, `on`,
  `playerEntity` or `markPlayerReachedEnd` that other files call on it.
  They are read from the controller interface instead. As written, a lance
  hit would throw at `GameState.getBout()`; the model lets the call through
  to the interface. The lance's `can_move` is read from the modelled
  `GameState` countdown.
- Lance.HitRecord: `mph_on_contact` is stored unrounded. The game rounds
  it to one decimal with `toFixed(1)`, and decimal rounding of reals is not
  modelled.
- Lance.LanceEntity.Update: the ray cast from the camera through the
  mouse position, and the choice among potential targets, are left out. Their
  result is a parameter: the intersection list in distance order.
- Lance.LanceEntity.OnModelLoaded: `customizeMaterials` reads the
  undefined `getRandom` and `baseMaterials` as soon as a mesh named
  "Base", "Spiral" or "Hilt" is found. The model records only whether such
  a mesh exists and that the callback then throws.
- `LanceEntity.calculateSpeed`'s guard never fails, since both vectors
  are always set. The guard is therefore not modelled.
- AiLance.AILanceEntity.UpdateAimPoint: the target and owner are
  parameters. In the source, `AILanceEntity` calls the base constructor
  with its own argument list, so `ownerEntity` is never stored, and
  `GameState.playerEntity` does not exist. As written, `updateAimPoint`
  therefore always returns at its guard. The unused `knightPosition`
  and `toPlayer` values are not modelled. `knightForward` is modelled as
  `AiLance.KnightForward`, which, as in the source, nothing uses.
- AiLance.AILanceEntity.UpdateAiming: no code as written reaches the AI
  lance or its `updateAiming`. `KnightEntity`, the only class that creates
  an `AILanceEntity`, is never instantiated. `AILanceEntity` does not
  override `update`, and `LanceEntity.update` never calls `updateAiming`.
  The AI lance is modelled as its own methods would behave if called.
- `AILanceEntity.updateAiming` lines 77-113 aim the ray and turn the lance
  model towards the aim point. They are left out: as written the call
  throws at line 81, since `handRef` is never assigned, and
  `AiLance.AILanceEntity.UpdateAiming` models that throw. The preview ray and hitbox highlighting (lines 115-161)
  are left out: they are debug visuals.
- `PlayerLanceEntity` is modelled only through the throw of its `reset`,
  which calls the nonexistent `super.reset`.
- Game.Game.CheckRoundPositions: the horse walk/gallop animation choice
  (Game.js:421-439) is left out. It only selects clips.
- Game.Game.Valid: the time scale is taken to stay positive. The slow-down
  interpolation of `timeScale` towards `targetTimeScale` (Game.js:643-669)
  and the "boo" sound are left out, since they run through tweens and
  audio.
- `Game.resetGame` (Game.js:455-521) is left out. It calls `setTeam` and
  `resetPosition`, which no entity defines, and it is not part of the
  round logic modelled here.
- Randomness: the coin toss for teams is the parameter `coinBelowHalf`.
  `now` for the throttle is a parameter.
- `dispose` methods and event-listener removal are left out: they only
  release resources.
- `AnimationLoader`: if a success callback throws, the queue is not
  cleared. This is not modelled, since callbacks are identities rather
  than code.
- The flip flags of the entities are mirrored in `Game` as `playerFlipped`
  and `opponentFlipped`. Entities are not referenced from `Game`.
- Strings: `toLowerCase` is modelled for ASCII letters only.

## Findings

| source | as written | input that shows it | evidently intended | confidence | as-written member | corrected member |
|---|---|---|---|---|---|---|
| src/core/entities/KnightEntity.js:168-181 | `return child` only leaves the traverse callback, so `getHitbox` returns null whenever a model is loaded | a knight with a bone named "Head", asked for "head" | return the first hitbox whose name contains the key | high (not executed) | Hitboxes.GetHitboxAsWritten, Hitboxes.GetHitboxLosesTheMatch | Hitboxes.GetHitbox |
| src/core/objects/LanceEntity.js:260-334 | `hasHitThisRound` is set after a hit and never cleared: `LanceEntity` has no `reset`, so the knights' `resetHitState` skips it | a hit in bout 1, then a hit in bout 2 after `boutStart` | the lance's flag is cleared at each bout start, so each bout can score once | high (not executed) | Lance.LanceEntity.Update, Lance.LanceScoresOnceEver, Lance.SecondBoutHitLost | Lance.LanceEntity.Reset, Lance.ScoresOncePerBout |
| src/core/Game.js:531-561 | `this.opponent.flip()` is called, but `OpponentEntity` defines no `flip`. The player flips, then the swap throws | any swap from knights facing each other | both knights flip and keep facing each other | high (not executed) | GameLoop.SwapAsWritten, GameLoop.SwapAsWrittenMisaligns | GameLoop.SwapZPositionsAndFlip, GameLoop.SwapTwiceRestores |
