# ChangingBlocks in Dafny

A model of the two rule engines of the Terasology ChangingBlocks module, with
proofs about them.

- **The timed stage animator** is `ChangingBlocksSystem.update` and `onSpawn`.
  - Every animated block entity carries a `ChangingBlocksComponent`: an ordered stage list (stage block → dwell in ms), the `loops` and `stopped` flags, and two timestamps.
  - A sweep walks the entities in order when more than 1000 ms of game time have passed since the last sweep that reached the end of the entities. The first entity that is stopped or never checked ends the whole sweep, so the entities after it are not visited.
  - An entity whose dwell has elapsed moves its block one stage on. An entity already on its last stage only has its check time set to now.
  - A move that reaches the last index goes to the first stage instead when the list loops. When the list does not loop, the block goes to the last stage, and the entity stops and receives an `OnBlockSequenceComplete` event.
- **The conditional trigger engine** is `ConditionalBlocksSystem`.
  - A registry maps each trigger key to the block entities ("holders") whose rules name that key. A key is a block URI, or one of `"item"`, `"npc"`, `"player"`.
  - When a block changes or an entity moves, `checkLocational` visits the holders registered under the key. Each rule whose trigger equals the key runs a chain of gates: the adjacency shortcut, the distance range, side and field of view, occlusion, then chance. A rule that passes replaces the holder's block with its `blockToBecome`.
- **The rule datatype.** `BlockCondition` has four variants, listed with their declared default values.

Files:
- `engine.dfy` (`Engine`): the engine services the engines use.
  - The world is a `World` object holding a map from positions to block URIs.
  - The random generator is a `RandomSource`: a fixed stream of floats plus a counter of how many have been drawn.
- `animation_component.dfy` (`AnimationComponent`): the component record.
  - The stage list is a sequence of stages with distinct blocks, standing for the insertion-ordered map.
  - Also holds the map lookup of a stage's dwell. `List.indexOf` and the catalog type are in `Engine`.
- `animation_system.dfy` (`AnimationSystem`): the per-entity step and the sweep.
  - Pure specification functions `Step`, `SweepFrom`, `UpdateState` and `Run`, with their lemmas.
  - The class `ChangingBlocksSystem`. Its `Update` is the imperative loop with the early returns, proved equal to `UpdateState`.
- `block_condition.dfy` (`BlockConditions`): the rule datatype and its defaults.
- `conditional_system.dfy` (`ConditionalSystem`): the gate chain (`Decide`), the fold over rules and holders (`ApplyRules`, `VisitAll`) and the registry functions, with their lemmas.
  - The class `ConditionalBlocksSystem` holds the mutable registry, its handlers and the nested `checkLocational` loops. Each method is proved equal to the corresponding function.
- `scenarios.dfy` (`Scenarios`): concrete runs stated as lemmas.

Inputs from outside the two engines are passed in as parameters:
- `now` is the game clock, read once per call.
- The catalog (`blockManager.getBlock`) is a map from URI to block.
- A `Sensor` stands for geometry and physics. For each holder and rule it reports the distance, whether the trigger lies on the rule's side, the angle to that face, and whether the occlusion ray first hits the causing entity.
- The random generator is a stream consumed in order. `drawn` counts the draws.

The model follows the code as written. Consequences a reader may not expect:
- **Stopped or unchecked entities end the sweep.** An entity that is `stopped`, or whose `lastGameTimeCheck` is still -1, ends the whole update with `return` (lines 82 and 87). It is not skipped.
  - `lastCheckTime` is then not advanced.
  - So, as long as the entity manager yields the same entities in the same order, one stopped entity freezes every entity after it in every later update (`StoppedEntityFreezesRun`). `lastCheckTime` stays frozen whatever the order.
- **The throttle counts from the last sweep that reached the end.** `lastCheckTime` is set only after the loop (line 118). A sweep ended by `return` or by an exception leaves the throttle open, so every later update sweeps the entities before the halting one again. With a stopped entity second in line, a first entity with dwell 0 moves one stage at 1001 ms and another at 1002 ms (`Scenarios.SweepRepeatsBehindStoppedEntity`).
- **For an entity already checked, `lastGameTimeCheck` moves only when its dwell has elapsed.** It is not updated on every poll. It is also set on the first check, from -1 to now with no dwell (lines 84-85), and by `onSpawn` to the spawn time (line 65).
- **The new dwell comes from the stage being left**, not from the stage being entered (line 112).
- **A block that is not a stage has index -1 and advances to the first stage**, when the list has at least one stage and the catalog resolves the first one. With no stages the entity only moves its check time (`LastStageIsTerminal`); with an unresolved first stage nothing is written. After such a write, the dwell lookup of the missing block then throws, because the lookup yields null. The model records this as a `Fault` that ends the sweep after the write.
- **A looping list never reaches its last stage.** Reaching the last index wraps to index 0 instead of showing the last stage. A looping list of N ≥ 2 stages therefore cycles through only the first N-1 stages.
- **The first sweep comes late.** `lastCheckTime` starts at 0 and a sweep needs more than 1000 ms since then. So in the two-stage example (500 ms each, spawned at t = 0) the change to the second stage happens on the first update after t = 1000, not at t = 600 (`Scenarios.TwoStageSequence`).
- **Trigger keys are compared exactly** with `String.equals`. There is no case folding.
- **The registry keeps duplicates.** A holder is appended once per rule naming a key. Removal takes out only the first occurrence from each list.
- **The chance test is `chance >= draw`.** So a chance of 0.0 still fires on a draw of exactly 0.0.
- **`throughWalls`** is read by `checkLocational` but is not declared in `BlockCondition.java` as it stands. The model gives every rule a boolean `throughWalls` field, defaulting to false like an uninitialised boolean field.

## Model

| member | source | states |
|---|---|---|
| AnimationComponent.Keys | src/main/java/org/terasology/changingBlocks/ChangingBlocksSystem.java:94-95 | the key list has one entry per stage, and entry i is stage i's block, in cycle order |
| AnimationComponent.NewComponent | src/main/java/org/terasology/changingBlocks/ChangingBlocksComponent.java:26-39 | a fresh component is not stopped, has the "never checked" sentinel -1, and has the configured loop flag and stages |
| Engine.IndexOf | src/main/java/org/terasology/changingBlocks/ChangingBlocksSystem.java:96 | the result is -1 exactly when the block is absent; otherwise it is the first index holding the block |
| AnimationComponent.DwellOf | src/main/java/org/terasology/changingBlocks/ChangingBlocksSystem.java:112 | the lookup is None exactly when the block is not a stage; otherwise it is the dwell of that block's stage |
| AnimationComponent.DwellOfAt | src/main/java/org/terasology/changingBlocks/ChangingBlocksComponent.java:32-33 | with distinct stage blocks, stage i's block has index i and its lookup gives stage i's dwell |
| AnimationSystem.NextStage | src/main/java/org/terasology/changingBlocks/ChangingBlocksSystem.java:96-107 | there is no move exactly when lastIndex <= current; otherwise the move goes to current+1, or to 0 when current+1 is the last index of a looping list; it completes exactly when current+1 is the last index and the list does not loop |
| AnimationSystem.LoopingSkipsLastIndex | src/main/java/org/terasology/changingBlocks/ChangingBlocksSystem.java:100-102 | with looping on, no move completes, and the target index is below the last index unless the list has one stage |
| AnimationSystem.Resolves | src/main/java/org/terasology/changingBlocks/ChangingBlocksSystem.java:108-110 | a stage is written only when the catalog gives back a block whose URI is the stage URI itself |
| AnimationSystem.Step | src/main/java/org/terasology/changingBlocks/ChangingBlocksSystem.java:80-116 | one step keeps the position, loop flag and stages and never un-stops an entity; it ends the update exactly for a stopped or never-checked entity; it sends the completion event only to a running, non-looping entity, which it stops; it changes the world at most at the entity's position |
| AnimationSystem.StepFrame | src/main/java/org/terasology/changingBlocks/ChangingBlocksSystem.java:79-116 | one step keeps position, loop flag and stages; leaves a stopped entity untouched and returns; sets `stopped` exactly when it sends the completion event, and never for a looping list; ends the update exactly for stopped or unchecked entities; writes only at the entity's own position, and only a stage block the catalog resolves |
| AnimationSystem.DwellNotElapsedIsNoop | src/main/java/org/terasology/changingBlocks/ChangingBlocksSystem.java:89 | before the dwell has elapsed, the entity and the world are left exactly as they are and the sweep goes on |
| AnimationSystem.FirstCheckOnlyArmsTimer | src/main/java/org/terasology/changingBlocks/ChangingBlocksSystem.java:84-88 | a running component never checked before (a fresh one included) only gets lastGameTimeCheck := now, nothing is written, and the update ends |
| AnimationSystem.StageAdvance | src/main/java/org/terasology/changingBlocks/ChangingBlocksSystem.java:89-113 | from stage j (not the last), a due entity moves to stage j+1, or to 0 when j+1 is the last stage of a looping list; the check time becomes now; it stops and sends the event exactly when reaching the last stage without looping; when the catalog resolves the target, the block is written and the new dwell is stage j's; otherwise neither the world nor the dwell changes |
| AnimationSystem.LastStageIsTerminal | src/main/java/org/terasology/changingBlocks/ChangingBlocksSystem.java:97-98 | on the last stage, or with no stages, a due entity only moves its check time: no write, no stop, no event |
| AnimationSystem.MissingStageRestarts | src/main/java/org/terasology/changingBlocks/ChangingBlocksSystem.java:96-112 | a block that is not a stage is moved to the first stage when the catalog resolves it, and the failed dwell lookup then ends the update; the event is sent exactly for a one-stage non-looping list |
| AnimationSystem.LoopingNeverShowsLastStage | src/main/java/org/terasology/changingBlocks/ChangingBlocksSystem.java:100-111 | in a looping list of two or more stages, a step never completes or stops the entity, and never writes the last stage's block |
| AnimationSystem.Spawn | src/main/java/org/terasology/changingBlocks/ChangingBlocksSystem.java:58-66 | spawning fails exactly when the current block is not one of the stages; otherwise the dwell becomes the current block's stage dwell and the check time becomes the spawn time, and nothing else changes |
| AnimationSystem.SpawnedBlockWaitsItsDwell | src/main/java/org/terasology/changingBlocks/ChangingBlocksSystem.java:58-66 | a block spawned on stage j gets stage j's dwell and the spawn time as its check time; sweeps leave it untouched until more than that dwell has passed, and after that it is due |
| AnimationSystem.SweepFrom | src/main/java/org/terasology/changingBlocks/ChangingBlocksSystem.java:79-117 | the sweep keeps the number of entities, and each entity's position, loop flag and stages; a stopped entity stays stopped; the sweep lemmas below state the rest |
| AnimationSystem.SweepKeeps | src/main/java/org/terasology/changingBlocks/ChangingBlocksSystem.java:79-117 | entities before the start are untouched; every entity keeps its position, loop flag and stages; no stopped entity is restarted |
| AnimationSystem.SweepCompletions | src/main/java/org/terasology/changingBlocks/ChangingBlocksSystem.java:100-106 | a sweep sends an entity exactly one event if it stops that entity, and none otherwise |
| AnimationSystem.SweepWorldFrame | src/main/java/org/terasology/changingBlocks/ChangingBlocksSystem.java:111 | a sweep changes the world only at positions of the entities it visits |
| AnimationSystem.OnStageStepContinues | src/main/java/org/terasology/changingBlocks/ChangingBlocksSystem.java:81-116 | a running, checked entity that shows one of its stages lets the sweep go on, and changes the world only at its own position |
| AnimationSystem.SweepFinishes | src/main/java/org/terasology/changingBlocks/ChangingBlocksSystem.java:79-117 | for entities at distinct positions that each show one of their stages, the sweep reaches the end exactly when none of them is stopped or unchecked |
| AnimationSystem.HaltingEntityEndsSweep | src/main/java/org/terasology/changingBlocks/ChangingBlocksSystem.java:81-88 | a stopped or unchecked entity k ends the sweep without finishing it; entities after k are untouched; k at most gets its timer started (not even that if stopped); the world changes only at positions of entities before k |
| AnimationSystem.UpdateState | src/main/java/org/terasology/changingBlocks/ChangingBlocksSystem.java:75-120 | nothing changes unless lastCheckTime + 1000 < now; lastCheckTime either stays or becomes now; each entity keeps its position, loop flag and stages, and a stopped entity stays stopped |
| AnimationSystem.HaltingEntityFreezesUpdate | src/main/java/org/terasology/changingBlocks/ChangingBlocksSystem.java:81-118 | with a stopped or unchecked entity k, the update leaves lastCheckTime and every entity after k unchanged, leaves a stopped k as it is, and writes only at positions before k |
| AnimationSystem.FinishedUpdateMovesClock | src/main/java/org/terasology/changingBlocks/ChangingBlocksSystem.java:78-118 | when the throttle passes, for entities at distinct positions that each show one of their stages, lastCheckTime becomes now exactly when no entity is stopped or unchecked |
| AnimationSystem.UpdateFrame | src/main/java/org/terasology/changingBlocks/ChangingBlocksSystem.java:100-106 | an update keeps each entity's position, loop flag and stages; never undoes a stop; sends each entity one event if it stops it and none otherwise |
| AnimationSystem.Run | src/main/java/org/terasology/changingBlocks/ChangingBlocksSystem.java:75-120 | successive updates keep every entity's position, loop flag and stages, and never un-stop an entity; the run lemmas below state the rest |
| AnimationSystem.CompletionSentOnce | src/main/java/org/terasology/changingBlocks/ChangingBlocksSystem.java:100-106 | over any sequence of updates, an entity gets exactly one OnBlockSequenceComplete if the run stops it and none otherwise, and a stopped entity stays stopped |
| AnimationSystem.StoppedEntityFreezesRun | src/main/java/org/terasology/changingBlocks/ChangingBlocksSystem.java:81-83 | once entity k is stopped, no later update moves lastCheckTime, changes entity k or any entity after it, or writes outside positions of entities before k |
| AnimationSystem.ChangingBlocksSystem.constructor | src/main/java/org/terasology/changingBlocks/ChangingBlocksSystem.java:50 | the system starts with lastCheckTime 0 |
| AnimationSystem.ChangingBlocksSystem.OnSpawn | src/main/java/org/terasology/changingBlocks/ChangingBlocksSystem.java:58-66 | the entity's dwell becomes its current stage's dwell and its check time the spawn time; when the lookup fails, nothing changes and the result is false |
| AnimationSystem.ChangingBlocksSystem.StepEntity | src/main/java/org/terasology/changingBlocks/ChangingBlocksSystem.java:80-116 | one iteration of the loop, changing the component in place and writing through setBlock, leaves the entity, the world, the loop's continuation and the event exactly as Step specifies |
| AnimationSystem.ChangingBlocksSystem.Update | src/main/java/org/terasology/changingBlocks/ChangingBlocksSystem.java:75-120 | the loop, with its early returns, leaves lastCheckTime, the entities, the world and the events exactly as UpdateState specifies |
| ConditionalSystem.FamilyRules | src/main/java/org/terasology/changingBlocks/conditional/ConditionalBlocksSystem.java:87-88 | a block trigger sees only block-triggered rules and an entity trigger only entity-triggered rules |
| ConditionalSystem.Decide | src/main/java/org/terasology/changingBlocks/conditional/ConditionalBlocksSystem.java:96-112 | a rule fires only when its gates or its adjacency shortcut pass, and then after at least one draw; it takes at most two draws, two only through the adjacency shortcut |
| ConditionalSystem.GateChain | src/main/java/org/terasology/changingBlocks/conditional/ConditionalBlocksSystem.java:102-109 | outside the adjacency shortcut, a rule fires exactly when range, side and field of view (directed rules), occlusion and the chance all pass; it takes one draw exactly when the deterministic gates pass |
| ConditionalSystem.AdjacentShortcut | src/main/java/org/terasology/changingBlocks/conditional/ConditionalBlocksSystem.java:98-112 | an adjacent BlockNearby rule with distance < 2 fires on a won first draw, whatever the range and occlusion; after a lost draw it falls through to the range path, which may take a second draw |
| ConditionalSystem.DrawAccounting | src/main/java/org/terasology/changingBlocks/conditional/ConditionalBlocksSystem.java:98-112 | a rule takes at most two draws; two only after a lost adjacency draw with the gates passing; none exactly when neither the shortcut nor the gates apply; a firing rule took a draw |
| ConditionalSystem.CertainRuleFires | src/main/java/org/terasology/changingBlocks/conditional/BlockCondition.java:21-24 | with draws in [0, 1), a rule of chance 1.0 fires whenever its gates or its adjacency shortcut pass |
| ConditionalSystem.ZeroChanceFiresOnlyOnZeroDraw | src/main/java/org/terasology/changingBlocks/conditional/ConditionalBlocksSystem.java:107 | a rule of chance 0.0 fires only on a draw of exactly 0.0, and does fire on one when its gates pass |
| BlockConditions.DefaultBlockNearby | src/main/java/org/terasology/changingBlocks/conditional/BlockCondition.java:21-57 | a BlockNearby rule listens to its trigger block, with chance 1.0, range [0, 1.5], not adjacent, occlusion checked |
| BlockConditions.DefaultBlockDirected | src/main/java/org/terasology/changingBlocks/conditional/BlockCondition.java:21-79 | a BlockDirected rule listens to its trigger block on its side, with chance 1.0, range [0, 1], field of view 0, occlusion checked |
| BlockConditions.DefaultEntityNearby | src/main/java/org/terasology/changingBlocks/conditional/BlockCondition.java:84-103 | an EntityNearby rule listens to its trigger entity, with chance 1.0, range [0, 1.5], occlusion checked |
| BlockConditions.DefaultEntityDirected | src/main/java/org/terasology/changingBlocks/conditional/BlockCondition.java:84-125 | an EntityDirected rule listens to its trigger entity on its side, with chance 1.0, range [0, 1], field of view 0, occlusion checked |
| ConditionalSystem.DefaultNearbyRules | src/main/java/org/terasology/changingBlocks/conditional/BlockCondition.java:44-57 | a nearby rule with default fields fires exactly for triggers at distance within [0, 1.5] that the ray reaches |
| ConditionalSystem.DefaultDirectedRules | src/main/java/org/terasology/changingBlocks/conditional/BlockCondition.java:62-79 | a directed rule with default fields fires exactly for triggers at distance within [0, 1], on its side, at angle at most 0, that the ray reaches |
| ConditionalSystem.Become | src/main/java/org/terasology/changingBlocks/conditional/ConditionalBlocksSystem.java:99 | a target the catalog knows is written at the holder's position (setBlock with getBlock's result) and nowhere else; an unknown target writes nothing |
| ConditionalSystem.ApplyRule | src/main/java/org/terasology/changingBlocks/conditional/ConditionalBlocksSystem.java:93-113 | a rule whose trigger is not exactly the key changes nothing; a matching rule takes exactly the draws of its gate chain (at most two); a rule that does not fire writes nothing; writes happen only at the holder's position and only with catalog blocks |
| ConditionalSystem.RuleEffect | src/main/java/org/terasology/changingBlocks/conditional/ConditionalBlocksSystem.java:102-109 | outside the adjacency shortcut, a matching rule takes one draw exactly when its gates pass, and writes catalog[blockToBecome] at the holder exactly when the gates pass, the draw is at most the chance and the catalog knows the target |
| ConditionalSystem.AdjacentRuleEffect | src/main/java/org/terasology/changingBlocks/conditional/ConditionalBlocksSystem.java:98-112 | through the adjacency shortcut, a won first draw writes the target; a lost one takes a second draw when the gates pass and writes on a lucky one; the draws taken are one, or two after a loss with the gates passing |
| ConditionalSystem.CertainHolderWrites | src/main/java/org/terasology/changingBlocks/conditional/ConditionalBlocksSystem.java:87-115 | a holder whose only rule of the family matches the key, has chance 1.0 and passes its gates or its shortcut gets the catalog's block for blockToBecome at its position |
| ConditionalSystem.ApplyRules | src/main/java/org/terasology/changingBlocks/conditional/ConditionalBlocksSystem.java:91-114 | a holder's rules take between zero and two draws each, in list order |
| ConditionalSystem.VisitHolder | src/main/java/org/terasology/changingBlocks/conditional/ConditionalBlocksSystem.java:87-202 | a holder with no rules of the trigger's family does nothing; draws are never given back |
| ConditionalSystem.VisitAll | src/main/java/org/terasology/changingBlocks/conditional/ConditionalBlocksSystem.java:86-203 | when none of the listed holders has rule components nothing changes; draws are never given back |
| ConditionalSystem.ApplyRulesFrame | src/main/java/org/terasology/changingBlocks/conditional/ConditionalBlocksSystem.java:91-114 | a holder's rules write only at the holder's position and only blocks from the catalog, and never give draws back |
| ConditionalSystem.VisitAllFrame | src/main/java/org/terasology/changingBlocks/conditional/ConditionalBlocksSystem.java:84-204 | a trigger writes only at positions of holders registered under its key, and only blocks from the catalog |
| ConditionalSystem.UnmatchedRulesAreInert | src/main/java/org/terasology/changingBlocks/conditional/ConditionalBlocksSystem.java:93 | rules whose trigger is not exactly the key neither draw nor write |
| ConditionalSystem.TriggerFamiliesAreSeparate | src/main/java/org/terasology/changingBlocks/conditional/ConditionalBlocksSystem.java:87-202 | two holder stores that agree on positions and on the trigger's family of rules give the same world and draws |
| ConditionalSystem.Registered | src/main/java/org/terasology/changingBlocks/conditional/ConditionalBlocksSystem.java:245-249 | the holder is appended at the end of its key's list, which is created if absent; every other key's list is unchanged |
| ConditionalSystem.RegisterAll | src/main/java/org/terasology/changingBlocks/conditional/ConditionalBlocksSystem.java:255-257 | registering keys removes no key, and leaves the list of every key not named unchanged |
| ConditionalSystem.TriggersOf | src/main/java/org/terasology/changingBlocks/conditional/ConditionalBlocksSystem.java:255-256 | one trigger key per rule, in rule order |
| ConditionalSystem.RegisterAllKeys | src/main/java/org/terasology/changingBlocks/conditional/ConditionalBlocksSystem.java:251-285 | registering rules adds exactly their keys to the registry and removes none |
| ConditionalSystem.RegisterAllCounts | src/main/java/org/terasology/changingBlocks/conditional/ConditionalBlocksSystem.java:251-285 | each key's old list stays a prefix; the holder gains one entry per rule naming the key; other holders' counts are unchanged |
| ConditionalSystem.RegisteredCounts | src/main/java/org/terasology/changingBlocks/conditional/ConditionalBlocksSystem.java:245-249 | one registration keeps each key's old list as a prefix, adds one entry of the holder under its own key only, and leaves other holders' counts unchanged |
| ConditionalSystem.RemoveFirst | src/main/java/org/terasology/changingBlocks/conditional/ConditionalBlocksSystem.java:291 | an absent entity leaves the list unchanged; otherwise the list is one shorter |
| ConditionalSystem.RemoveFirstCutsFirst | src/main/java/org/terasology/changingBlocks/conditional/ConditionalBlocksSystem.java:291 | exactly the first occurrence is cut out, and the rest keep their order |
| ConditionalSystem.RemoveFirstCounts | src/main/java/org/terasology/changingBlocks/conditional/ConditionalBlocksSystem.java:291 | removal lowers the removed entity's count by one and leaves every other entity's count alone |
| ConditionalSystem.Removed | src/main/java/org/terasology/changingBlocks/conditional/ConditionalBlocksSystem.java:288-293 | the keys are kept, even with lists that become empty |
| ConditionalSystem.RemoveUndoesRegister | src/main/java/org/terasology/changingBlocks/conditional/ConditionalBlocksSystem.java:287-293 | removing a holder that had been registered once gives the old registry back, except that a newly created key stays with an empty list |
| ConditionalSystem.DuplicateSurvivesRemoval | src/main/java/org/terasology/changingBlocks/conditional/ConditionalBlocksSystem.java:291 | a holder listed twice under a key is still listed there after one removal |
| ConditionalSystem.Handle | src/main/java/org/terasology/changingBlocks/conditional/ConditionalBlocksSystem.java:206-243 | a key with no registry entry changes nothing |
| ConditionalSystem.ConditionalBlocksSystem.constructor | src/main/java/org/terasology/changingBlocks/conditional/ConditionalBlocksSystem.java:75 | the registry starts empty |
| ConditionalSystem.ConditionalBlocksSystem.RegisterTrigger | src/main/java/org/terasology/changingBlocks/conditional/ConditionalBlocksSystem.java:245-249 | the registry becomes Registered of the old registry |
| ConditionalSystem.ConditionalBlocksSystem.RegisterRules | src/main/java/org/terasology/changingBlocks/conditional/ConditionalBlocksSystem.java:255-257 | registers the holder once per rule, under each rule's trigger, in rule order |
| ConditionalSystem.ConditionalBlocksSystem.OnSpawnBlockDirected | src/main/java/org/terasology/changingBlocks/conditional/ConditionalBlocksSystem.java:251-258 | registers the holder once per BlockDirected rule, under its triggerBlock |
| ConditionalSystem.ConditionalBlocksSystem.OnSpawnBlockNearby | src/main/java/org/terasology/changingBlocks/conditional/ConditionalBlocksSystem.java:260-267 | registers the holder once per BlockNearby rule, under its triggerBlock |
| ConditionalSystem.ConditionalBlocksSystem.OnSpawnEntityDirected | src/main/java/org/terasology/changingBlocks/conditional/ConditionalBlocksSystem.java:269-276 | registers the holder once per EntityDirected rule, under its triggerEntity |
| ConditionalSystem.ConditionalBlocksSystem.OnSpawnEntityNearby | src/main/java/org/terasology/changingBlocks/conditional/ConditionalBlocksSystem.java:278-285 | registers the holder once per EntityNearby rule, under its triggerEntity |
| ConditionalSystem.ConditionalBlocksSystem.OnRemoving | src/main/java/org/terasology/changingBlocks/conditional/ConditionalBlocksSystem.java:287-293 | every list loses the first occurrence of the entity, and every key is kept |
| ConditionalSystem.ConditionalBlocksSystem.Shutdown | src/main/java/org/terasology/changingBlocks/conditional/ConditionalBlocksSystem.java:296-302 | the registry is left empty |
| ConditionalSystem.ConditionalBlocksSystem.SetTarget | src/main/java/org/terasology/changingBlocks/conditional/ConditionalBlocksSystem.java:99 | the holder's position gets the catalog's block for the target, and nothing is written when the catalog does not know the target |
| ConditionalSystem.ConditionalBlocksSystem.CheckRule | src/main/java/org/terasology/changingBlocks/conditional/ConditionalBlocksSystem.java:91-113 | the world and the draw counter end as ApplyRule specifies: the gate chain Decide, then the write |
| ConditionalSystem.ConditionalBlocksSystem.CheckRules | src/main/java/org/terasology/changingBlocks/conditional/ConditionalBlocksSystem.java:91-114 | the rules of one component, in list order, as ApplyRules specifies |
| ConditionalSystem.ConditionalBlocksSystem.CheckLocational | src/main/java/org/terasology/changingBlocks/conditional/ConditionalBlocksSystem.java:84-204 | every holder registered under the key, in list order, with nearby rules before directed ones, as VisitAll specifies |
| ConditionalSystem.ConditionalBlocksSystem.OnTrigger | src/main/java/org/terasology/changingBlocks/conditional/ConditionalBlocksSystem.java:240-241 | checkLocational runs only when the key is in the registry, as Handle specifies |
| ConditionalSystem.ConditionalBlocksSystem.OnItemUpdate | src/main/java/org/terasology/changingBlocks/conditional/ConditionalBlocksSystem.java:206-214 | handles the key "item" as an entity trigger |
| ConditionalSystem.ConditionalBlocksSystem.OnCharacterUpdate | src/main/java/org/terasology/changingBlocks/conditional/ConditionalBlocksSystem.java:216-224 | handles the key "npc" as an entity trigger |
| ConditionalSystem.ConditionalBlocksSystem.OnPlayerUpdate | src/main/java/org/terasology/changingBlocks/conditional/ConditionalBlocksSystem.java:226-235 | handles the key "player" as an entity trigger |
| ConditionalSystem.ConditionalBlocksSystem.OnUpdate | src/main/java/org/terasology/changingBlocks/conditional/ConditionalBlocksSystem.java:237-243 | handles the new block's URI as a block trigger |
| Scenarios.TwoStageSequence | src/main/java/org/terasology/changingBlocks/ChangingBlocksSystem.java:75-120 | two 500 ms stages spawned at 0: updates at 400 and 600 do nothing; the update at 1001 writes stage B, stops the entity, sends one event, and sets lastCheckTime to 1001 |
| Scenarios.SweepRepeatsBehindStoppedEntity | src/main/java/org/terasology/changingBlocks/ChangingBlocksSystem.java:78-118 | with a stopped second entity, lastCheckTime stays 0, so the updates at 1001 and 1002 both sweep: the first entity moves to stage B, then to its last stage C, with one event |
| Scenarios.SweepEndsAtSecond | src/main/java/org/terasology/changingBlocks/ChangingBlocksSystem.java:79-117 | over two entities with the second stopped, the sweep takes the first entity's step and returns at the second |
| Scenarios.WaterNearby | src/main/java/org/terasology/changingBlocks/conditional/ConditionalBlocksSystem.java:86-115 | a certain BlockNearby rule with water at distance 2 within range 3 and a clear ray replaces the holder's block and takes one draw |
| Scenarios.RegisterThenRemove | src/main/java/org/terasology/changingBlocks/conditional/ConditionalBlocksSystem.java:245-293 | two holders under one key are kept in registration order, and removing the first leaves the second |

## Left out

- Vector geometry (`distance`, `sub`, `angle`, `Side.inDirection`, `getRelativeSide`): foreign float code. It is the `Sensor` oracle, one report per holder and rule. The trigger position is taken as fixed across rules.
- `Physics.rayTrace`: foreign. It is the boolean `rayHitsCause` of the oracle.
- `FastRandom`: its algorithm is replaced by an arbitrary fixed stream of draws. `UnitDraws` states the [0, 1) range where a lemma needs it.
- Floating point: `float` distances, angles and chances are reals. There is no rounding and no NaN.
- `long` overflow of the millisecond timestamps: integers are unbounded. Overflow needs about 292 million years of game time.
- Logging, `saveComponent`, event dispatch and the entity-manager queries: they have no effect on the modelled state. The entities of a sweep are an array in the order the entity manager yields them. Components are updated in place.
- `OnBlockSequenceComplete` is not a sent event: it is the list of entity indices returned by `Update`.
- Re-entrancy: the source's `setBlock` fires `OnChangedBlock`, which can run `checkLocational` again (or change the registry) in the middle of a sweep. The model does not follow that cascade. The oracle's answers do not depend on writes made earlier in the same call.
- Catalog failures: what `blockManager.getBlock` returns for an unknown URI is up to the engine's block manager, which is not part of this model. For such a URI the model writes nothing, in both engines.
- `onSpawn`: when the lookup of the current block's dwell fails, the source throws while unboxing null. The model changes nothing and returns false.
- ConditionalSystem.ConditionalBlocksSystem.CheckLocational: requires the key to be in the registry. On a missing key the source dereferences null and throws, and every handler checks `containsKey` first.
- A `null` rule list in a `ChangeBlock*Component` is taken to be an empty list.
- The conversion of the holder's float world position to an integer block position is not modelled. Holders carry integer positions.
- The unused `isBlock` parameter of `registerTrigger` is not modelled.
- The documented meaning of `fieldOfView` ("1 = any block on that side") is not modelled. The code compares the oracle's angle with it directly.
- `HashMap` iteration order is not modelled. The stage map is an insertion-ordered sequence with distinct blocks. `OnRemoving` visits the registry keys in an arbitrary order, which does not matter because each key is changed independently.
- Run: chains updates over one fixed entity sequence in one fixed order. The source queries the entity manager afresh on every update, so entities can be spawned or destroyed between updates and the order can change. `CompletionSentOnce` and `StoppedEntityFreezesRun` hold for that fixed sequence only.
- The game clock is read once per `update`. The second `timer.getGameTimeInMs()` read at line 90 is taken to give the same value.
