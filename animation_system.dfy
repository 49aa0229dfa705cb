/**
  ChangingBlocksSystem: the timed stage animator. A sweep walks the animated
  block entities in the order the entity manager yields them, when more than
  CheckInterval ms of game time have passed since the last sweep that reached
  the end of the entities. The first stopped or never-checked entity ends the
  sweep, and the entities after it are not visited. Each entity whose dwell
  has elapsed moves its block to the next stage of its stage list. Reaching
  the last index goes back to the first stage when the list loops; otherwise
  the block shows the last stage and the entity stops.

  The sweep is specified by the pure functions Step, SweepFrom and
  UpdateState; the class method Update is the imperative loop, proved equal to
  them. Everything else in this module is stated about those functions.
 */
module AnimationSystem {
  import opened Engine
  import opened AnimationComponent

  /** Minimum game time (ms) between two sweeps. */
  const CheckInterval: int := 1000

  /** An animated block entity: where it is and its animation component. */
  datatype AnimatedBlock = AnimatedBlock(pos: Pos, anim: ChangingBlocksComponent)

  /**
    Catalog resolution of `uri` gives back a block whose URI is `uri` itself:
    only then does the stage step write the block.
   */
  predicate Resolves(catalog: Catalog, uri: BlockId): (b: bool)
    ensures b <==> Get(catalog, uri) == Some(uri)
    ensures b ==> uri in catalog.Values
  {
    uri in catalog && catalog[uri] == uri
  }

  // ---------------------------------------------------------------------------
  // The next-stage arithmetic
  // ---------------------------------------------------------------------------

  /** Where the stage step goes: nowhere, or to stage `index`, possibly completing the sequence. */
  datatype Advance = Stay | Move(index: nat, completes: bool)

  /**
    The next stage after `current` (-1 when the block is not a stage) in a list
    whose last index is `lastIndex`. Reaching the last index wraps to 0 when
    looping and completes the sequence otherwise.
   */
  function NextStage(current: int, lastIndex: int, loops: bool): (a: Advance)
    requires current >= -1
    ensures a.Stay? <==> lastIndex <= current
    ensures a.Move? ==> a.index <= lastIndex
    ensures a.Move? ==> (a.completes <==> current + 1 == lastIndex && !loops)
    ensures a.Move? && current + 1 < lastIndex ==> a.index == current + 1
    ensures a.Move? && current + 1 == lastIndex ==> a.index == if loops then 0 else lastIndex
  {
    if lastIndex > current then
      var next := current + 1;
      if next == lastIndex then
        if loops then Move(0, false) else Move(next, true)
      else Move(next, false)
    else Stay
  }

  /** With looping on, the last index is never the one moved to, except in a one-stage list. */
  lemma LoopingSkipsLastIndex(current: int, lastIndex: int)
    requires current >= -1
    ensures var a := NextStage(current, lastIndex, true);
      a.Move? ==> !a.completes && (a.index < lastIndex || a.index == lastIndex == 0)
  {
  }

  // ---------------------------------------------------------------------------
  // One entity
  // ---------------------------------------------------------------------------

  /**
    How the loop goes on after an entity: with the next entity, by the
    `return` that ends the whole update, or by the null-dereference exception that
    unboxing a missing dwell throws (which also ends the update).
   */
  datatype StepEnd = Continue | Return | Fault

  datatype StepResult = StepResult(
    entity: AnimatedBlock,         // the entity with its component as the step left it
    world: map<Pos, BlockId>,      // the world after the step
    completes: bool,               // an OnBlockSequenceComplete was sent to the entity
    end: StepEnd)

  /** The sweep's work on one entity at game time `now`. */
  function Step(e: AnimatedBlock, world: map<Pos, BlockId>, catalog: Catalog, now: int): (r: StepResult)
    ensures r.entity.pos == e.pos
    ensures r.end == Return <==> e.anim.stopped || e.anim.lastGameTimeCheck == Unchecked
    ensures r.completes ==> !e.anim.stopped && !e.anim.loops && r.entity.anim.stopped
    ensures r.entity.anim.loops == e.anim.loops && r.entity.anim.blockFamilyStages == e.anim.blockFamilyStages
    ensures e.anim.stopped ==> r.entity.anim.stopped
    ensures r.world == world || (e.pos in r.world && r.world == world[e.pos := r.world[e.pos]])
  {
    var c := e.anim;
    if c.stopped then StepResult(e, world, false, Return)
    else if c.lastGameTimeCheck == Unchecked then
      StepResult(e.(anim := c.(lastGameTimeCheck := now)), world, false, Return)
    else if now - c.lastGameTimeCheck <= c.timeInGameMsToNextStage then
      StepResult(e, world, false, Continue)
    else
      var checked := c.(lastGameTimeCheck := now);
      var current := BlockAt(world, e.pos);
      var keys := Keys(c.blockFamilyStages);
      match NextStage(IndexOf(keys, current), |keys| - 1, c.loops)
      case Stay => StepResult(e.(anim := checked), world, false, Continue)
      case Move(n, completes) =>
        var advanced := checked.(stopped := completes);
        if !Resolves(catalog, keys[n]) then
          StepResult(e.(anim := advanced), world, completes, Continue)
        else
          var written := world[e.pos := keys[n]];
          match DwellOf(c.blockFamilyStages, current)
          case None => StepResult(e.(anim := advanced), written, completes, Fault)
          case Some(d) =>
            StepResult(e.(anim := advanced.(timeInGameMsToNextStage := d)), written, completes, Continue)
  }

  /** A stopped or never-checked entity ends the update when the sweep reaches it. */
  predicate Halts(c: ChangingBlocksComponent)
  {
    c.stopped || c.lastGameTimeCheck == Unchecked
  }

  /** The dwell has elapsed for a running, already checked entity. */
  predicate Due(c: ChangingBlocksComponent, now: int)
  {
    !Halts(c) && now - c.lastGameTimeCheck > c.timeInGameMsToNextStage
  }

  /**
    What any step leaves alone: the position, the loop flag and the stages; a
    stopped entity is not touched; `stopped` is only ever set, and exactly when
    the completion event is sent; the world changes at most at the entity's own
    position, and then to a stage block the catalog resolves.
   */
  lemma StepFrame(e: AnimatedBlock, world: map<Pos, BlockId>, catalog: Catalog, now: int)
    ensures var r := Step(e, world, catalog, now);
      && r.entity.pos == e.pos
      && r.entity.anim.loops == e.anim.loops
      && r.entity.anim.blockFamilyStages == e.anim.blockFamilyStages
      && (e.anim.stopped ==> r == StepResult(e, world, false, Return))
      && (r.completes <==> !e.anim.stopped && r.entity.anim.stopped)
      && (r.completes ==> !e.anim.loops)
      && (r.end == Return <==> Halts(e.anim))
      && AgreeOutside(world, r.world, {e.pos})
      && (r.world != world ==>
            e.pos in r.world && r.world[e.pos] in Keys(e.anim.blockFamilyStages) && Resolves(catalog, r.world[e.pos]))
  {
    var r := Step(e, world, catalog, now);
    if r.world != world {
      assert Due(e.anim, now);
    }
  }

  /** Before its dwell has elapsed an entity is left exactly as it is. */
  lemma DwellNotElapsedIsNoop(e: AnimatedBlock, world: map<Pos, BlockId>, catalog: Catalog, now: int)
    requires !Halts(e.anim)
    requires now - e.anim.lastGameTimeCheck <= e.anim.timeInGameMsToNextStage
    ensures Step(e, world, catalog, now) == StepResult(e, world, false, Continue)
  {
  }

  /**
    A running component that was never checked (a freshly attached one, see
    NewComponent) only starts its timer on its first check, and ends the update.
   */
  lemma FirstCheckOnlyArmsTimer(e: AnimatedBlock, world: map<Pos, BlockId>, catalog: Catalog, now: int)
    requires !e.anim.stopped && e.anim.lastGameTimeCheck == Unchecked
    ensures Step(e, world, catalog, now) == StepResult(e.(anim := e.anim.(lastGameTimeCheck := now)), world, false, Return)
  {
  }

  /**
    The stage step from stage `j` (not the last): the block moves to stage
    j + 1, or back to stage 0 when that would be the last stage of a looping
    list; reaching the last stage of a non-looping list stops the entity and
    sends the completion event. The write happens only when the catalog
    resolves the stage, and then the new dwell is the one of stage j, the
    stage being left.
   */
  lemma StageAdvance(e: AnimatedBlock, world: map<Pos, BlockId>, catalog: Catalog, now: int, j: nat)
    requires Due(e.anim, now)
    requires j + 1 < |e.anim.blockFamilyStages|
    requires BlockAt(world, e.pos) == e.anim.blockFamilyStages[j].block
    ensures var stages := e.anim.blockFamilyStages;
      var last := |stages| - 1;
      var n := if j + 1 == last && e.anim.loops then 0 else j + 1;
      var r := Step(e, world, catalog, now);
      && r.end == Continue
      && r.entity.anim.lastGameTimeCheck == now
      && (r.completes <==> j + 1 == last && !e.anim.loops)
      && r.entity.anim.stopped == r.completes
      && (Resolves(catalog, stages[n].block) ==>
            r.world == world[e.pos := stages[n].block] && r.entity.anim.timeInGameMsToNextStage == stages[j].dwellMs)
      && (!Resolves(catalog, stages[n].block) ==>
            r.world == world && r.entity.anim.timeInGameMsToNextStage == e.anim.timeInGameMsToNextStage)
  {
    DwellOfAt(e.anim.blockFamilyStages, j);
  }

  /** On the last stage (or with no stages) there is no next stage: only the check time moves. */
  lemma LastStageIsTerminal(e: AnimatedBlock, world: map<Pos, BlockId>, catalog: Catalog, now: int)
    requires Due(e.anim, now)
    requires var stages := e.anim.blockFamilyStages;
      |stages| == 0 || BlockAt(world, e.pos) == stages[|stages| - 1].block
    ensures Step(e, world, catalog, now) ==
      StepResult(e.(anim := e.anim.(lastGameTimeCheck := now)), world, false, Continue)
  {
    var stages := e.anim.blockFamilyStages;
    if |stages| > 0 {
      DwellOfAt(stages, |stages| - 1);
    }
  }

  /**
    A block that is not one of the stages counts as index -1, so the step moves
    it to the first stage; when that write happens, looking up the dwell of the
    missing block fails and the update ends.
   */
  lemma MissingStageRestarts(e: AnimatedBlock, world: map<Pos, BlockId>, catalog: Catalog, now: int)
    requires Due(e.anim, now)
    requires |e.anim.blockFamilyStages| > 0
    requires BlockAt(world, e.pos) !in Keys(e.anim.blockFamilyStages)
    ensures var first := e.anim.blockFamilyStages[0].block;
      var r := Step(e, world, catalog, now);
      && (r.completes <==> |e.anim.blockFamilyStages| == 1 && !e.anim.loops)
      && (Resolves(catalog, first) ==> r.world == world[e.pos := first] && r.end == Fault)
      && (!Resolves(catalog, first) ==> r.world == world && r.end == Continue)
  {
  }

  /** In a looping list of two or more stages the last stage is never written. */
  lemma LoopingNeverShowsLastStage(e: AnimatedBlock, world: map<Pos, BlockId>, catalog: Catalog, now: int)
    requires e.anim.loops
    requires |e.anim.blockFamilyStages| >= 2
    ensures var stages := e.anim.blockFamilyStages;
      var r := Step(e, world, catalog, now);
      && !r.completes && r.entity.anim.stopped == e.anim.stopped
      && (r.world == world ||
            (e.pos in r.world && r.world == world[e.pos := r.world[e.pos]]
             && r.world[e.pos] != stages[|stages| - 1].block))
  {
    var stages := e.anim.blockFamilyStages;
    var keys := Keys(stages);
    var r := Step(e, world, catalog, now);
    if r.world != world {
      var i := IndexOf(keys, BlockAt(world, e.pos));
      var n := NextStage(i, |keys| - 1, true).index;
      assert r.world[e.pos] == keys[n] == stages[n].block;
      assert n < |stages| - 1;
    }
  }

  // ---------------------------------------------------------------------------
  // Spawning
  // ---------------------------------------------------------------------------

  /**
    onSpawn: the dwell becomes that of the stage the block currently shows, and
    the timer starts at `now`. None when the current block is not a stage (the
    lookup's null fails to unbox and nothing is changed).
   */
  function Spawn(e: AnimatedBlock, world: map<Pos, BlockId>, now: int): (r: Option<AnimatedBlock>)
    ensures r.None? <==> BlockAt(world, e.pos) !in Keys(e.anim.blockFamilyStages)
    ensures r.Some? ==>
      && r.value.pos == e.pos
      && r.value.anim.loops == e.anim.loops
      && r.value.anim.stopped == e.anim.stopped
      && r.value.anim.blockFamilyStages == e.anim.blockFamilyStages
      && r.value.anim.timeInGameMsToNextStage == DwellOf(e.anim.blockFamilyStages, BlockAt(world, e.pos)).value
      && r.value.anim.lastGameTimeCheck == now
  {
    match DwellOf(e.anim.blockFamilyStages, BlockAt(world, e.pos))
    case None => None
    case Some(d) => Some(e.(anim := e.anim.(timeInGameMsToNextStage := d, lastGameTimeCheck := now)))
  }

  /**
    A block spawned showing stage j waits that stage's dwell: no sweep changes
    it until more than stages[j].dwellMs ms have passed since the spawn.
   */
  lemma SpawnedBlockWaitsItsDwell(e: AnimatedBlock, world: map<Pos, BlockId>, catalog: Catalog, spawnTime: int, now: int, j: nat)
    requires j < |e.anim.blockFamilyStages|
    requires BlockAt(world, e.pos) == e.anim.blockFamilyStages[j].block
    requires !e.anim.stopped && spawnTime != Unchecked
    ensures Spawn(e, world, spawnTime).Some?
    ensures var s := Spawn(e, world, spawnTime).value;
      && s.anim.timeInGameMsToNextStage == e.anim.blockFamilyStages[j].dwellMs
      && s.anim.lastGameTimeCheck == spawnTime
      && (now - spawnTime <= e.anim.blockFamilyStages[j].dwellMs ==>
            Step(s, world, catalog, now) == StepResult(s, world, false, Continue))
      && (now - spawnTime > e.anim.blockFamilyStages[j].dwellMs ==> Due(s.anim, now))
  {
    DwellOfAt(e.anim.blockFamilyStages, j);
  }

  // ---------------------------------------------------------------------------
  // The sweep
  // ---------------------------------------------------------------------------

  datatype Sweep = Sweep(
    entities: seq<AnimatedBlock>,
    world: map<Pos, BlockId>,
    completed: seq<nat>,           // indices of the entities sent OnBlockSequenceComplete, in order
    end: StepEnd)

  /**
    `after` is `before` as the animator may leave it: every entity keeps its
    position, loop flag and stages, and a stopped entity stays stopped.
   */
  ghost predicate Keeps(before: seq<AnimatedBlock>, after: seq<AnimatedBlock>)
  {
    && |after| == |before|
    && forall j :: 0 <= j < |before| ==>
         && after[j].pos == before[j].pos
         && after[j].anim.loops == before[j].anim.loops
         && after[j].anim.blockFamilyStages == before[j].anim.blockFamilyStages
         && (before[j].anim.stopped ==> after[j].anim.stopped)
  }

  /** The sweep from entity `i` on, with `completed` the events sent so far. */
  function SweepFrom(entities: seq<AnimatedBlock>, world: map<Pos, BlockId>, completed: seq<nat>,
                     catalog: Catalog, now: int, i: nat): (r: Sweep)
    requires i <= |entities|
    ensures |r.entities| == |entities|
    ensures Keeps(entities, r.entities)
    decreases |entities| - i
  {
    if i == |entities| then Sweep(entities, world, completed, Continue)
    else
      var s := Step(entities[i], world, catalog, now);
      var entities' := entities[i := s.entity];
      var completed' := if s.completes then completed + [i] else completed;
      if s.end == Continue then SweepFrom(entities', s.world, completed', catalog, now, i + 1)
      else Sweep(entities', s.world, completed', s.end)
  }

  /** The positions of entities lo .. hi-1. */
  ghost function PositionsOf(entities: seq<AnimatedBlock>, lo: nat, hi: nat): set<Pos>
    requires lo <= hi <= |entities|
  {
    set j | lo <= j < hi :: entities[j].pos
  }

  /**
    What a sweep keeps: entities before `i` are untouched, and every entity
    keeps its position, loop flag and stages, and is never un-stopped.
   */
  lemma {:induction false} SweepKeeps(entities: seq<AnimatedBlock>, world: map<Pos, BlockId>, completed: seq<nat>,
                                      catalog: Catalog, now: int, i: nat)
    requires i <= |entities|
    ensures var r := SweepFrom(entities, world, completed, catalog, now, i);
      && r.entities[..i] == entities[..i]
      && (forall j :: 0 <= j < |entities| ==>
            && r.entities[j].pos == entities[j].pos
            && r.entities[j].anim.loops == entities[j].anim.loops
            && r.entities[j].anim.blockFamilyStages == entities[j].anim.blockFamilyStages
            && (entities[j].anim.stopped ==> r.entities[j].anim.stopped))
    decreases |entities| - i
  {
    if i < |entities| {
      var s := Step(entities[i], world, catalog, now);
      StepFrame(entities[i], world, catalog, now);
      var entities' := entities[i := s.entity];
      var completed' := if s.completes then completed + [i] else completed;
      assert entities'[..i] == entities[..i];
      if s.end == Continue {
        SweepKeeps(entities', s.world, completed', catalog, now, i + 1);
        assert entities'[..i + 1][..i] == entities[..i];
      }
    }
  }

  /**
    A sweep sends an entity one completion event exactly when it stops the
    entity, and none otherwise.
   */
  lemma {:induction false} SweepCompletions(entities: seq<AnimatedBlock>, world: map<Pos, BlockId>, completed: seq<nat>,
                                            catalog: Catalog, now: int, i: nat, j: nat)
    requires i <= |entities|
    ensures var r := SweepFrom(entities, world, completed, catalog, now, i);
      Occurrences(r.completed, j) == Occurrences(completed, j) +
        (if j < |entities| && !entities[j].anim.stopped && r.entities[j].anim.stopped then 1 else 0)
    decreases |entities| - i
  {
    SweepKeeps(entities, world, completed, catalog, now, i);
    if i < |entities| {
      var s := Step(entities[i], world, catalog, now);
      StepFrame(entities[i], world, catalog, now);
      var entities' := entities[i := s.entity];
      var completed' := if s.completes then completed + [i] else completed;
      if s.completes {
        OccurrencesSnoc(completed, i, j);
      }
      if s.end == Continue {
        SweepCompletions(entities', s.world, completed', catalog, now, i + 1, j);
        SweepKeeps(entities', s.world, completed', catalog, now, i + 1);
      }
    }
  }

  /** A sweep changes the world only at positions of the entities it visits. */
  lemma {:induction false} SweepWorldFrame(entities: seq<AnimatedBlock>, world: map<Pos, BlockId>, completed: seq<nat>,
                                           catalog: Catalog, now: int, i: nat)
    requires i <= |entities|
    ensures var r := SweepFrom(entities, world, completed, catalog, now, i);
      AgreeOutside(world, r.world, PositionsOf(entities, i, |entities|))
    decreases |entities| - i
  {
    if i < |entities| {
      var s := Step(entities[i], world, catalog, now);
      StepFrame(entities[i], world, catalog, now);
      var entities' := entities[i := s.entity];
      var completed' := if s.completes then completed + [i] else completed;
      if s.end == Continue {
        SweepWorldFrame(entities', s.world, completed', catalog, now, i + 1);
        assert PositionsOf(entities', i + 1, |entities|) + {entities[i].pos} <= PositionsOf(entities, i, |entities|);
      } else {
        assert entities[i].pos in PositionsOf(entities, i, |entities|);
      }
    }
  }

  /** Entities lo .. |entities|-1 sit at pairwise distinct positions. */
  ghost predicate DistinctPositions(entities: seq<AnimatedBlock>, lo: nat)
  {
    forall j, k :: lo <= j < k < |entities| ==> entities[j].pos != entities[k].pos
  }

  /** Each of entities lo .. |entities|-1 shows one of its own stages. */
  ghost predicate OnStage(entities: seq<AnimatedBlock>, world: map<Pos, BlockId>, lo: nat)
  {
    forall j :: lo <= j < |entities| ==> BlockAt(world, entities[j].pos) in Keys(entities[j].anim.blockFamilyStages)
  }

  /** A running, checked entity that shows one of its stages lets the sweep go on, and changes the world only at its own position. */
  lemma OnStageStepContinues(e: AnimatedBlock, world: map<Pos, BlockId>, catalog: Catalog, now: int)
    requires !Halts(e.anim) && BlockAt(world, e.pos) in Keys(e.anim.blockFamilyStages)
    ensures var r := Step(e, world, catalog, now);
      r.end == Continue && forall p :: p != e.pos ==> BlockAt(r.world, p) == BlockAt(world, p)
  {
  }

  /**
    For entities at distinct positions that each show one of their stages, the
    sweep reaches the end of the entities exactly when none of them is stopped
    or unchecked.
   */
  lemma {:induction false} SweepFinishes(entities: seq<AnimatedBlock>, world: map<Pos, BlockId>, completed: seq<nat>,
                                         catalog: Catalog, now: int, i: nat)
    requires i <= |entities|
    requires DistinctPositions(entities, i) && OnStage(entities, world, i)
    ensures SweepFrom(entities, world, completed, catalog, now, i).end == Continue <==>
      forall j :: i <= j < |entities| ==> !Halts(entities[j].anim)
    decreases |entities| - i
  {
    if i < |entities| && !Halts(entities[i].anim) {
      var s := Step(entities[i], world, catalog, now);
      OnStageStepContinues(entities[i], world, catalog, now);
      var entities' := entities[i := s.entity];
      var completed' := if s.completes then completed + [i] else completed;
      assert forall j :: i + 1 <= j < |entities| ==> entities'[j] == entities[j];
      SweepFinishes(entities', s.world, completed', catalog, now, i + 1);
    }
  }

  /**
    A stopped or never-checked entity k ends every sweep that starts at or
    before it: the update does not finish, entities after k are untouched,
    entity k at most gets its timer started, and the world changes only at
    positions of entities before k.
   */
  lemma {:induction false} HaltingEntityEndsSweep(entities: seq<AnimatedBlock>, world: map<Pos, BlockId>, completed: seq<nat>,
                                                  catalog: Catalog, now: int, i: nat, k: nat)
    requires i <= k < |entities|
    requires Halts(entities[k].anim)
    ensures var r := SweepFrom(entities, world, completed, catalog, now, i);
      && r.end != Continue
      && r.entities[k + 1..] == entities[k + 1..]
      && (entities[k].anim.stopped ==> r.entities[k] == entities[k])
      && (r.entities[k] == entities[k] ||
            r.entities[k] == entities[k].(anim := entities[k].anim.(lastGameTimeCheck := now)))
      && AgreeOutside(world, r.world, PositionsOf(entities, i, k))
    decreases k - i
  {
    var s := Step(entities[i], world, catalog, now);
    StepFrame(entities[i], world, catalog, now);
    var entities' := entities[i := s.entity];
    var completed' := if s.completes then completed + [i] else completed;
    if i < k {
      if s.end == Continue {
        HaltingEntityEndsSweep(entities', s.world, completed', catalog, now, i + 1, k);
        assert PositionsOf(entities', i + 1, k) + {entities[i].pos} <= PositionsOf(entities, i, k);
      } else {
        assert entities[i].pos in PositionsOf(entities, i, k);
      }
    }
  }

  // ---------------------------------------------------------------------------
  // The update
  // ---------------------------------------------------------------------------

  /** The system's own field together with the engine state the update reads and writes. */
  datatype AnimatorState = AnimatorState(lastCheckTime: int, entities: seq<AnimatedBlock>, world: map<Pos, BlockId>)

  datatype UpdateResult = UpdateResult(state: AnimatorState, completed: seq<nat>)

  /**
    update at game time `now`: nothing happens unless more than CheckInterval
    ms have passed since the last finished sweep; lastCheckTime moves to `now`
    only when the sweep reaches the end of the entities.
   */
  function UpdateState(s: AnimatorState, catalog: Catalog, now: int): (t: UpdateResult)
    ensures !(s.lastCheckTime + CheckInterval < now) ==> t == UpdateResult(s, [])
    ensures t.state.lastCheckTime == s.lastCheckTime || t.state.lastCheckTime == now
    ensures |t.state.entities| == |s.entities|
    ensures Keeps(s.entities, t.state.entities)
  {
    if s.lastCheckTime + CheckInterval < now then
      var r := SweepFrom(s.entities, s.world, [], catalog, now, 0);
      UpdateResult(AnimatorState(if r.end == Continue then now else s.lastCheckTime, r.entities, r.world), r.completed)
    else UpdateResult(s, [])
  }

  /** A stopped or never-checked entity keeps the update from finishing: lastCheckTime stays, later entities are untouched. */
  lemma HaltingEntityFreezesUpdate(s: AnimatorState, catalog: Catalog, now: int, k: nat)
    requires k < |s.entities| && Halts(s.entities[k].anim)
    ensures var t := UpdateState(s, catalog, now);
      && t.state.lastCheckTime == s.lastCheckTime
      && t.state.entities[k + 1..] == s.entities[k + 1..]
      && (s.entities[k].anim.stopped ==> t.state.entities[k] == s.entities[k])
      && AgreeOutside(s.world, t.state.world, PositionsOf(s.entities, 0, k))
  {
    if s.lastCheckTime + CheckInterval < now {
      HaltingEntityEndsSweep(s.entities, s.world, [], catalog, now, 0, k);
    }
  }

  /**
    When the throttle lets the update through, for entities at distinct
    positions that each show one of their stages: lastCheckTime becomes `now`
    exactly when no entity is stopped or unchecked.
   */
  lemma FinishedUpdateMovesClock(s: AnimatorState, catalog: Catalog, now: int)
    requires s.lastCheckTime + CheckInterval < now
    requires DistinctPositions(s.entities, 0) && OnStage(s.entities, s.world, 0)
    ensures UpdateState(s, catalog, now).state.lastCheckTime == now <==>
      forall j :: 0 <= j < |s.entities| ==> !Halts(s.entities[j].anim)
  {
    SweepFinishes(s.entities, s.world, [], catalog, now, 0);
  }

  /** An update's effect on each entity: position, loop flag and stages kept, stop never undone, one event per entity it stops. */
  lemma UpdateFrame(s: AnimatorState, catalog: Catalog, now: int, t: UpdateResult)
    requires t == UpdateState(s, catalog, now)
    ensures
      && (forall j :: 0 <= j < |s.entities| ==>
            && t.state.entities[j].pos == s.entities[j].pos
            && t.state.entities[j].anim.loops == s.entities[j].anim.loops
            && t.state.entities[j].anim.blockFamilyStages == s.entities[j].anim.blockFamilyStages
            && (s.entities[j].anim.stopped ==> t.state.entities[j].anim.stopped))
      && (forall j: nat :: Occurrences(t.completed, j) ==
            (if j < |s.entities| && !s.entities[j].anim.stopped && t.state.entities[j].anim.stopped then 1 else 0))
  {
    if s.lastCheckTime + CheckInterval < now {
      SweepKeeps(s.entities, s.world, [], catalog, now, 0);
      forall j: nat
        ensures Occurrences(t.completed, j) ==
          (if j < |s.entities| && !s.entities[j].anim.stopped && t.state.entities[j].anim.stopped then 1 else 0)
      {
        SweepCompletions(s.entities, s.world, [], catalog, now, 0, j);
      }
    }
  }

  /** Successive updates at the game times in `clock`, with all the completion events they send. */
  function Run(s: AnimatorState, catalog: Catalog, clock: seq<int>): (t: UpdateResult)
    ensures |t.state.entities| == |s.entities|
    ensures Keeps(s.entities, t.state.entities)
    decreases |clock|
  {
    if clock == [] then UpdateResult(s, [])
    else
      var first := UpdateState(s, catalog, clock[0]);
      var rest := Run(first.state, catalog, clock[1..]);
      UpdateResult(rest.state, first.completed + rest.completed)
  }

  /**
    Over any run, an entity receives exactly one OnBlockSequenceComplete if the
    run stops it and none otherwise; a stopped entity stays stopped.
   */
  lemma {:induction false} CompletionSentOnce(s: AnimatorState, catalog: Catalog, clock: seq<int>, k: nat)
    requires k < |s.entities|
    ensures var t := Run(s, catalog, clock);
      && (s.entities[k].anim.stopped ==> t.state.entities[k].anim.stopped)
      && Occurrences(t.completed, k) == if !s.entities[k].anim.stopped && t.state.entities[k].anim.stopped then 1 else 0
    decreases |clock|
  {
    if clock != [] {
      var first := UpdateState(s, catalog, clock[0]);
      var rest := Run(first.state, catalog, clock[1..]);
      UpdateFrame(s, catalog, clock[0], first);
      CompletionSentOnce(first.state, catalog, clock[1..], k);
      OccurrencesAppend(first.completed, rest.completed, k);
    }
  }

  /**
    Once entity k is stopped, no later update touches it or any entity after
    it, no update finishes (so lastCheckTime never moves again), and the world
    changes only at positions of entities before k.
   */
  lemma {:induction false} StoppedEntityFreezesRun(s: AnimatorState, catalog: Catalog, clock: seq<int>, k: nat)
    requires k < |s.entities| && s.entities[k].anim.stopped
    ensures var t := Run(s, catalog, clock);
      && t.state.lastCheckTime == s.lastCheckTime
      && t.state.entities[k..] == s.entities[k..]
      && AgreeOutside(s.world, t.state.world, PositionsOf(s.entities, 0, k))
    decreases |clock|
  {
    if clock != [] {
      var first := UpdateState(s, catalog, clock[0]);
      HaltingEntityFreezesUpdate(s, catalog, clock[0], k);
      UpdateFrame(s, catalog, clock[0], first);
      assert first.state.entities[k] == s.entities[k];
      StoppedEntityFreezesRun(first.state, catalog, clock[1..], k);
      assert PositionsOf(first.state.entities, 0, k) == PositionsOf(s.entities, 0, k);
    }
  }

  // ---------------------------------------------------------------------------
  // The system object
  // ---------------------------------------------------------------------------

  class ChangingBlocksSystem {
    /** Game time of the last sweep that reached the end of the entities. */
    var lastCheckTime: int

    constructor ()
      ensures lastCheckTime == 0
    {
      lastCheckTime := 0;
    }

    /** onSpawn for `entities[i]`; `ok` is false when the lookup of the current block's dwell fails. */
    method OnSpawn(now: int, entities: array<AnimatedBlock>, i: nat, world: World) returns (ok: bool)
      requires i < entities.Length
      modifies entities
      ensures var r := Spawn(old(entities[i]), world.blocks, now);
        && ok == r.Some?
        && entities[..] == if ok then old(entities[..])[i := r.value] else old(entities[..])
    {
      var entity := entities[i];
      var current := world.GetBlock(entity.pos);
      var dwell := DwellOf(entity.anim.blockFamilyStages, current);
      if dwell.None? {
        return false;
      }
      entities[i] := entity.(anim := entity.anim.(timeInGameMsToNextStage := dwell.value, lastGameTimeCheck := now));
      ok := true;
    }

    /**
      The body of update's loop for `entities[i]`: the component is changed in
      place and the world written through setBlock. `end` says whether the
      loop goes on, returns, or is ended by the failed dwell lookup;
      `completes` whether OnBlockSequenceComplete was sent.
     */
    method StepEntity(now: int, entities: array<AnimatedBlock>, i: nat, world: World, catalog: Catalog)
      returns (end: StepEnd, completes: bool)
      requires i < entities.Length
      modifies entities, world
      ensures var r := Step(old(entities[i]), old(world.blocks), catalog, now);
        && entities[..] == old(entities[..])[i := r.entity]
        && world.blocks == r.world
        && end == r.end
        && completes == r.completes
    {
      var entity := entities[i];
      var animation := entity.anim;
      completes := false;
      if animation.stopped {
        return Return, false;
      }
      if animation.lastGameTimeCheck == Unchecked {
        entities[i] := entity.(anim := animation.(lastGameTimeCheck := now));
        return Return, false;
      }
      end := Continue;
      if now - animation.lastGameTimeCheck > animation.timeInGameMsToNextStage {
        animation := animation.(lastGameTimeCheck := now);
        var current := world.GetBlock(entity.pos);
        var keys := Keys(animation.blockFamilyStages);
        var index := IndexOf(keys, current);
        var lastIndex := |keys| - 1;
        if lastIndex > index {
          index := index + 1;
          if index == lastIndex {
            if animation.loops {
              index := 0;
            } else {
              animation := animation.(stopped := true);
              completes := true;
            }
          }
          var newUri := keys[index];
          if newUri in catalog && catalog[newUri] == newUri {
            world.SetBlock(entity.pos, newUri);
            var dwell := DwellOf(animation.blockFamilyStages, current);
            if dwell.None? {
              entities[i] := entity.(anim := animation);
              return Fault, completes;
            }
            animation := animation.(timeInGameMsToNextStage := dwell.value);
          }
        }
        entities[i] := entity.(anim := animation);
      }
    }

    /**
      update: one sweep over `entities` (the entity manager's animated blocks,
      whose components are changed in place) at game time `now`. `completed`
      lists the entities sent OnBlockSequenceComplete.
     */
    method Update(now: int, entities: array<AnimatedBlock>, world: World, catalog: Catalog) returns (completed: seq<nat>)
      modifies this, entities, world
      ensures var t := UpdateState(AnimatorState(old(lastCheckTime), old(entities[..]), old(world.blocks)), catalog, now);
        && lastCheckTime == t.state.lastCheckTime
        && entities[..] == t.state.entities
        && world.blocks == t.state.world
        && completed == t.completed
    {
      completed := [];
      if lastCheckTime + CheckInterval < now {
        var i: nat := 0;
        while i < entities.Length
          invariant i <= entities.Length
          invariant lastCheckTime == old(lastCheckTime)
          invariant SweepFrom(entities[..], world.blocks, completed, catalog, now, i)
                 == SweepFrom(old(entities[..]), old(world.blocks), [], catalog, now, 0)
        {
          var end, completes := StepEntity(now, entities, i, world, catalog);
          if completes {
            completed := completed + [i];
          }
          if end != Continue {
            return;
          }
          i := i + 1;
        }
        lastCheckTime := now;
      }
    }
  }
}
