/**
  Worked examples: concrete runs of both engines, stated as lemmas over the
  specification functions.
 */
module Scenarios {
  import opened Engine
  import opened AnimationComponent
  import opened AnimationSystem
  import opened BlockConditions
  import CS = ConditionalSystem

  /**
    Two stages of 500 ms, not looping, spawned at t = 0 showing stageA, with
    the system's lastCheckTime still 0. Updates at 400 and 600 ms do nothing,
    because the first sweep needs more than 1000 ms since lastCheckTime; the
    update at 1001 ms moves the block to stageB, which is the last stage, so the
    entity stops and gets its one completion event.
   */
  lemma TwoStageSequence()
    ensures var stages: StageList := [Stage("stageA", 500), Stage("stageB", 500)];
      var pos := Pos(0, 0, 0);
      var world := map[pos := "stageA"];
      var catalog := map["stageA" := "stageA", "stageB" := "stageB"];
      var spawned := Spawn(AnimatedBlock(pos, NewComponent(false, stages)), world, 0);
      && spawned.Some?
      && var s := AnimatorState(0, [spawned.value], world);
      && UpdateState(s, catalog, 400) == UpdateResult(s, [])
      && UpdateState(s, catalog, 600) == UpdateResult(s, [])
      && var t := Run(s, catalog, [400, 600, 1001]);
      && t.completed == [0]
      && t.state.lastCheckTime == 1001
      && t.state.world == map[pos := "stageB"]
      && t.state.entities[0].anim.stopped
      && t.state.entities[0].anim.timeInGameMsToNextStage == 500
  {
    var stages: StageList := [Stage("stageA", 500), Stage("stageB", 500)];
    var pos := Pos(0, 0, 0);
    var world := map[pos := "stageA"];
    var catalog := map["stageA" := "stageA", "stageB" := "stageB"];
    var e := AnimatedBlock(pos, NewComponent(false, stages));
    SpawnedBlockWaitsItsDwell(e, world, catalog, 0, 1001, 0);
    var spawned := Spawn(e, world, 0).value;
    StageAdvance(spawned, world, catalog, 1001, 0);
    var s := AnimatorState(0, [spawned], world);
    assert Run(s, catalog, [400, 600, 1001]) == Run(s, catalog, [1001]);
  }

  /**
    The throttle counts from the last sweep that reached the end of the
    entities. Entity 0 has three stages of dwell 0 and shows the first; entity
    1 is stopped, so every sweep returns there and lastCheckTime stays 0. The
    update at 1001 ms moves entity 0 to stageB; the update at 1002 ms, one
    millisecond later, sweeps again and moves it to stageC, its last stage.
   */
  lemma SweepRepeatsBehindStoppedEntity()
    ensures var stages: StageList := [Stage("stageA", 0), Stage("stageB", 0), Stage("stageC", 0)];
      var p0 := Pos(0, 0, 0);
      var p1 := Pos(1, 0, 0);
      var e0 := AnimatedBlock(p0, ChangingBlocksComponent(false, false, stages, 0, 0));
      var e1 := AnimatedBlock(p1, ChangingBlocksComponent(false, true, [], 0, 0));
      var world := map[p0 := "stageA", p1 := "core:stone"];
      var catalog := map["stageA" := "stageA", "stageB" := "stageB", "stageC" := "stageC"];
      var s := AnimatorState(0, [e0, e1], world);
      var first := UpdateState(s, catalog, 1001);
      var t := Run(s, catalog, [1001, 1002]);
      && first.state.lastCheckTime == 0
      && first.state.world == world[p0 := "stageB"]
      && t.state.lastCheckTime == 0
      && t.state.world == world[p0 := "stageC"]
      && t.completed == [0]
  {
    var stages: StageList := [Stage("stageA", 0), Stage("stageB", 0), Stage("stageC", 0)];
    var p0 := Pos(0, 0, 0);
    var p1 := Pos(1, 0, 0);
    var e0 := AnimatedBlock(p0, ChangingBlocksComponent(false, false, stages, 0, 0));
    var e1 := AnimatedBlock(p1, ChangingBlocksComponent(false, true, [], 0, 0));
    var world := map[p0 := "stageA", p1 := "core:stone"];
    var catalog := map["stageA" := "stageA", "stageB" := "stageB", "stageC" := "stageC"];
    var s := AnimatorState(0, [e0, e1], world);
    StageAdvance(e0, world, catalog, 1001, 0);
    var r0 := Step(e0, world, catalog, 1001);
    SweepEndsAtSecond(e0, e1, world, catalog, 1001);
    var first := UpdateState(s, catalog, 1001);
    assert first.state == AnimatorState(0, [r0.entity, e1], r0.world);
    StageAdvance(r0.entity, r0.world, catalog, 1002, 1);
    SweepEndsAtSecond(r0.entity, e1, r0.world, catalog, 1002);
  }

  /** A sweep over two entities, the second stopped, ends there once the first has taken its step. */
  lemma SweepEndsAtSecond(e0: AnimatedBlock, e1: AnimatedBlock, world: map<Pos, BlockId>, catalog: Catalog, now: int)
    requires e1.anim.stopped
    requires Step(e0, world, catalog, now).end == Continue
    ensures var r := Step(e0, world, catalog, now);
      SweepFrom([e0, e1], world, [], catalog, now, 0) ==
        Sweep([r.entity, e1], r.world, if r.completes then [0] else [], Return)
  {
    var r := Step(e0, world, catalog, now);
    assert [e0, e1][0 := r.entity] == [r.entity, e1];
    assert [] + [0] == [0];
  }

  /**
    A BlockNearby rule listening for "water" within 3 blocks with chance 1.0,
    on a holder at the origin; water appears at distance 2 with a clear line:
    the holder's block is replaced and one draw is taken.
   */
  lemma WaterNearby(random: CS.Stream, world: map<Pos, BlockId>)
    requires CS.UnitDraws(random)
    ensures var rule := BlockNearby(1.0, "core:mud", "water", 0.0, 3.0, false, false);
      var holder := CS.Holder(Pos(0, 0, 0), [rule], [], [], []);
      var sense := (id: CS.EntityId, r: BlockCondition) => CS.Sensing(2.0, false, 0.0, true);
      var t := CS.Trigger("water", true, sense, random, map["core:mud" := "core:mud"]);
      CS.VisitAll([7], map[7 := holder], t, CS.Effects(world, 0))
        == CS.Effects(world[Pos(0, 0, 0) := "core:mud"], 1)
  {
    var rule := BlockNearby(1.0, "core:mud", "water", 0.0, 3.0, false, false);
    var sense := (id: CS.EntityId, r: BlockCondition) => CS.Sensing(2.0, false, 0.0, true);
    var holder := CS.Holder(Pos(0, 0, 0), [rule], [], [], []);
    var t := CS.Trigger("water", true, sense, random, map["core:mud" := "core:mud"]);
    var st := CS.Effects(world, 0);
    CS.CertainRuleFires(rule, sense(7, rule), random, 0);
    CS.DrawAccounting(rule, sense(7, rule), random, 0);
    var after := CS.Effects(world[Pos(0, 0, 0) := "core:mud"], 1);
    assert CS.ApplyRule(7, holder.pos, rule, t, st) == after;
    assert CS.FamilyRules(holder, true) == [rule];
    assert CS.VisitHolder(7, holder, t, st) == CS.ApplyRules(7, holder.pos, [rule], t, st);
    assert CS.ApplyRules(7, holder.pos, [rule], t, st) == CS.ApplyRules(7, holder.pos, [], t, after);
  }

  /** Two holders registered under "water" are kept in order; removing the first leaves the second. */
  lemma RegisterThenRemove(a: CS.EntityId, b: CS.EntityId)
    requires a != b
    ensures var m := CS.Registered(CS.Registered(map[], "water", a), "water", b);
      && m["water"] == [a, b]
      && CS.Removed(m, a) == map["water" := [b]]
  {
    var m := CS.Registered(CS.Registered(map[], "water", a), "water", b);
    assert m["water"] == [a, b];
    assert CS.RemoveFirst([a, b], a) == [b];
  }
}
