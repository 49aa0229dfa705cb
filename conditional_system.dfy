/**
  ConditionalBlocksSystem: the conditional trigger engine. A registry maps each
  trigger key (a block URI, or one of the entity categories "item", "npc",
  "player") to the block entities holding rules that name it. When a block
  changes or an entity moves, the holders registered under the key are visited
  and each matching rule runs its gate chain (adjacency shortcut, distance
  range, side and field of view, occlusion, chance); a rule that passes
  replaces the holder's block with its blockToBecome.

  Geometry, ray casting and the random generator are outside the model: for
  each trigger a Sensor reports, per holder and rule, the distance, whether the
  trigger lies on the rule's side, the angle to that side's face and whether
  the ray from the holder first hits the causing entity; the random generator
  is a fixed stream of floats consumed in order.
 */
module ConditionalSystem {
  import opened Engine
  import opened BlockConditions

  /** An entity reference. */
  type EntityId = nat

  /**
    A block entity with conditional behaviour: its position and the rule list
    of each of its ChangeBlock*Component components (empty when absent).
   */
  datatype Holder = Holder(
    pos: Pos,
    blockNearby: seq<BlockNearbyRule>,
    blockDirected: seq<BlockDirectedRule>,
    entityNearby: seq<EntityNearbyRule>,
    entityDirected: seq<EntityDirectedRule>)

  /** The rules a trigger of the given family consults, in the order they are visited. */
  function FamilyRules(h: Holder, isBlock: bool): (rules: seq<BlockCondition>)
    ensures forall r :: r in rules ==> r.IsBlockTriggered() == isBlock
  {
    if isBlock then h.blockNearby + h.blockDirected else h.entityNearby + h.entityDirected
  }

  /** What geometry and physics report for one rule of one holder. */
  datatype Sensing = Sensing(distance: real, sideMatches: bool, angle: real, rayHitsCause: bool)

  /** The geometry of one trigger, as seen by each holder and rule. */
  type Sensor = (EntityId, BlockCondition) -> Sensing

  /** The random floats, in the order the generator yields them. */
  type Stream = nat -> real

  /** Everything one checkLocational call reads besides the registry and the holders. */
  datatype Trigger = Trigger(name: string, isBlock: bool, sense: Sensor, random: Stream, catalog: Catalog)

  // ---------------------------------------------------------------------------
  // The gate chain of one rule
  // ---------------------------------------------------------------------------

  /** The outcome of a rule's gate chain: whether it fires and how many random draws it took. */
  datatype Decision = Decision(fires: bool, draws: nat)

  predicate InRange(r: BlockCondition, distance: real)
  {
    r.minDistance <= distance && distance <= r.maxDistance
  }

  predicate Unobstructed(r: BlockCondition, s: Sensing)
  {
    r.throughWalls || s.rayHitsCause
  }

  /** The probability gate against draw number k. */
  predicate Lucky(r: BlockCondition, random: Stream, k: nat)
  {
    r.chance >= random(k)
  }

  /** The adjacency shortcut of a BlockNearby rule applies. */
  predicate Adjacent(r: BlockCondition, s: Sensing)
  {
    r.BlockNearby? && r.adjacent && s.distance < 2.0
  }

  /** The last gate: take draw k and compare it with the chance. */
  function Draw(r: BlockCondition, random: Stream, k: nat): (d: Decision)
    ensures d.draws == 1
  {
    Decision(Lucky(r, random, k), 1)
  }

  /** The gate chain of one rule whose trigger matched, with draw number k next. */
  function Decide(r: BlockCondition, s: Sensing, random: Stream, k: nat): (d: Decision)
    ensures d.fires ==> Gates(r, s) || Adjacent(r, s)
    ensures d.fires ==> 1 <= d.draws
    ensures d.draws <= 2 && (d.draws == 2 ==> Adjacent(r, s))
  {
    match r
    case BlockNearby(_, _, _, _, _, _, _) =>
      if Adjacent(r, s) && Lucky(r, random, k) then Decision(true, 1)
      else
        var used := if Adjacent(r, s) then 1 else 0;
        if InRange(r, s.distance) && Unobstructed(r, s) then
          var d := Draw(r, random, k + used);
          Decision(d.fires, used + 1)
        else Decision(false, used)
    case EntityNearby(_, _, _, _, _, _) =>
      if InRange(r, s.distance) then
        if Unobstructed(r, s) then Draw(r, random, k) else Decision(false, 0)
      else Decision(false, 0)
    case _ =>
      if InRange(r, s.distance) then
        if s.sideMatches then
          if s.angle <= r.fieldOfView then
            if Unobstructed(r, s) then Draw(r, random, k) else Decision(false, 0)
          else Decision(false, 0)
        else Decision(false, 0)
      else Decision(false, 0)
  }

  /** Every deterministic gate, as one conjunction: range, side and field of view for directed rules, occlusion. */
  predicate Gates(r: BlockCondition, s: Sensing)
  {
    && InRange(r, s.distance)
    && (r.IsDirected() ==> s.sideMatches && s.angle <= r.fieldOfView)
    && Unobstructed(r, s)
  }

  /**
    Outside the adjacency shortcut a rule fires exactly when every gate passes
    and the draw is at most its chance; it takes one draw when the gates pass
    and none otherwise.
   */
  lemma GateChain(r: BlockCondition, s: Sensing, random: Stream, k: nat)
    requires !Adjacent(r, s)
    ensures Decide(r, s, random, k) == Decision(Gates(r, s) && Lucky(r, random, k), if Gates(r, s) then 1 else 0)
  {
  }

  /**
    The adjacency shortcut: a BlockNearby rule with `adjacent` set and a
    trigger closer than 2 takes one draw and fires when it wins, whatever the
    range and occlusion say; when it loses, the rule falls through to the range
    path, which may take a second draw.
   */
  lemma AdjacentShortcut(r: BlockCondition, s: Sensing, random: Stream, k: nat)
    requires Adjacent(r, s)
    ensures Decide(r, s, random, k) ==
      if Lucky(r, random, k) then Decision(true, 1)
      else Decision(Gates(r, s) && Lucky(r, random, k + 1), if Gates(r, s) then 2 else 1)
  {
  }

  /** A rule takes at most two draws, two only through a lost adjacency shortcut, and none when it does not reach a chance gate. */
  lemma DrawAccounting(r: BlockCondition, s: Sensing, random: Stream, k: nat)
    ensures var d := Decide(r, s, random, k);
      && d.draws <= 2
      && (d.draws == 2 ==> Adjacent(r, s) && !Lucky(r, random, k) && Gates(r, s))
      && (d.draws == 0 <==> !Adjacent(r, s) && !Gates(r, s))
      && (d.fires ==> d.draws >= 1)
  {
    if Adjacent(r, s) {
      AdjacentShortcut(r, s, random, k);
    } else {
      GateChain(r, s, random, k);
    }
  }

  /** Draws lie in [0, 1), as the generator's nextFloat promises. */
  ghost predicate UnitDraws(random: Stream)
  {
    forall n :: 0.0 <= random(n) < 1.0
  }

  /** A rule with chance 1.0 fires whenever its gates (or its adjacency shortcut) pass. */
  lemma CertainRuleFires(r: BlockCondition, s: Sensing, random: Stream, k: nat)
    requires UnitDraws(random) && r.chance >= 1.0
    requires Gates(r, s) || Adjacent(r, s)
    ensures Decide(r, s, random, k).fires
  {
    assert random(k) < 1.0;
    if Adjacent(r, s) {
      AdjacentShortcut(r, s, random, k);
    } else {
      GateChain(r, s, random, k);
    }
  }

  /**
    The chance test is `chance >= draw`, so a rule with chance 0.0 still fires
    when a draw is exactly 0.0, and only then.
   */
  lemma ZeroChanceFiresOnlyOnZeroDraw(r: BlockCondition, s: Sensing, random: Stream, k: nat)
    requires UnitDraws(random) && r.chance == 0.0
    ensures Decide(r, s, random, k).fires ==> random(k) == 0.0 || random(k + 1) == 0.0
    ensures Gates(r, s) && !Adjacent(r, s) && random(k) == 0.0 ==> Decide(r, s, random, k).fires
  {
    assert 0.0 <= random(k) && 0.0 <= random(k + 1);
    if Adjacent(r, s) {
      AdjacentShortcut(r, s, random, k);
    } else {
      GateChain(r, s, random, k);
    }
  }

  /** A nearby rule with default fields fires exactly for triggers within [0, 1.5] that the ray reaches. */
  lemma DefaultNearbyRules(trigger: string, target: BlockId, s: Sensing, random: Stream, k: nat)
    requires UnitDraws(random)
    ensures Decide(DefaultBlockNearby(trigger, target), s, random, k).fires <==>
      0.0 <= s.distance <= 1.5 && s.rayHitsCause
    ensures Decide(DefaultEntityNearby(trigger, target), s, random, k).fires <==>
      0.0 <= s.distance <= 1.5 && s.rayHitsCause
  {
    assert random(k) < 1.0;
    GateChain(DefaultBlockNearby(trigger, target), s, random, k);
    GateChain(DefaultEntityNearby(trigger, target), s, random, k);
  }

  /**
    A directed rule with default fields fires exactly for triggers within
    [0, 1] on its side, at angle at most 0 from the face, that the ray reaches.
   */
  lemma DefaultDirectedRules(trigger: string, target: BlockId, side: Side, s: Sensing, random: Stream, k: nat)
    requires UnitDraws(random)
    ensures Decide(DefaultBlockDirected(trigger, target, side), s, random, k).fires <==>
      0.0 <= s.distance <= 1.0 && s.sideMatches && s.angle <= 0.0 && s.rayHitsCause
    ensures Decide(DefaultEntityDirected(trigger, target, side), s, random, k).fires <==>
      0.0 <= s.distance <= 1.0 && s.sideMatches && s.angle <= 0.0 && s.rayHitsCause
  {
    assert random(k) < 1.0;
    GateChain(DefaultBlockDirected(trigger, target, side), s, random, k);
    GateChain(DefaultEntityDirected(trigger, target, side), s, random, k);
  }

  // ---------------------------------------------------------------------------
  // Rules, holders and a whole trigger
  // ---------------------------------------------------------------------------

  /** The world and the number of draws taken so far. */
  datatype Effects = Effects(world: map<Pos, BlockId>, drawn: nat)

  /** setBlock(pos, getBlock(target)); a target the catalog does not know is not written. */
  function Become(world: map<Pos, BlockId>, pos: Pos, target: BlockId, catalog: Catalog): (w: map<Pos, BlockId>)
    ensures AgreeOutside(world, w, {pos})
    ensures WritesFromCatalog(world, w, catalog)
    ensures target in catalog ==> w == world[pos := catalog[target]]
    ensures target !in catalog ==> w == world
  {
    if target in catalog then world[pos := catalog[target]] else world
  }

  /** One rule of holder `id` at `pos`: only a rule whose trigger equals the key (exactly) is evaluated. */
  function ApplyRule(id: EntityId, pos: Pos, r: BlockCondition, t: Trigger, st: Effects): (e: Effects)
    ensures r.Trigger() != t.name ==> e == st
    ensures st.drawn <= e.drawn <= st.drawn + 2
    ensures r.Trigger() == t.name ==> e.drawn == st.drawn + Decide(r, t.sense(id, r), t.random, st.drawn).draws
    ensures !Decide(r, t.sense(id, r), t.random, st.drawn).fires ==> e.world == st.world
    ensures AgreeOutside(st.world, e.world, {pos})
    ensures WritesFromCatalog(st.world, e.world, t.catalog)
  {
    if r.Trigger() != t.name then st
    else
      var d := Decide(r, t.sense(id, r), t.random, st.drawn);
      Effects(if d.fires then Become(st.world, pos, r.blockToBecome, t.catalog) else st.world, st.drawn + d.draws)
  }

  /** The rules in order. */
  function ApplyRules(id: EntityId, pos: Pos, rules: seq<BlockCondition>, t: Trigger, st: Effects): (e: Effects)
    ensures st.drawn <= e.drawn <= st.drawn + 2 * |rules|
    decreases |rules|
  {
    if rules == [] then st else ApplyRules(id, pos, rules[1..], t, ApplyRule(id, pos, rules[0], t, st))
  }

  /** One holder: its nearby rules, then its directed rules, of the trigger's family. */
  function VisitHolder(id: EntityId, h: Holder, t: Trigger, st: Effects): (e: Effects)
    ensures FamilyRules(h, t.isBlock) == [] ==> e == st
    ensures st.drawn <= e.drawn
  {
    ApplyRules(id, h.pos, FamilyRules(h, t.isBlock), t, st)
  }

  /** checkLocational over the holders `ids`; an entity with no rule components does nothing. */
  function VisitAll(ids: seq<EntityId>, store: map<EntityId, Holder>, t: Trigger, st: Effects): (e: Effects)
    ensures (forall i :: 0 <= i < |ids| ==> ids[i] !in store) ==> e == st
    ensures st.drawn <= e.drawn
    decreases |ids|
  {
    if ids == [] then st
    else VisitAll(ids[1..], store, t, if ids[0] in store then VisitHolder(ids[0], store[ids[0]], t, st) else st)
  }

  lemma {:induction false} ApplyRulesAppend(id: EntityId, pos: Pos, a: seq<BlockCondition>, b: seq<BlockCondition>, t: Trigger, st: Effects)
    ensures ApplyRules(id, pos, a + b, t, st) == ApplyRules(id, pos, b, t, ApplyRules(id, pos, a, t, st))
    decreases |a|
  {
    if a == [] {
      assert a + b == b;
    } else {
      assert (a + b)[0] == a[0];
      assert (a + b)[1..] == a[1..] + b;
      ApplyRulesAppend(id, pos, a[1..], b, t, ApplyRule(id, pos, a[0], t, st));
    }
  }

  /** The positions of the holders among `ids`. */
  ghost function HolderPositions(ids: seq<EntityId>, store: map<EntityId, Holder>): set<Pos>
  {
    set i | 0 <= i < |ids| && ids[i] in store :: store[ids[i]].pos
  }

  /** Every block written is the catalog's block for some target. */
  ghost predicate WritesFromCatalog(before: map<Pos, BlockId>, after: map<Pos, BlockId>, catalog: Catalog)
  {
    forall p :: p in after && Get(before, p) != Get(after, p) ==> after[p] in catalog.Values
  }

  /** Rules only write at their holder's position, only catalog blocks, and never give draws back. */
  lemma {:induction false} ApplyRulesFrame(id: EntityId, pos: Pos, rules: seq<BlockCondition>, t: Trigger, st: Effects)
    ensures var r := ApplyRules(id, pos, rules, t, st);
      && r.drawn >= st.drawn
      && AgreeOutside(st.world, r.world, {pos})
      && WritesFromCatalog(st.world, r.world, t.catalog)
    decreases |rules|
  {
    if rules != [] {
      var next := ApplyRule(id, pos, rules[0], t, st);
      ApplyRulesFrame(id, pos, rules[1..], t, next);
    }
  }

  /**
    A trigger writes only at positions of holders registered under it, only
    blocks the catalog knows, and never gives draws back.
   */
  lemma {:induction false} VisitAllFrame(ids: seq<EntityId>, store: map<EntityId, Holder>, t: Trigger, st: Effects)
    ensures var r := VisitAll(ids, store, t, st);
      && r.drawn >= st.drawn
      && AgreeOutside(st.world, r.world, HolderPositions(ids, store))
      && WritesFromCatalog(st.world, r.world, t.catalog)
    decreases |ids|
  {
    if ids != [] {
      var next := if ids[0] in store then VisitHolder(ids[0], store[ids[0]], t, st) else st;
      if ids[0] in store {
        ApplyRulesFrame(ids[0], store[ids[0]].pos, FamilyRules(store[ids[0]], t.isBlock), t, st);
      }
      VisitAllFrame(ids[1..], store, t, next);
      assert HolderPositions(ids[1..], store) <= HolderPositions(ids, store) by {
        forall p | p in HolderPositions(ids[1..], store) ensures p in HolderPositions(ids, store) {
          var i :| 0 <= i < |ids[1..]| && ids[1..][i] in store && p == store[ids[1..][i]].pos;
          assert ids[i + 1] == ids[1..][i];
        }
      }
      if ids[0] in store {
        assert store[ids[0]].pos in HolderPositions(ids, store);
      }
    }
  }

  /**
    Outside the adjacency shortcut, a matching rule takes one draw exactly when
    its gates pass, and replaces the block at the holder's position with the
    catalog's block for blockToBecome exactly when the gates pass, the draw is
    lucky and the catalog knows the target; otherwise the world is unchanged.
   */
  lemma RuleEffect(id: EntityId, pos: Pos, r: BlockCondition, t: Trigger, st: Effects)
    requires r.Trigger() == t.name && !Adjacent(r, t.sense(id, r))
    ensures var s := t.sense(id, r);
      var e := ApplyRule(id, pos, r, t, st);
      && e.drawn == st.drawn + (if Gates(r, s) then 1 else 0)
      && e.world == if Gates(r, s) && Lucky(r, t.random, st.drawn) && r.blockToBecome in t.catalog
                    then st.world[pos := t.catalog[r.blockToBecome]] else st.world
  {
    GateChain(r, t.sense(id, r), t.random, st.drawn);
  }

  /**
    Through the adjacency shortcut: a won first draw writes the target at once;
    a lost one falls through to the range path, which writes after a second,
    lucky draw when the gates pass. A write needs the catalog to know the target.
   */
  lemma AdjacentRuleEffect(id: EntityId, pos: Pos, r: BlockCondition, t: Trigger, st: Effects)
    requires r.Trigger() == t.name && Adjacent(r, t.sense(id, r))
    ensures var s := t.sense(id, r);
      var k := st.drawn;
      var e := ApplyRule(id, pos, r, t, st);
      var fires := Lucky(r, t.random, k) || (Gates(r, s) && Lucky(r, t.random, k + 1));
      && e.drawn == st.drawn + (if Lucky(r, t.random, k) then 1 else if Gates(r, s) then 2 else 1)
      && e.world == if fires && r.blockToBecome in t.catalog
                    then st.world[pos := t.catalog[r.blockToBecome]] else st.world
  {
    AdjacentShortcut(r, t.sense(id, r), t.random, st.drawn);
  }

  /**
    A holder whose only rule of the trigger's family matches the key, has chance
    1.0, passes its gates or its adjacency shortcut and names a block the
    catalog knows always gets that block at its position.
   */
  lemma CertainHolderWrites(id: EntityId, h: Holder, r: BlockCondition, t: Trigger, st: Effects)
    requires FamilyRules(h, t.isBlock) == [r] && r.Trigger() == t.name
    requires UnitDraws(t.random) && r.chance >= 1.0
    requires Gates(r, t.sense(id, r)) || Adjacent(r, t.sense(id, r))
    requires r.blockToBecome in t.catalog
    ensures VisitHolder(id, h, t, st).world == st.world[h.pos := t.catalog[r.blockToBecome]]
  {
    CertainRuleFires(r, t.sense(id, r), t.random, st.drawn);
    var e := ApplyRule(id, h.pos, r, t, st);
    assert ApplyRules(id, h.pos, [r], t, st) == ApplyRules(id, h.pos, [], t, e);
  }

  /** Rules that do not name the key neither draw nor write. */
  lemma {:induction false} UnmatchedRulesAreInert(id: EntityId, pos: Pos, rules: seq<BlockCondition>, t: Trigger, st: Effects)
    requires forall r :: r in rules ==> r.Trigger() != t.name
    ensures ApplyRules(id, pos, rules, t, st) == st
    decreases |rules|
  {
    if rules != [] {
      assert rules[0] in rules;
      UnmatchedRulesAreInert(id, pos, rules[1..], t, st);
    }
  }

  /** A holder sees a trigger of one family through that family's rules and its position only. */
  predicate SameFamilyView(h1: Holder, h2: Holder, isBlock: bool)
  {
    h1.pos == h2.pos && FamilyRules(h1, isBlock) == FamilyRules(h2, isBlock)
  }

  /**
    Block triggers consult only BlockNearby/BlockDirected rules and entity
    triggers only EntityNearby/EntityDirected rules: two holder stores that
    agree on positions and on the trigger's family of rules give the same result.
   */
  lemma {:induction false} TriggerFamiliesAreSeparate(ids: seq<EntityId>, store1: map<EntityId, Holder>, store2: map<EntityId, Holder>,
                                                      t: Trigger, st: Effects)
    requires forall id :: id in ids ==> (id in store1 <==> id in store2)
    requires forall id :: id in ids && id in store1 && id in store2 ==> SameFamilyView(store1[id], store2[id], t.isBlock)
    ensures VisitAll(ids, store1, t, st) == VisitAll(ids, store2, t, st)
    decreases |ids|
  {
    if ids != [] {
      assert ids[0] in ids;
      var next := if ids[0] in store1 then VisitHolder(ids[0], store1[ids[0]], t, st) else st;
      TriggerFamiliesAreSeparate(ids[1..], store1, store2, t, next);
    }
  }

  // ---------------------------------------------------------------------------
  // The registry
  // ---------------------------------------------------------------------------

  type Registry = map<string, seq<EntityId>>

  /** The holders registered under `key`, none when the key is absent. */
  function Lookup(m: Registry, key: string): seq<EntityId>
  {
    if key in m then m[key] else []
  }

  /** registerTrigger: the list for `key` (created empty if absent) gets `id` appended. */
  function Registered(m: Registry, key: string, id: EntityId): (m': Registry)
    ensures m'.Keys == m.Keys + {key}
    ensures forall k :: k != key ==> Lookup(m', k) == Lookup(m, k)
    ensures Lookup(m', key) == Lookup(m, key) + [id]
  {
    m[key := Lookup(m, key) + [id]]
  }

  /** registerTrigger for each key of `keys`, in order. */
  function RegisterAll(m: Registry, keys: seq<string>, id: EntityId): (m': Registry)
    ensures m.Keys <= m'.Keys
    ensures forall k :: k !in keys ==> Lookup(m', k) == Lookup(m, k)
    decreases |keys|
  {
    if keys == [] then m else RegisterAll(Registered(m, keys[0], id), keys[1..], id)
  }

  /** The trigger keys of `rules`, in order. */
  function TriggersOf(rules: seq<BlockCondition>): (keys: seq<string>)
    ensures |keys| == |rules|
    ensures forall i :: 0 <= i < |rules| ==> keys[i] == rules[i].Trigger()
  {
    seq(|rules|, i requires 0 <= i < |rules| => rules[i].Trigger())
  }

  /** Registration creates the keys it names and removes none. */
  lemma {:induction false} RegisterAllKeys(m: Registry, keys: seq<string>, id: EntityId)
    ensures RegisterAll(m, keys, id).Keys == m.Keys + (set k | k in keys)
    decreases |keys|
  {
    if keys == [] {
      assert (set k | k in keys) == {};
    } else {
      RegisterAllKeys(Registered(m, keys[0], id), keys[1..], id);
      assert (set k | k in keys) == {keys[0]} + (set k | k in keys[1..]) by {
        forall k ensures k in keys <==> k == keys[0] || k in keys[1..] {
          if k in keys && k != keys[0] {
            var i :| 0 <= i < |keys| && keys[i] == k;
            assert keys[1..][i - 1] == k;
          }
        }
      }
    }
  }

  /**
    Registering a holder's rules appends, never deduplicates: under each key the
    old list is kept as a prefix, and the holder gains one entry per rule naming
    that key; other holders' counts do not change.
   */
  lemma {:induction false} RegisterAllCounts(m: Registry, keys: seq<string>, id: EntityId, key: string, other: EntityId)
    requires other != id
    ensures var m' := RegisterAll(m, keys, id);
      && Lookup(m, key) <= Lookup(m', key)
      && Occurrences(Lookup(m', key), id) == Occurrences(Lookup(m, key), id) + Occurrences(keys, key)
      && Occurrences(Lookup(m', key), other) == Occurrences(Lookup(m, key), other)
    decreases |keys|
  {
    if keys != [] {
      var m1 := Registered(m, keys[0], id);
      RegisterAllCounts(m1, keys[1..], id, key, other);
      RegisteredCounts(m, keys[0], id, key, other);
      assert keys == [keys[0]] + keys[1..];
      OccurrencesAppend([keys[0]], keys[1..], key);
    }
  }

  /** One registration under `k`: the step RegisterAllCounts takes per key. */
  lemma RegisteredCounts(m: Registry, k: string, id: EntityId, key: string, other: EntityId)
    requires other != id
    ensures var m1 := Registered(m, k, id);
      && Lookup(m, key) <= Lookup(m1, key)
      && Occurrences(Lookup(m1, key), id) == Occurrences(Lookup(m, key), id) + (if k == key then 1 else 0)
      && Occurrences(Lookup(m1, key), other) == Occurrences(Lookup(m, key), other)
  {
    if k == key {
      OccurrencesSnoc(Lookup(m, key), id, id);
      OccurrencesSnoc(Lookup(m, key), id, other);
    }
  }

  /** List.remove(Object): the first occurrence of `id` goes, the rest keep their order. */
  function RemoveFirst(s: seq<EntityId>, id: EntityId): (r: seq<EntityId>)
    ensures id !in s ==> r == s
    ensures id in s ==> |r| == |s| - 1
    decreases |s|
  {
    if s == [] then []
    else if s[0] == id then s[1..]
    else [s[0]] + RemoveFirst(s[1..], id)
  }

  /** RemoveFirst cuts out exactly the first occurrence, keeping the rest in order. */
  lemma {:induction false} RemoveFirstCutsFirst(s: seq<EntityId>, id: EntityId)
    requires id in s
    ensures var i := IndexOf(s, id);
      RemoveFirst(s, id) == s[..i] + s[i + 1..]
    decreases |s|
  {
    if s[0] != id {
      RemoveFirstCutsFirst(s[1..], id);
      var i := IndexOf(s[1..], id);
      assert s[1..][..i] == s[1..i + 1];
      assert s[1..][i + 1..] == s[i + 2..];
      assert [s[0]] + s[1..i + 1] == s[..i + 1];
    }
  }

  /** Removing lowers the removed holder's count by one and leaves every other holder's count alone. */
  lemma RemoveFirstCounts(s: seq<EntityId>, id: EntityId, other: EntityId)
    requires id in s
    ensures Occurrences(RemoveFirst(s, id), id) == Occurrences(s, id) - 1
    ensures other != id ==> Occurrences(RemoveFirst(s, id), other) == Occurrences(s, other)
  {
    var i := IndexOf(s, id);
    RemoveFirstCutsFirst(s, id);
    assert s == s[..i] + ([s[i]] + s[i + 1..]);
    OccurrencesAppend(s[..i], [s[i]] + s[i + 1..], id);
    OccurrencesAppend([s[i]], s[i + 1..], id);
    OccurrencesAppend(s[..i], s[i + 1..], id);
    OccurrencesAppend(s[..i], [s[i]] + s[i + 1..], other);
    OccurrencesAppend([s[i]], s[i + 1..], other);
    OccurrencesAppend(s[..i], s[i + 1..], other);
  }

  /** onRemoving: every list loses its first occurrence of `id`; keys stay, even with empty lists. */
  function Removed(m: Registry, id: EntityId): (m': Registry)
    ensures m'.Keys == m.Keys
  {
    map k | k in m :: RemoveFirst(m[k], id)
  }

  /**
    Registering a holder that was nowhere in the registry and then removing it
    gives the registry back, except that a key created by the registration
    stays with an empty list.
   */
  lemma RemoveUndoesRegister(m: Registry, key: string, id: EntityId)
    requires forall k :: k in m ==> id !in m[k]
    ensures Removed(Registered(m, key, id), id) == m[key := Lookup(m, key)]
  {
    var m' := Registered(m, key, id);
    var s := Lookup(m, key);
    assert IndexOf(s + [id], id) == |s|;
    RemoveFirstCutsFirst(s + [id], id);
    assert (s + [id])[..|s|] + (s + [id])[|s| + 1..] == s;
  }

  /** A holder registered twice under a key (two rules naming it) is still registered there after one removal. */
  lemma DuplicateSurvivesRemoval(s: seq<EntityId>, id: EntityId)
    requires Occurrences(s, id) >= 2
    ensures id in RemoveFirst(s, id)
  {
    RemoveFirstCounts(s, id, id);
  }

  /** The trigger handlers: checkLocational runs only when the key has a registry entry. */
  function Handle(m: Registry, store: map<EntityId, Holder>, t: Trigger, st: Effects): (r: Effects)
    ensures t.name !in m ==> r == st
  {
    if t.name in m then VisitAll(m[t.name], store, t, st) else st
  }

  class ConditionalBlocksSystem {
    var triggerCollections: Registry
    /** The generator initialise() creates. */
    const random: RandomSource

    constructor (random: RandomSource)
      ensures triggerCollections == map[] && this.random == random
    {
      triggerCollections := map[];
      this.random := random;
    }

    method RegisterTrigger(trigger: string, triggerable: EntityId)
      modifies this`triggerCollections
      ensures triggerCollections == Registered(old(triggerCollections), trigger, triggerable)
    {
      var list := if trigger in triggerCollections then triggerCollections[trigger] else [];
      triggerCollections := triggerCollections[trigger := list + [triggerable]];
    }

    /** Registers `id` once per rule, under the rule's trigger key. */
    method RegisterRules(id: EntityId, rules: seq<BlockCondition>)
      modifies this`triggerCollections
      ensures triggerCollections == RegisterAll(old(triggerCollections), TriggersOf(rules), id)
    {
      var i := 0;
      while i < |rules|
        invariant i <= |rules|
        invariant RegisterAll(triggerCollections, TriggersOf(rules)[i..], id)
               == RegisterAll(old(triggerCollections), TriggersOf(rules), id)
      {
        assert TriggersOf(rules)[i..][1..] == TriggersOf(rules)[i + 1..];
        RegisterTrigger(rules[i].Trigger(), id);
        i := i + 1;
      }
    }

    method OnSpawnBlockDirected(id: EntityId, changes: seq<BlockDirectedRule>)
      modifies this`triggerCollections
      ensures triggerCollections == RegisterAll(old(triggerCollections), TriggersOf(changes), id)
    {
      RegisterRules(id, changes);
    }

    method OnSpawnBlockNearby(id: EntityId, changes: seq<BlockNearbyRule>)
      modifies this`triggerCollections
      ensures triggerCollections == RegisterAll(old(triggerCollections), TriggersOf(changes), id)
    {
      RegisterRules(id, changes);
    }

    method OnSpawnEntityDirected(id: EntityId, changes: seq<EntityDirectedRule>)
      modifies this`triggerCollections
      ensures triggerCollections == RegisterAll(old(triggerCollections), TriggersOf(changes), id)
    {
      RegisterRules(id, changes);
    }

    method OnSpawnEntityNearby(id: EntityId, changes: seq<EntityNearbyRule>)
      modifies this`triggerCollections
      ensures triggerCollections == RegisterAll(old(triggerCollections), TriggersOf(changes), id)
    {
      RegisterRules(id, changes);
    }

    method OnRemoving(id: EntityId)
      modifies this`triggerCollections
      ensures triggerCollections == Removed(old(triggerCollections), id)
    {
      ghost var m0 := triggerCollections;
      var keys := triggerCollections.Keys;
      while keys != {}
        invariant keys <= m0.Keys
        invariant triggerCollections.Keys == m0.Keys
        invariant forall k :: k in m0 ==> triggerCollections[k] == if k in keys then m0[k] else RemoveFirst(m0[k], id)
        decreases keys
      {
        var k :| k in keys;
        triggerCollections := triggerCollections[k := RemoveFirst(triggerCollections[k], id)];
        keys := keys - {k};
      }
    }

    method Shutdown()
      modifies this`triggerCollections
      ensures triggerCollections == map[]
    {
      triggerCollections := map[];
    }

    /** setBlock of the block `target` resolves to, when it resolves. */
    method SetTarget(world: World, pos: Pos, target: BlockId, catalog: Catalog)
      modifies world
      ensures world.blocks == Become(old(world.blocks), pos, target, catalog)
    {
      if target in catalog {
        world.SetBlock(pos, catalog[target]);
      }
    }

    /** The gate chain of one rule of holder `id` for the trigger `name`. */
    method CheckRule(id: EntityId, pos: Pos, r: BlockCondition, name: string, isBlock: bool, sense: Sensor,
                     catalog: Catalog, world: World)
      modifies world, random
      ensures Effects(world.blocks, random.drawn)
           == ApplyRule(id, pos, r, Trigger(name, isBlock, sense, random.stream, catalog), Effects(old(world.blocks), old(random.drawn)))
    {
      if r.Trigger() != name {
        return;
      }
      var s := sense(id, r);
      var fired := false;
      if r.BlockNearby? && r.adjacent && s.distance < 2.0 {
        var draw := random.NextFloat();
        if r.chance >= draw {
          SetTarget(world, pos, r.blockToBecome, catalog);
          fired := true;
        }
      }
      if !fired && r.minDistance <= s.distance && s.distance <= r.maxDistance {
        if r.IsDirected() {
          if s.sideMatches && s.angle <= r.fieldOfView && (r.throughWalls || s.rayHitsCause) {
            var draw := random.NextFloat();
            if r.chance >= draw {
              SetTarget(world, pos, r.blockToBecome, catalog);
            }
          }
        } else if r.throughWalls || s.rayHitsCause {
          var draw := random.NextFloat();
          if r.chance >= draw {
            SetTarget(world, pos, r.blockToBecome, catalog);
          }
        }
      }
    }

    /** The rules of one component of holder `id`, in list order. */
    method CheckRules(id: EntityId, pos: Pos, rules: seq<BlockCondition>, name: string, isBlock: bool, sense: Sensor,
                      catalog: Catalog, world: World)
      modifies world, random
      ensures Effects(world.blocks, random.drawn)
           == ApplyRules(id, pos, rules, Trigger(name, isBlock, sense, random.stream, catalog), Effects(old(world.blocks), old(random.drawn)))
    {
      ghost var t := Trigger(name, isBlock, sense, random.stream, catalog);
      var i := 0;
      while i < |rules|
        invariant i <= |rules|
        invariant ApplyRules(id, pos, rules[i..], t, Effects(world.blocks, random.drawn))
               == ApplyRules(id, pos, rules, t, Effects(old(world.blocks), old(random.drawn)))
      {
        assert rules[i..][1..] == rules[i + 1..];
        CheckRule(id, pos, rules[i], name, isBlock, sense, catalog, world);
        i := i + 1;
      }
    }

    /** checkLocational: every holder registered under `name`, in registration order. */
    method CheckLocational(name: string, isBlock: bool, store: map<EntityId, Holder>, sense: Sensor,
                           catalog: Catalog, world: World)
      requires name in triggerCollections
      modifies world, random
      ensures Effects(world.blocks, random.drawn)
           == VisitAll(triggerCollections[name], store, Trigger(name, isBlock, sense, random.stream, catalog),
                       Effects(old(world.blocks), old(random.drawn)))
    {
      ghost var t := Trigger(name, isBlock, sense, random.stream, catalog);
      var holders := triggerCollections[name];
      var i := 0;
      while i < |holders|
        invariant i <= |holders|
        invariant VisitAll(holders[i..], store, t, Effects(world.blocks, random.drawn))
               == VisitAll(holders, store, t, Effects(old(world.blocks), old(random.drawn)))
      {
        assert holders[i..][1..] == holders[i + 1..];
        var id := holders[i];
        if id in store {
          var h := store[id];
          ghost var st := Effects(world.blocks, random.drawn);
          if isBlock {
            CheckRules(id, h.pos, h.blockNearby, name, isBlock, sense, catalog, world);
            CheckRules(id, h.pos, h.blockDirected, name, isBlock, sense, catalog, world);
          } else {
            CheckRules(id, h.pos, h.entityNearby, name, isBlock, sense, catalog, world);
            CheckRules(id, h.pos, h.entityDirected, name, isBlock, sense, catalog, world);
          }
          ApplyRulesAppend(id, h.pos, if isBlock then h.blockNearby else h.entityNearby,
                           if isBlock then h.blockDirected else h.entityDirected, t, st);
        }
        i := i + 1;
      }
    }

    /** The common shape of the four event handlers: check only when the key is registered. */
    method OnTrigger(name: string, isBlock: bool, store: map<EntityId, Holder>, sense: Sensor, catalog: Catalog, world: World)
      modifies world, random
      ensures Effects(world.blocks, random.drawn)
           == Handle(triggerCollections, store, Trigger(name, isBlock, sense, random.stream, catalog),
                     Effects(old(world.blocks), old(random.drawn)))
    {
      if name in triggerCollections {
        CheckLocational(name, isBlock, store, sense, catalog, world);
      }
    }

    /** An item entity moved. */
    method OnItemUpdate(store: map<EntityId, Holder>, sense: Sensor, catalog: Catalog, world: World)
      modifies world, random
      ensures Effects(world.blocks, random.drawn)
           == Handle(triggerCollections, store, Trigger("item", false, sense, random.stream, catalog),
                     Effects(old(world.blocks), old(random.drawn)))
    {
      OnTrigger("item", false, store, sense, catalog, world);
    }

    /** A character entity moved. */
    method OnCharacterUpdate(store: map<EntityId, Holder>, sense: Sensor, catalog: Catalog, world: World)
      modifies world, random
      ensures Effects(world.blocks, random.drawn)
           == Handle(triggerCollections, store, Trigger("npc", false, sense, random.stream, catalog),
                     Effects(old(world.blocks), old(random.drawn)))
    {
      OnTrigger("npc", false, store, sense, catalog, world);
    }

    /** A player character moved. */
    method OnPlayerUpdate(store: map<EntityId, Holder>, sense: Sensor, catalog: Catalog, world: World)
      modifies world, random
      ensures Effects(world.blocks, random.drawn)
           == Handle(triggerCollections, store, Trigger("player", false, sense, random.stream, catalog),
                     Effects(old(world.blocks), old(random.drawn)))
    {
      OnTrigger("player", false, store, sense, catalog, world);
    }

    /** A block changed; the key is the new block's URI. */
    method OnUpdate(newBlock: BlockId, store: map<EntityId, Holder>, sense: Sensor, catalog: Catalog, world: World)
      modifies world, random
      ensures Effects(world.blocks, random.drawn)
           == Handle(triggerCollections, store, Trigger(newBlock, true, sense, random.stream, catalog),
                     Effects(old(world.blocks), old(random.drawn)))
    {
      OnTrigger(newBlock, true, store, sense, catalog, world);
    }
  }
}
