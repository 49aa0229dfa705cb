/**
  The animator's per-entity state record, ChangingBlocksComponent: the ordered
  stages a block cycles through, the loop/stop flags and the two timestamps
  the sweep compares against the game clock.
 */
module AnimationComponent {
  import opened Engine

  /** One stage: the block shown and how long (ms) it stays before the next change. */
  datatype Stage = Stage(block: BlockId, dwellMs: int)

  /** The stage blocks in cycle order. */
  function Keys(stages: seq<Stage>): (keys: seq<BlockId>)
    ensures |keys| == |stages|
    ensures forall i :: 0 <= i < |stages| ==> keys[i] == stages[i].block
  {
    seq(|stages|, i requires 0 <= i < |stages| => stages[i].block)
  }

  /** No block names two stages, as for the keys of a map. */
  ghost predicate DistinctKeys(stages: seq<Stage>)
  {
    forall i, j :: 0 <= i < j < |stages| ==> stages[i].block != stages[j].block
  }

  /** The stage map: insertion-ordered, one entry per block. */
  type StageList = s: seq<Stage> | DistinctKeys(s) witness []

  datatype ChangingBlocksComponent = ChangingBlocksComponent(
    loops: bool,                     // go back to the first stage instead of stopping at the end
    stopped: bool,                   // animation disabled; set on the last stage when not looping
    blockFamilyStages: StageList,    // stage block -> dwell in ms, in cycle order
    timeInGameMsToNextStage: int,    // elapsed time needed before the next change
    lastGameTimeCheck: int)          // last time the dwell was checked; -1 = never

  /** "Not yet checked": the sweep only starts the timer of such an entity. */
  const Unchecked: int := -1

  /** A component as freshly attached: every field not configured keeps its default. */
  function NewComponent(loops: bool, stages: StageList): (c: ChangingBlocksComponent)
    ensures c.lastGameTimeCheck == Unchecked && !c.stopped
    ensures c.loops == loops && c.blockFamilyStages == stages
  {
    ChangingBlocksComponent(loops, false, stages, 0, Unchecked)
  }

  /** The dwell of stage `x`, or None when no stage shows `x` (a null in the map lookup). */
  function DwellOf(stages: seq<Stage>, x: BlockId): (d: Option<int>)
    ensures d.None? <==> x !in Keys(stages)
    ensures d.Some? ==> d.value == stages[IndexOf(Keys(stages), x)].dwellMs
  {
    var i := IndexOf(Keys(stages), x);
    if i == -1 then None else Some(stages[i].dwellMs)
  }

  /** With distinct keys the stage that shows `x` is unique, so any position of `x` gives its dwell. */
  lemma {:induction false} DwellOfAt(stages: StageList, i: nat)
    requires i < |stages|
    ensures IndexOf(Keys(stages), stages[i].block) == i
    ensures DwellOf(stages, stages[i].block) == Some(stages[i].dwellMs)
  {
    var keys := Keys(stages);
    var j := IndexOf(keys, stages[i].block);
    assert keys[i] == stages[i].block;
  }
}
