/**
  The engine services both rule engines consume: block identifiers, world
  positions, the voxel world (a map from positions to block URIs), the block
  catalog and the shared pseudo-random stream. Only their observable contract
  is modelled; storage, chunking and the random generator's algorithm are not.
 */
module Engine {

  /** A block URI as the catalog prints it, e.g. "core:stone". */
  type BlockId = string

  /** A block position in the world. */
  datatype Pos = Pos(x: int, y: int, z: int)

  datatype Option<+T> = None | Some(value: T)

  /** What the world reports for a position that holds no block of its own. */
  const Air: BlockId := "engine:air"

  /** The block catalog: a block URI maps to the block it loads; a URI it does not know is absent. */
  type Catalog = map<BlockId, BlockId>

  /** Looks a key up in a map without requiring it to be present. */
  function Get<K, V>(m: map<K, V>, k: K): (r: Option<V>)
    ensures r.Some? <==> k in m
    ensures r.Some? ==> r.value == m[k]
  {
    if k in m then Some(m[k]) else None
  }

  /** The block the world shows at `p`. */
  function BlockAt(blocks: map<Pos, BlockId>, p: Pos): (b: BlockId)
    ensures p in blocks ==> b == blocks[p]
    ensures p !in blocks ==> b == Air
  {
    if p in blocks then blocks[p] else Air
  }

  /** Number of occurrences of `x` in `s`. */
  function Occurrences<T(==)>(s: seq<T>, x: T): (n: nat)
    ensures n <= |s|
    ensures n == 0 <==> x !in s
  {
    if s == [] then 0 else (if s[0] == x then 1 else 0) + Occurrences(s[1..], x)
  }

  /** Index of the first occurrence of `x` in `s`, or -1 when it is absent (List.indexOf). */
  function IndexOf<T(==)>(s: seq<T>, x: T): (r: int)
    ensures -1 <= r < |s|
    ensures r == -1 <==> x !in s
    ensures r >= 0 ==> s[r] == x && x !in s[..r]
  {
    if |s| == 0 then -1
    else if s[0] == x then 0
    else
      var r := IndexOf(s[1..], x);
      assert s[1..][..if r < 0 then 0 else r] == s[1..if r < 0 then 1 else r + 1];
      if r == -1 then -1 else r + 1
  }

  lemma {:induction false} OccurrencesAppend<T>(a: seq<T>, b: seq<T>, x: T)
    ensures Occurrences(a + b, x) == Occurrences(a, x) + Occurrences(b, x)
    decreases |a|
  {
    if a == [] {
      assert a + b == b;
    } else {
      assert (a + b)[0] == a[0];
      assert (a + b)[1..] == a[1..] + b;
      OccurrencesAppend(a[1..], b, x);
    }
  }

  /** Appending one element adds one occurrence of it and none of anything else. */
  lemma OccurrencesSnoc<T>(s: seq<T>, y: T, x: T)
    ensures Occurrences(s + [y], x) == Occurrences(s, x) + (if y == x then 1 else 0)
  {
    OccurrencesAppend(s, [y], x);
    assert [y][1..] == [];
  }

  /** `w1` and `w2` hold the same blocks everywhere outside `ps`. */
  ghost predicate AgreeOutside(w1: map<Pos, BlockId>, w2: map<Pos, BlockId>, ps: set<Pos>)
  {
    forall p :: p !in ps ==> Get(w1, p) == Get(w2, p)
  }

  /** The world provider: blocks are read and replaced one position at a time. */
  class World {
    var blocks: map<Pos, BlockId>

    constructor (initial: map<Pos, BlockId>)
      ensures blocks == initial
    {
      blocks := initial;
    }

    function GetBlock(p: Pos): (b: BlockId)
      reads this
      ensures b == BlockAt(blocks, p)
    {
      BlockAt(blocks, p)
    }

    method SetBlock(p: Pos, b: BlockId)
      modifies this
      ensures blocks == old(blocks)[p := b]
    {
      blocks := blocks[p := b];
    }
  }

  /**
    The shared random generator. Its output is an arbitrary but fixed stream of
    floats (a seeded generator is deterministic); `drawn` counts how many of
    them have been consumed so far.
   */
  class RandomSource {
    const stream: nat -> real
    var drawn: nat

    constructor (stream: nat -> real)
      ensures this.stream == stream && drawn == 0
    {
      this.stream := stream;
      drawn := 0;
    }

    method NextFloat() returns (x: real)
      modifies this
      ensures x == stream(old(drawn))
      ensures drawn == old(drawn) + 1
    {
      x := stream(drawn);
      drawn := drawn + 1;
    }
  }
}
