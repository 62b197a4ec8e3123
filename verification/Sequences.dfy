/** Concatenation of blocks, and where each element of a block lands in the result. */
module Sequences {

  function Flatten<T>(blocks: seq<seq<T>>): seq<T> {
    if blocks == [] then [] else Flatten(blocks[..|blocks| - 1]) + blocks[|blocks| - 1]
  }

  lemma FlattenSnoc<T>(blocks: seq<seq<T>>, block: seq<T>)
    ensures Flatten(blocks + [block]) == Flatten(blocks) + block
  {
    assert (blocks + [block])[..|blocks|] == blocks;
  }

  lemma {:induction false} FlattenCons<T>(block: seq<T>, blocks: seq<seq<T>>)
    ensures Flatten([block] + blocks) == block + Flatten(blocks)
    decreases |blocks|
  {
    if blocks != [] {
      var n := |blocks| - 1;
      FlattenCons(block, blocks[..n]);
      assert ([block] + blocks)[..n + 1] == [block] + blocks[..n];
    }
  }

  lemma NothingToFlatten<T>()
    ensures Flatten<T>([]) == []
  {
  }

  lemma {:induction false} FlattenConcat<T>(a: seq<seq<T>>, b: seq<seq<T>>)
    ensures Flatten(a + b) == Flatten(a) + Flatten(b)
  {
    hide Flatten;
    if b == [] {
      assert a + b == a;
      NothingToFlatten<T>();
    } else {
      var n := |b| - 1;
      FlattenConcat(a, b[..n]);
      FlattenSnoc(a + b[..n], b[n]);
      FlattenSnoc(b[..n], b[n]);
      assert a + b == a + b[..n] + [b[n]] && b == b[..n] + [b[n]];
    }
  }

  /** The position in `Flatten(blocks)` at which block `b` begins. */
  function StartOf<T>(blocks: seq<seq<T>>, b: nat): nat
    requires b <= |blocks|
  {
    |Flatten(blocks[..b])|
  }

  lemma {:induction false} BlockInFlatten<T>(blocks: seq<seq<T>>, b: nat, o: nat)
    requires b < |blocks| && o < |blocks[b]|
    ensures StartOf(blocks, b) + o < |Flatten(blocks)|
    ensures Flatten(blocks)[StartOf(blocks, b) + o] == blocks[b][o]
  {
    var front := blocks[..|blocks| - 1];
    if b == |blocks| - 1 {
    } else {
      BlockInFlatten(front, b, o);
      assert front[..b] == blocks[..b];
    }
  }

  lemma {:induction false} FindInFlatten<T>(blocks: seq<seq<T>>, q: nat) returns (b: nat, o: nat)
    requires q < |Flatten(blocks)|
    ensures b < |blocks| && o < |blocks[b]|
    ensures q == StartOf(blocks, b) + o && Flatten(blocks)[q] == blocks[b][o]
  {
    var front := blocks[..|blocks| - 1];
    if q < |Flatten(front)| {
      b, o := FindInFlatten(front, q);
      assert front[..b] == blocks[..b];
    } else {
      b, o := |blocks| - 1, q - |Flatten(front)|;
    }
  }

  lemma {:induction false} BlocksAreOrdered<T>(blocks: seq<seq<T>>, a: nat, b: nat)
    requires a < b <= |blocks|
    ensures StartOf(blocks, a) + |blocks[a]| <= StartOf(blocks, b)
  {
    assert blocks[..b][..b - 1] == blocks[..b - 1];
    if a < b - 1 {
      BlocksAreOrdered(blocks, a, b - 1);
    }
  }
}
