/** The increment validator the solo producer consults before putting a pooled
    transaction into a block: a window over the most recent committed heights
    `[start, start + |blocks|)`, each with the hashes of the transactions it
    committed, bounded to `maxBlocks` heights. A transaction is rejected when
    its hash was committed at a tracked height at or above a caller-given
    lower bound. */
module Increment {
  import opened Common

  datatype Window = Window(maxBlocks: nat, start: nat, blocks: seq<set<Hash>>)

  /** The window holds at most `maxBlocks` heights, and an empty window sits
      at height 0 (the state of a fresh or cleaned validator). */
  predicate Valid(w: Window)
  {
    0 < w.maxBlocks && |w.blocks| <= w.maxBlocks && (w.blocks == [] ==> w.start == 0)
  }

  /** One past the last tracked height. */
  function End(w: Window): nat
  {
    w.start + |w.blocks|
  }

  /** `NewIncrementValidator(maxBlocks)`: nothing tracked yet. */
  function NewIncrementValidator(maxBlocks: nat): (w: Window)
    requires 0 < maxBlocks
    ensures Valid(w) && w.maxBlocks == maxBlocks && w.blocks == []
  {
    Window(maxBlocks, 0, [])
  }

  /** `BlockRange()`: the half-open range of tracked heights. */
  function BlockRange(w: Window): (r: (nat, nat))
    ensures r.0 <= r.1 && r.1 - r.0 == |w.blocks|
    ensures Valid(w) && r.0 < r.1 ==> r.1 - r.0 <= w.maxBlocks
  {
    (w.start, End(w))
  }

  /** `Verify(tx, lowerBound)` succeeds: no tracked height at or above
      `lowerBound` committed a transaction with hash `h`. */
  predicate Verify(w: Window, h: Hash, lowerBound: nat)
  {
    forall i :: 0 <= i < |w.blocks| && lowerBound <= w.start + i ==> h !in w.blocks[i]
  }

  /** `Clean()`: forgets every tracked height. */
  function Clean(w: Window): (r: Window)
    ensures r.maxBlocks == w.maxBlocks && r.blocks == []
    ensures Valid(w) ==> Valid(r)
  {
    Window(w.maxBlocks, 0, [])
  }

  /** A window that tracks nothing — a fresh or cleaned validator — accepts
      every transaction whatever the lower bound. */
  lemma EmptyAcceptsAll(w: Window, h: Hash, lowerBound: nat)
    requires w.blocks == []
    ensures Verify(w, h, lowerBound)
  {
  }

  /** `AddBlock(block)`: records the hashes committed at `height`. A block
      that continues the window is appended and the oldest height is evicted
      once the window would exceed its capacity; any other block restarts the
      window at its own height. Either way the window then ends at
      `height + 1` and rejects the block's own transactions. */
  function AddBlock(w: Window, height: nat, txs: set<Hash>): (r: Window)
    requires Valid(w)
    ensures Valid(r) && r.maxBlocks == w.maxBlocks
    ensures End(r) == height + 1 && r.blocks[|r.blocks| - 1] == txs
    ensures forall h :: h in txs ==> !Verify(r, h, height)
  {
    if w.blocks != [] && height == End(w) then
      var b := w.blocks + [txs];
      if |b| > w.maxBlocks then Window(w.maxBlocks, w.start + 1, b[1..])
      else Window(w.maxBlocks, w.start, b)
    else Window(w.maxBlocks, height, [txs])
  }

  /** A hash committed at a tracked height `t` is rejected for every lower
      bound up to `t`, and a bound past the window accepts everything. */
  lemma VerifyRejectsTracked(w: Window, h: Hash, t: nat, lowerBound: nat)
    requires w.start <= t < End(w) && h in w.blocks[t - w.start]
    ensures lowerBound <= t ==> !Verify(w, h, lowerBound)
  {
  }

  /** Raising the lower bound only accepts more. */
  lemma VerifyMonotone(w: Window, h: Hash, lowerBound: nat, higher: nat)
    requires lowerBound <= higher
    ensures Verify(w, h, lowerBound) ==> Verify(w, h, higher)
    ensures End(w) <= higher ==> Verify(w, h, higher)
  {
  }

  /** Appending a contiguous block keeps every earlier verdict at bounds the
      eviction did not pass, and adds a rejection for the new block's hashes:
      the window forgets nothing it still covers. */
  lemma {:induction false} AddBlockKeepsRejections(w: Window, height: nat, txs: set<Hash>, h: Hash, lowerBound: nat)
    requires Valid(w) && w.blocks != [] && height == End(w)
    requires AddBlock(w, height, txs).start <= lowerBound
    ensures Verify(AddBlock(w, height, txs), h, lowerBound) <==> Verify(w, h, lowerBound) && (h in txs ==> height < lowerBound)
  {
    var r := AddBlock(w, height, txs);
    var b := w.blocks + [txs];
    if |b| > w.maxBlocks {
      assert r.blocks == b[1..] && r.start == w.start + 1;
      forall i | 0 <= i < |r.blocks|
        ensures r.blocks[i] == b[i + 1]
      {
      }
      if Verify(r, h, lowerBound) {
        forall i | 0 <= i < |w.blocks| && lowerBound <= w.start + i
          ensures h !in w.blocks[i]
        {
          assert r.blocks[i - 1] == w.blocks[i];
        }
        if h in txs {
          assert r.blocks[|r.blocks| - 1] == txs;
        }
      }
    } else {
      assert r.blocks == b && r.start == w.start;
      if Verify(r, h, lowerBound) {
        forall i | 0 <= i < |w.blocks| && lowerBound <= w.start + i
          ensures h !in w.blocks[i]
        {
          assert r.blocks[i] == w.blocks[i];
        }
        if h in txs {
          assert r.blocks[|r.blocks| - 1] == txs;
        }
      }
    }
  }
}
