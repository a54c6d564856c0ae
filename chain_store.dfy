/** The VBFT pending-block store (`ChainStore`, consensus/vbft/chain_store.go).

    Blocks agreed on by consensus arrive keyed by height. The store keeps them
    in `pendingBlocks` until they are durable, executes them in height order
    and submits each one to the ledger one height late: block h-1 is submitted
    just before block h is executed, and the entry at h-2 is then evicted.
    `chainedBlockNum` is the frontier, the highest height executed so far.

    The ledger is not modelled; every call passes a `Ledger` value whose
    function fields answer the ledger queries the store makes. The ghost
    field `calls` records the ledger calls and consensus-complete
    notifications the store has made, in order. */
module ChainStore {
  import opened Common
  import opened Seqs

  /** A vbft block; `height` is what `getBlockNum()` returns. */
  datatype Block = Block(height: nat, body: seq<byte>)

  /** The block as the ledger stores it (`*types.Block`), left opaque. */
  type RawBlock = seq<byte>

  /** The key/value delta of an execution (`*overlaydb.MemDB`). */
  type WriteSet = map<seq<byte>, seq<byte>>

  /** `store.ExecuteResult`: the state root after execution and the write set
      (nil until execution fills it in). */
  datatype ExecuteResult = ExecuteResult(merkleRoot: Hash, writeSet: Option<WriteSet>)

  datatype PendingBlock = PendingBlock(block: Block, execResult: ExecuteResult)

  /** Go's `map[uint32]*PendingBlock`: a key may be present with a nil entry. */
  type PendingMap = map<nat, Option<PendingBlock>>

  /** The ledger as the store sees it at the time of one call. */
  datatype Ledger = Ledger(
    currentBlockHeight: nat,
    executeBlock: Block -> Result<ExecuteResult, string>,
    submitBlock: (Block, ExecuteResult) -> Option<string>,
    getBlockByHeight: nat -> Result<RawBlock, string>,
    getStateMerkleRoot: nat -> Result<Hash, string>,
    initVbftBlock: (RawBlock, Hash) -> Result<Block, string>)

  datatype CallKind = Submit | Execute | Complete

  /** One effect of `AddBlock` outside the store: `SubmitBlock`, `ExecuteBlock`
      or the `BlockConsensusComplete` notification, at a pending-map height. */
  datatype LedgerCall = LedgerCall(kind: CallKind, height: nat)

  datatype Error =
    | NilBlock
    | SubmitFailed(height: nat, cause: string)
    | ExecuteFailed(height: nat, cause: string)

  /** The three fields of the store that `AddBlock` and `ReloadFromLedger` change. */
  datatype Store = Store(chained: nat, pending: PendingMap, needSubmit: bool)

  /** What a run of `AddBlock` leaves behind: the new store, the calls it
      made, and the error it returned (None for Go's nil). */
  datatype Run = Run(store: Store, calls: seq<LedgerCall>, error: Option<Error>)

  /** `blk, present := m[h]; blk != nil && present` */
  predicate Ready(p: PendingMap, h: int)
  {
    h >= 0 && h in p && p[h].Some?
  }

  /** `SetExecuteResult`: replace the result of a non-nil entry, else nothing. */
  function SetResult(p: PendingMap, h: nat, r: ExecuteResult): (q: PendingMap)
    ensures q.Keys == p.Keys
    ensures Ready(p, h) ==> q == p[h := Some(PendingBlock(p[h].value.block, r))]
    ensures !Ready(p, h) ==> q == p
  {
    if Ready(p, h) then p[h := Some(PendingBlock(p[h].value.block, r))] else p
  }

  /** The heights of the calls of one kind, in the order they were made. */
  function HeightsOf(calls: seq<LedgerCall>, kind: CallKind): seq<int>
  {
    if calls == [] then []
    else (if calls[0].kind == kind then [calls[0].height as int] else []) + HeightsOf(calls[1..], kind)
  }

  lemma {:induction false} HeightsOfAppend(a: seq<LedgerCall>, b: seq<LedgerCall>, kind: CallKind)
    ensures HeightsOf(a + b, kind) == HeightsOf(a, kind) + HeightsOf(b, kind)
  {
    if a == [] {
      assert a + b == b;
    } else {
      var ab := a + b;
      assert ab[0] == a[0];
      assert ab[1..] == a[1..] + b;
      HeightsOfAppend(a[1..], b, kind);
      var head := if a[0].kind == kind then [a[0].height as int] else [];
      assert HeightsOf(ab, kind) == head + HeightsOf(a[1..] + b, kind);
      assert HeightsOf(a, kind) == head + HeightsOf(a[1..], kind);
    }
  }

  lemma HeightsOfSingle(x: LedgerCall, kind: CallKind)
    ensures HeightsOf([x], kind) == if x.kind == kind then [x.height as int] else []
  {
    assert [x][1..] == [];
  }

  /** The submission of block `h` when one is owed. */
  function SubmitCall(owed: bool, h: nat): seq<LedgerCall>
  {
    if owed then [LedgerCall(Submit, h)] else []
  }

  /** The heights, per kind, of the calls one loop iteration makes. */
  lemma IterationHeights(owed: bool, c: nat, kind: CallKind)
    ensures HeightsOf(SubmitCall(owed, c), kind) == if owed && kind == Submit then [c as int] else []
    ensures HeightsOf(SubmitCall(owed, c) + [LedgerCall(Execute, c + 1)], kind)
            == HeightsOf(SubmitCall(owed, c), kind) + (if kind == Execute then [c + 1] else [])
    ensures HeightsOf(SubmitCall(owed, c) + [LedgerCall(Execute, c + 1), LedgerCall(Complete, c + 1)], kind)
            == HeightsOf(SubmitCall(owed, c), kind) + (if kind == Submit then [] else [c + 1])
  {
    var e, d := LedgerCall(Execute, c + 1), LedgerCall(Complete, c + 1);
    if owed {
      HeightsOfSingle(LedgerCall(Submit, c), kind);
    } else {
      assert SubmitCall(owed, c) == [];
    }
    HeightsOfSingle(e, kind);
    HeightsOfSingle(d, kind);
    HeightsOfAppend(SubmitCall(owed, c), [e], kind);
    HeightsOfAppend([e], [d], kind);
    assert [e, d] == [e] + [d];
    HeightsOfAppend(SubmitCall(owed, c), [e, d], kind);
  }

  // ---------------------------------------------------------------------
  // One iteration of the loop in AddBlock, and the whole advance
  // ---------------------------------------------------------------------

  datatype StepOutcome =
    | Stop
    | Fail(store: Store, calls: seq<LedgerCall>, error: Error)
    | Continue(next: Store, calls: seq<LedgerCall>)
  {
    /** The store after the iteration, which started from `s`. */
    function After(s: Store): Store
    {
      match this
      case Stop => s
      case Fail(st, _, _) => st
      case Continue(next, _) => next
    }

    /** The calls the iteration made. */
    function Made(): seq<LedgerCall>
    {
      if Stop? then [] else calls
    }

    /** The error the iteration returned, if it returned one. */
    function Returned(): Option<Error>
    {
      if Fail? then Some(error) else None
    }
  }

  /** The loop body of `AddBlock` at `blkNum == chained + 1`: stop at a gap
      (or when the block to submit is missing), otherwise submit block
      `blkNum-1` if one is owed, evict `blkNum-2`, execute block `blkNum`,
      record its result and move the frontier to `blkNum`. */
  function Step(s: Store, db: Ledger): (o: StepOutcome)
    ensures o.Stop? <==> !Ready(s.pending, s.chained + 1) || (s.needSubmit && !Ready(s.pending, s.chained))
    ensures o.Continue? ==>
              && o.next.chained == s.chained + 1 && o.next.needSubmit
              && o.calls == SubmitCall(s.needSubmit, s.chained) + [LedgerCall(Execute, s.chained + 1), LedgerCall(Complete, s.chained + 1)]
    ensures o.Fail? ==>
              && o.store.chained == s.chained && o.store.needSubmit == s.needSubmit
              && (o.error.SubmitFailed? || o.error.ExecuteFailed?)
              && (o.error.SubmitFailed? ==> s.needSubmit && o.error.height == s.chained && o.store == s
                                            && o.calls == SubmitCall(s.needSubmit, s.chained))
              && (o.error.ExecuteFailed? ==> o.error.height == s.chained + 1
                                             && o.calls == SubmitCall(s.needSubmit, s.chained) + [LedgerCall(Execute, s.chained + 1)])
  {
    var n := s.chained + 1;
    if !Ready(s.pending, n) then Stop
    else if s.needSubmit && !Ready(s.pending, n - 1) then Stop
    else
      var blk := s.pending[n].value;
      var pre := SubmitCall(s.needSubmit, s.chained);
      var err := if s.needSubmit
                 then db.submitBlock(s.pending[n - 1].value.block, s.pending[n - 1].value.execResult)
                 else None;
      if err.Some? && n > s.chained then Fail(s, pre, SubmitFailed(n - 1, err.value))
      else
        var p1 := if s.needSubmit && n >= 2 && n - 2 in s.pending then s.pending - {n - 2} else s.pending;
        var res := db.executeBlock(blk.block);
        if res.Failure? then
          Fail(Store(s.chained, p1, s.needSubmit), pre + [LedgerCall(Execute, n)], ExecuteFailed(n, res.error))
        else
          Continue(Store(n, SetResult(p1, blk.block.height, res.value), true),
                   pre + [LedgerCall(Execute, n), LedgerCall(Complete, n)])
  }

  /** The heights above the frontier that still hold an entry: the loop's variant. */
  function Above(p: PendingMap, c: nat): set<nat>
  {
    set k | k in p && k > c
  }

  lemma {:induction false} SubsetCardinality(a: set<nat>, b: set<nat>)
    requires a <= b
    ensures |a| <= |b|
  {
    if a != {} {
      var x :| x in a;
      SubsetCardinality(a - {x}, b - {x});
    }
  }

  /** An iteration never adds an entry. */
  lemma StepKeys(s: Store, db: Ledger)
    ensures Step(s, db).Continue? ==> Step(s, db).next.pending.Keys <= s.pending.Keys
    ensures Step(s, db).Fail? ==> Step(s, db).store.pending.Keys <= s.pending.Keys
  {
  }

  lemma StepShrinks(s: Store, db: Ledger)
    requires Step(s, db).Continue?
    ensures |Above(Step(s, db).next.pending, Step(s, db).next.chained)| < |Above(s.pending, s.chained)|
  {
    StepKeys(s, db);
    var next := Step(s, db).next;
    var n := s.chained + 1;
    var before := Above(s.pending, s.chained);
    assert n in before;
    SubsetCardinality(Above(next.pending, next.chained), before - {n});
  }

  /** The `for` loop of `AddBlock` from `blkNum == chained + 1` on. */
  function Advance(s: Store, db: Ledger): Run
    decreases |Above(s.pending, s.chained)|
  {
    match Step(s, db)
    case Stop => Run(s, [], None)
    case Fail(st, cs, e) => Run(st, cs, Some(e))
    case Continue(next, cs) =>
      StepShrinks(s, db);
      var rest := Advance(next, db);
      Run(rest.store, cs + rest.calls, rest.error)
  }

  /** `AddBlock(block)` on a store in state `s`. */
  function AddSpec(s: Store, block: Option<PendingBlock>, db: Ledger): Run
  {
    if block.None? then Run(s, [], Some(NilBlock))
    else if block.value.block.height <= s.chained then Run(s, [], None)
    else Advance(Store(s.chained, s.pending[block.value.block.height := block], s.needSubmit), db)
  }

  /** `ReloadFromLedger` when the ledger is at `height`. */
  function Reload(s: Store, height: nat): Store
  {
    if height > s.chained then Store(height, map k | k in s.pending && k > height :: s.pending[k], s.needSubmit)
    else s
  }

  /** What the store retains at or below its frontier: nothing while no
      submission is owed, and otherwise at most the entries at the frontier
      and one below it (the block owed to the ledger and its predecessor). */
  ghost predicate Retained(s: Store)
  {
    forall k :: k in s.pending ==> k + 1 >= s.chained && (s.needSubmit || k > s.chained)
  }

  // ---------------------------------------------------------------------
  // Properties of AddBlock
  // ---------------------------------------------------------------------

  /** Adding a nil block is an error and changes nothing. */
  lemma AddNilIsError(s: Store, db: Ledger)
    ensures AddSpec(s, None, db) == Run(s, [], Some(NilBlock))
  {
  }

  /** Re-delivering a block at or below the frontier succeeds and changes
      nothing: no entry, no field and no ledger call. */
  lemma AddStaleIsNoOp(s: Store, pb: PendingBlock, db: Ledger)
    requires pb.block.height <= s.chained
    ensures AddSpec(s, Some(pb), db) == Run(s, [], None)
  {
  }

  /** A gap right above the frontier ends the advance at once, successfully. */
  lemma GapStopsAdvance(s: Store, db: Ledger)
    requires !Ready(s.pending, s.chained + 1)
    ensures Advance(s, db) == Run(s, [], None)
  {
  }

  /** The calls of the successful iterations that move the frontier from `c`
      to `c'`: each submits the block at the frontier when a submission is
      owed, then executes and announces the block above it; from the second
      iteration on a submission is always owed. */
  function Lagged(c: nat, c': nat, owed: bool): seq<LedgerCall>
    decreases c' - c
  {
    if c >= c' then []
    else SubmitCall(owed, c) + [LedgerCall(Execute, c + 1), LedgerCall(Complete, c + 1)] + Lagged(c + 1, c', true)
  }

  /** The calls of the iteration that ended a run: none when it stopped, the
      submission that failed, or the owed submission and the execution that
      failed. */
  function Ending(r: Run): seq<LedgerCall>
  {
    match r.error
    case Some(SubmitFailed(h, _)) => [LedgerCall(Submit, h)]
    case Some(ExecuteFailed(h, _)) => SubmitCall(r.store.needSubmit, r.store.chained) + [LedgerCall(Execute, h)]
    case _ => []
  }

  /** How a run of the loop ends: a successful run ends at a gap above the
      frontier or at a missing block owed to the ledger, an execution failure
      leaves the frontier just below the failed height, and a submission
      failure leaves it at the height that could not be submitted. */
  ghost predicate Ended(r: Run)
  {
    match r.error
    case None =>
      !Ready(r.store.pending, r.store.chained + 1)
      || (r.store.needSubmit && !Ready(r.store.pending, r.store.chained))
    case Some(e) =>
      (e.ExecuteFailed? && e.height == r.store.chained + 1)
      || (e.SubmitFailed? && e.height == r.store.chained && r.store.needSubmit)
  }

  /** The calls of a run from `s`: the frontier never goes down, a
      submission is owed once it has moved, and the calls are exactly the
      lagged pattern from the old frontier to the new one followed by the
      calls of the iteration that ended the run. */
  ghost predicate Shaped(s: Store, r: Run)
  {
    && r.store.chained >= s.chained
    && r.store.needSubmit == (s.needSubmit || r.store.chained > s.chained)
    && r.calls == Lagged(s.chained, r.store.chained, s.needSubmit) + Ending(r)
  }

  /** The shape of every run of the loop: its calls as `Shaped` says, and its
      end as `Ended` says. */
  ghost predicate Traced(s: Store, r: Run)
  {
    Shaped(s, r) && Ended(r)
  }

  /** A successful iteration followed by a run of the right shape is a run
      of the right shape. */
  lemma ShapedCons(s: Store, next: Store, cs: seq<LedgerCall>, rest: Run)
    requires next.chained == s.chained + 1 && next.needSubmit
    requires cs == SubmitCall(s.needSubmit, s.chained) + [LedgerCall(Execute, s.chained + 1), LedgerCall(Complete, s.chained + 1)]
    requires Shaped(next, rest)
    ensures Shaped(s, Run(rest.store, cs + rest.calls, rest.error))
  {
    var lag := Lagged(next.chained, rest.store.chained, true);
    assert Lagged(s.chained, rest.store.chained, s.needSubmit) == cs + lag;
    assert cs + (lag + Ending(rest)) == (cs + lag) + Ending(rest);
  }

  lemma AdvanceOnStop(s: Store, db: Ledger)
    requires Step(s, db).Stop?
    ensures Advance(s, db) == Run(s, [], None)
  {
  }

  lemma AdvanceOnFail(s: Store, db: Ledger)
    requires Step(s, db).Fail?
    ensures Advance(s, db) == Run(Step(s, db).store, Step(s, db).calls, Some(Step(s, db).error))
  {
  }

  lemma AdvanceOnContinue(s: Store, db: Ledger)
    requires Step(s, db).Continue?
    ensures var rest := Advance(Step(s, db).next, db);
            Advance(s, db) == Run(rest.store, Step(s, db).calls + rest.calls, rest.error)
  {
  }

  /** Every advance ends as `Ended` describes. */
  lemma {:induction false} AdvanceEnd(s: Store, db: Ledger)
    ensures Ended(Advance(s, db))
    decreases |Above(s.pending, s.chained)|
  {
    var o := Step(s, db);
    if o.Continue? {
      StepShrinks(s, db);
      AdvanceEnd(o.next, db);
      AdvanceOnContinue(s, db);
    } else if o.Fail? {
      AdvanceOnFail(s, db);
    } else {
      AdvanceOnStop(s, db);
    }
  }

  /** The calls of an advance, by induction over its iterations. */
  lemma {:induction false} AdvanceCalls(s: Store, db: Ledger)
    ensures Shaped(s, Advance(s, db))
    decreases |Above(s.pending, s.chained)|
  {
    var o := Step(s, db);
    if o.Continue? {
      StepShrinks(s, db);
      AdvanceCalls(o.next, db);
      AdvanceOnContinue(s, db);
      ShapedCons(s, o.next, o.calls, Advance(o.next, db));
    } else if o.Fail? {
      AdvanceOnFail(s, db);
    } else {
      AdvanceOnStop(s, db);
    }
  }

  /** Every advance is traced. */
  lemma AdvanceTraced(s: Store, db: Ledger)
    ensures Traced(s, Advance(s, db))
  {
    AdvanceCalls(s, db);
    AdvanceEnd(s, db);
  }

  lemma ConsRange(lo: int, hi: int)
    requires lo < hi
    ensures [lo] + Range(lo + 1, hi) == Range(lo, hi)
  {
  }

  /** One more iteration at the front of the lagged pattern. */
  lemma LaggedCons(c: nat, c': nat, owed: bool)
    requires c < c'
    ensures Lagged(c, c', owed)
            == SubmitCall(owed, c) + [LedgerCall(Execute, c + 1), LedgerCall(Complete, c + 1)] + Lagged(c + 1, c', true)
  {
  }

  /** In the lagged pattern the blocks executed, and those announced, are
      the heights above `c` up to `c'`. */
  lemma {:induction false} LaggedExecutions(c: nat, c': nat, owed: bool, kind: CallKind)
    requires c <= c' && kind != Submit
    ensures HeightsOf(Lagged(c, c', owed), kind) == Range(c + 1, c' + 1)
    decreases c' - c
  {
    if c < c' {
      var x := SubmitCall(owed, c) + [LedgerCall(Execute, c + 1), LedgerCall(Complete, c + 1)];
      var rest := Lagged(c + 1, c', true);
      LaggedCons(c, c', owed);
      LaggedExecutions(c + 1, c', true, kind);
      IterationHeights(owed, c, kind);
      HeightsOfAppend(x, rest, kind);
      assert HeightsOf(x, kind) == [c + 1];
      ConsRange(c + 1, c' + 1);
    }
  }

  /** In the lagged pattern the blocks submitted run one height behind:
      from `c` (or `c + 1` when nothing was owed at the start) to `c' - 1`. */
  lemma {:induction false} LaggedSubmissions(c: nat, c': nat, owed: bool)
    requires c <= c'
    ensures HeightsOf(Lagged(c, c', owed), Submit) == Range(if owed then c else c + 1, c')
    decreases c' - c
  {
    if c < c' {
      var x := SubmitCall(owed, c) + [LedgerCall(Execute, c + 1), LedgerCall(Complete, c + 1)];
      var rest := Lagged(c + 1, c', true);
      LaggedCons(c, c', owed);
      LaggedSubmissions(c + 1, c', true);
      IterationHeights(owed, c, Submit);
      HeightsOfAppend(x, rest, Submit);
      if owed {
        assert HeightsOf(x, Submit) == [c];
        ConsRange(c, c');
      } else {
        assert HeightsOf(x, Submit) == [];
        assert [] + HeightsOf(rest, Submit) == HeightsOf(rest, Submit);
      }
    }
  }

  lemma EndingHeights(r: Run)
    ensures HeightsOf(Ending(r), Complete) == []
    ensures HeightsOf(Ending(r), Execute) == if r.error.Some? && r.error.value.ExecuteFailed? then [r.error.value.height as int] else []
    ensures HeightsOf(Ending(r), Submit)
            == if r.error.Some? && r.error.value.SubmitFailed? then [r.error.value.height as int]
               else if r.error.Some? && r.error.value.ExecuteFailed? && r.store.needSubmit then [r.store.chained as int]
               else []
  {
    if r.error.Some? && r.error.value.SubmitFailed? {
      HeightsOfSingle(LedgerCall(Submit, r.error.value.height), Complete);
      HeightsOfSingle(LedgerCall(Submit, r.error.value.height), Execute);
      HeightsOfSingle(LedgerCall(Submit, r.error.value.height), Submit);
    } else if r.error.Some? && r.error.value.ExecuteFailed? {
      var x, e := SubmitCall(r.store.needSubmit, r.store.chained), LedgerCall(Execute, r.error.value.height);
      if r.store.needSubmit {
        HeightsOfSingle(LedgerCall(Submit, r.store.chained), Complete);
        HeightsOfSingle(LedgerCall(Submit, r.store.chained), Execute);
        HeightsOfSingle(LedgerCall(Submit, r.store.chained), Submit);
      }
      HeightsOfSingle(e, Complete);
      HeightsOfSingle(e, Execute);
      HeightsOfSingle(e, Submit);
      HeightsOfAppend(x, [e], Complete);
      HeightsOfAppend(x, [e], Execute);
      HeightsOfAppend(x, [e], Submit);
    }
  }

  /** In a run of the right shape the blocks announced as complete are
      exactly the heights from the old frontier + 1 to the new one, in
      increasing order. */
  lemma TracedCompletes(s: Store, r: Run)
    requires Shaped(s, r)
    ensures HeightsOf(r.calls, Complete) == Range(s.chained + 1, r.store.chained + 1)
  {
    var lag, e := Lagged(s.chained, r.store.chained, s.needSubmit), Ending(r);
    LaggedExecutions(s.chained, r.store.chained, s.needSubmit, Complete);
    EndingHeights(r);
    HeightsOfAppend(lag, e, Complete);
  }

  /** In a run of the right shape the blocks executed are the heights from
      the old frontier + 1 to the new one, plus the failed height when an
      execution failed. */
  lemma TracedExecutes(s: Store, r: Run)
    requires Shaped(s, r)
    ensures HeightsOf(r.calls, Execute)
            == Range(s.chained + 1, r.store.chained + 1)
               + (if r.error.Some? && r.error.value.ExecuteFailed? then [r.error.value.height as int] else [])
  {
    var lag, e := Lagged(s.chained, r.store.chained, s.needSubmit), Ending(r);
    LaggedExecutions(s.chained, r.store.chained, s.needSubmit, Execute);
    EndingHeights(r);
    HeightsOfAppend(lag, e, Execute);
  }

  /** In a run of the right shape submissions run one height behind
      executions: from the old frontier (or the one after it when nothing
      was owed) up to just below the new frontier, plus the height whose
      submission failed, or the frontier when an execution failed after it
      was submitted. */
  lemma TracedSubmits(s: Store, r: Run)
    requires Shaped(s, r)
    ensures HeightsOf(r.calls, Submit)
            == Range(if s.needSubmit then s.chained else s.chained + 1, r.store.chained)
               + (if r.error.Some? && r.error.value.SubmitFailed? then [r.error.value.height as int]
                  else if r.error.Some? && r.error.value.ExecuteFailed? && r.store.needSubmit then [r.store.chained as int]
                  else [])
  {
    var lag, e := Lagged(s.chained, r.store.chained, s.needSubmit), Ending(r);
    LaggedSubmissions(s.chained, r.store.chained, s.needSubmit);
    EndingHeights(r);
    HeightsOfAppend(lag, e, Submit);
  }

  /** The frontier never goes down, and it moves up one height per completed
      block: the blocks announced as complete are exactly the heights from
      the old frontier + 1 to the new one, in increasing order. */
  lemma AdvanceCompletes(s: Store, db: Ledger)
    ensures var r := Advance(s, db);
            r.store.chained >= s.chained && HeightsOf(r.calls, Complete) == Range(s.chained + 1, r.store.chained + 1)
  {
    AdvanceCalls(s, db);
    TracedCompletes(s, Advance(s, db));
  }

  /** The blocks executed are the heights from the old frontier + 1 to the
      new one, in order, plus the height after the new frontier when its
      execution failed. */
  lemma AdvanceExecutes(s: Store, db: Ledger)
    ensures var r := Advance(s, db);
            HeightsOf(r.calls, Execute)
            == Range(s.chained + 1, r.store.chained + 1)
               + (if r.error.Some? && r.error.value.ExecuteFailed? then [r.store.chained + 1] else [])
  {
    AdvanceCalls(s, db);
    AdvanceEnd(s, db);
    TracedExecutes(s, Advance(s, db));
  }

  /** Submissions run one height behind executions: they are the heights
      from the old frontier (or the one after it, when no submission was
      owed) up to just below the new frontier, plus the frontier itself when
      the run ended on an error after trying to submit it. */
  lemma AdvanceSubmits(s: Store, db: Ledger)
    ensures var r := Advance(s, db);
            HeightsOf(r.calls, Submit)
            == Range(if s.needSubmit then s.chained else s.chained + 1, r.store.chained)
               + (if r.error.Some? && r.store.needSubmit then [r.store.chained] else [])
  {
    AdvanceCalls(s, db);
    AdvanceEnd(s, db);
    TracedSubmits(s, Advance(s, db));
  }

  /** Submissions within one `AddBlock` happen in strictly increasing height
      order with no height skipped. */
  lemma SubmissionsInOrder(s: Store, db: Ledger)
    ensures var h := HeightsOf(Advance(s, db).calls, Submit);
            StrictlyIncreasing(h) && forall i :: 0 < i < |h| ==> h[i] == h[i - 1] + 1
  {
    AdvanceSubmits(s, db);
    var r := Advance(s, db);
    RangeAt(if s.needSubmit then s.chained else s.chained + 1, r.store.chained);
  }

  /** Every execution of block h is immediately preceded by the submission
      of block h-1, except a first call made when no submission was owed. */
  predicate SubmitsPrecede(cs: seq<LedgerCall>, owed: bool)
  {
    && (cs != [] && cs[0].kind == Execute ==> !owed)
    && forall i :: 0 < i < |cs| && cs[i].kind == Execute ==>
         cs[i - 1].kind == Submit && cs[i - 1].height + 1 == cs[i].height
  }

  lemma SubmitsPrecedeAppend(x: seq<LedgerCall>, y: seq<LedgerCall>, owed: bool)
    requires x != [] && SubmitsPrecede(x, owed) && SubmitsPrecede(y, true)
    ensures SubmitsPrecede(x + y, owed)
  {
    forall i | 0 <= i < |x + y| && (x + y)[i].kind == Execute
      ensures i == 0 ==> !owed
      ensures i > 0 ==> (x + y)[i - 1].kind == Submit && (x + y)[i - 1].height + 1 == (x + y)[i].height
    {
      if i >= |x| {
        assert (x + y)[i] == y[i - |x|];
        if i > |x| {
          assert (x + y)[i - 1] == y[i - |x| - 1];
        }
      }
    }
  }

  lemma IterationLag(owed: bool, c: nat)
    ensures SubmitsPrecede(SubmitCall(owed, c) + [LedgerCall(Execute, c + 1), LedgerCall(Complete, c + 1)], owed)
  {
    var x := SubmitCall(owed, c) + [LedgerCall(Execute, c + 1), LedgerCall(Complete, c + 1)];
    if owed {
      assert x == [LedgerCall(Submit, c), LedgerCall(Execute, c + 1), LedgerCall(Complete, c + 1)];
    } else {
      assert x == [LedgerCall(Execute, c + 1), LedgerCall(Complete, c + 1)];
    }
  }

  lemma {:induction false} LaggedThen(c: nat, c': nat, owed: bool, tail: seq<LedgerCall>)
    requires SubmitsPrecede(tail, c < c' || owed)
    ensures SubmitsPrecede(Lagged(c, c', owed) + tail, owed)
    decreases c' - c
  {
    if c >= c' {
      assert Lagged(c, c', owed) + tail == tail;
    } else {
      var x := SubmitCall(owed, c) + [LedgerCall(Execute, c + 1), LedgerCall(Complete, c + 1)];
      var rest := Lagged(c + 1, c', true);
      LaggedThen(c + 1, c', true, tail);
      IterationLag(owed, c);
      SubmitsPrecedeAppend(x, rest + tail, owed);
      assert Lagged(c, c', owed) + tail == x + (rest + tail);
    }
  }

  /** In a traced run every execution of block h is immediately preceded by
      the submission of block h-1, except the very first call when no
      submission was owed. */
  lemma TracedLag(s: Store, r: Run)
    requires Traced(s, r)
    ensures SubmitsPrecede(r.calls, s.needSubmit)
  {
    var e := Ending(r);
    assert SubmitsPrecede(e, r.store.needSubmit) by {
      if r.error.Some? && r.error.value.ExecuteFailed? {
        if r.store.needSubmit {
          assert e == [LedgerCall(Submit, r.store.chained), LedgerCall(Execute, r.error.value.height)];
        } else {
          assert e == [LedgerCall(Execute, r.error.value.height)];
        }
      }
    }
    LaggedThen(s.chained, r.store.chained, s.needSubmit, e);
  }

  /** The one-block lag of `AddBlock`: every execution of block h is
      immediately preceded by the submission of block h-1, except for the
      very first call of the run when no submission was owed. */
  lemma OneBlockLag(s: Store, db: Ledger)
    ensures SubmitsPrecede(Advance(s, db).calls, s.needSubmit)
  {
    AdvanceTraced(s, db);
    TracedLag(s, Advance(s, db));
  }

  /** A failed submission aborts the advance and leaves the store exactly as
      it was: the `blkNum > chainedBlockNum` guard always holds. */
  lemma SubmitFailureChangesNothing(s: Store, db: Ledger)
    requires s.needSubmit && Ready(s.pending, s.chained + 1) && Ready(s.pending, s.chained)
    requires db.submitBlock(s.pending[s.chained].value.block, s.pending[s.chained].value.execResult).Some?
    ensures Advance(s, db).store == s
    ensures Advance(s, db).calls == [LedgerCall(Submit, s.chained)]
    ensures Advance(s, db).error.Some? && Advance(s, db).error.value.SubmitFailed?
  {
  }

  lemma StepRetains(s: Store, db: Ledger)
    requires Retained(s)
    ensures Step(s, db).Continue? ==> Retained(Step(s, db).next)
    ensures Step(s, db).Fail? ==> Retained(Step(s, db).store)
  {
    var n := s.chained + 1;
    var o := Step(s, db);
    StepKeys(s, db);
    if o.Continue? || o.Fail? {
      var p := if o.Continue? then o.next.pending else o.store.pending;
      forall k | k in p
        ensures k + 1 >= n - 1 && (s.needSubmit || k > s.chained)
        ensures o.Continue? ==> k + 1 >= n
      {
        assert k in s.pending;
        if s.needSubmit && o.Continue? && !(o.calls[0].kind == Submit && n >= 2) {
          assert n == 1 || o.calls[0].kind == Submit;
        }
      }
    }
  }

  /** The advance keeps the retention bound. */
  lemma {:induction false} AdvanceRetains(s: Store, db: Ledger)
    requires Retained(s)
    ensures Retained(Advance(s, db).store)
    decreases |Above(s.pending, s.chained)|
  {
    StepRetains(s, db);
    match Step(s, db)
    case Stop =>
    case Fail(st, cs, e) =>
    case Continue(next, cs) =>
      StepShrinks(s, db);
      AdvanceRetains(next, db);
  }

  /** `AddBlock` keeps the retention bound. */
  lemma AddRetains(s: Store, block: Option<PendingBlock>, db: Ledger)
    requires Retained(s)
    ensures Retained(AddSpec(s, block, db).store)
  {
    if block.Some? && block.value.block.height > s.chained {
      AdvanceRetains(Store(s.chained, s.pending[block.value.block.height := block], s.needSubmit), db);
    }
  }

  /** Under the retention bound at most two entries sit at or below the
      frontier: memory for durable blocks is reclaimed. */
  lemma RetainedTailAtMostTwo(s: Store)
    requires Retained(s)
    ensures |set k | k in s.pending && k <= s.chained| <= 2
  {
    var tail := set k | k in s.pending && k <= s.chained;
    if s.chained == 0 {
      SubsetCardinality(tail, {0});
    } else {
      SubsetCardinality(tail, {s.chained - 1, s.chained});
    }
  }

  /** An entry at or above the frontier survives the advance with its block
      untouched, unless the frontier passed it. */
  lemma {:induction false} AdvanceKeepsEntries(s: Store, db: Ledger, k: nat)
    requires Ready(s.pending, k) && k >= s.chained
    ensures var r := Advance(s, db);
            (Ready(r.store.pending, k) && r.store.pending[k].value.block == s.pending[k].value.block)
            || k < r.store.chained
    decreases |Above(s.pending, s.chained)|
  {
    match Step(s, db)
    case Stop =>
    case Fail(st, cs, e) =>
    case Continue(next, cs) =>
      StepShrinks(s, db);
      AdvanceCompletes(next, db);
      if k >= next.chained {
        AdvanceKeepsEntries(next, db, k);
      }
  }

  /** After the insertion step the new entry sits under its own height, and
      it stays there with its block until the frontier has passed it. */
  lemma AddStoresEntry(s: Store, pb: PendingBlock, db: Ledger)
    requires pb.block.height > s.chained
    ensures var r := AddSpec(s, Some(pb), db);
            (Ready(r.store.pending, pb.block.height) && r.store.pending[pb.block.height].value.block == pb.block)
            || pb.block.height < r.store.chained
  {
    AdvanceKeepsEntries(Store(s.chained, s.pending[pb.block.height := Some(pb)], s.needSubmit), db, pb.block.height);
  }

  /** `ReloadFromLedger` only moves the frontier forward, to the ledger
      height, and then keeps exactly the entries above it. */
  lemma ReloadResyncs(s: Store, height: nat)
    ensures Reload(s, height).chained == if height > s.chained then height else s.chained
    ensures Reload(s, height).needSubmit == s.needSubmit
    ensures height > s.chained ==> forall k :: k in Reload(s, height).pending <==> k in s.pending && k > height
    ensures forall k :: k in Reload(s, height).pending ==> k in s.pending && Reload(s, height).pending[k] == s.pending[k]
    ensures height <= s.chained ==> Reload(s, height) == s
  {
  }

  lemma ReloadRetains(s: Store, height: nat)
    requires Retained(s)
    ensures Retained(Reload(s, height))
  {
  }

  /** After a reload that moved the frontier, `AddBlock` never submits a
      height the ledger already holds. */
  lemma ReloadThenAddSubmitsAbove(s: Store, height: nat, pb: PendingBlock, db: Ledger)
    requires height > s.chained
    ensures var hs := HeightsOf(AddSpec(Reload(s, height), Some(pb), db).calls, Submit);
            forall i :: 0 <= i < |hs| ==> hs[i] > height
  {
    var t := Reload(s, height);
    if pb.block.height > height {
      var u := Store(height, t.pending[pb.block.height := Some(pb)], t.needSubmit);
      if s.needSubmit {
        ReloadThenAddStalls(s, height, pb, db);
      } else {
        AdvanceTraced(u, db);
        TracedSubmitsAbove(u, Advance(u, db));
      }
    }
  }

  /** A run that started with no submission owed submits only heights above
      its starting frontier. */
  lemma TracedSubmitsAbove(s: Store, r: Run)
    requires Traced(s, r) && !s.needSubmit
    ensures var hs := HeightsOf(r.calls, Submit);
            forall i :: 0 <= i < |hs| ==> hs[i] > s.chained
  {
    TracedSubmits(s, r);
    var tail := if r.error.Some? && r.error.value.SubmitFailed? then [r.error.value.height as int]
                else if r.error.Some? && r.error.value.ExecuteFailed? && r.store.needSubmit then [r.store.chained as int]
                else [];
    assert tail == [] || tail == [r.store.chained as int];
    RangeThenAbove(s.chained + 1, r.store.chained, tail, s.chained);
  }

  /** If a submission was owed when the reload moved the frontier, the store
      cannot advance at all: the entry it would have to submit was dropped by
      the reload, so `AddBlock` only inserts the new entry. */
  lemma ReloadThenAddStalls(s: Store, height: nat, pb: PendingBlock, db: Ledger)
    requires height > s.chained && s.needSubmit
    ensures AddSpec(Reload(s, height), Some(pb), db) == Run(
              if pb.block.height > height
              then Store(height, Reload(s, height).pending[pb.block.height := Some(pb)], true)
              else Reload(s, height), [], None)
  {
    var t := Reload(s, height);
    if pb.block.height > height {
      var u := Store(height, t.pending[pb.block.height := Some(pb)], t.needSubmit);
      assert !Ready(u.pending, height);
      AdvanceOnStop(u, db);
    }
  }

  lemma RangeThenAbove(lo: int, hi: int, tail: seq<int>, bound: int)
    requires lo > bound && forall i :: 0 <= i < |tail| ==> tail[i] > bound
    ensures forall i :: 0 <= i < |Range(lo, hi) + tail| ==> (Range(lo, hi) + tail)[i] > bound
  {
    RangeAt(lo, hi);
  }

  /** A run from height 10: a store opened at height 10 with a ledger that
      accepts everything; adding block 11 executes it, adding block 12
      submits block 11 and executes block 12. Only `blkNum - 2` is evicted,
      which is height 10 and absent, so block 11 stays pending until block
      13 is chained. */
  lemma ScenarioElevenTwelve(db: Ledger, b11: PendingBlock, b12: PendingBlock)
    requires forall b :: db.executeBlock(b).Success?
    requires forall b, r :: db.submitBlock(b, r).None?
    requires b11.block.height == 11 && b12.block.height == 12
    ensures var s1 := AddSpec(Store(10, map[], false), Some(b11), db);
            var s2 := AddSpec(s1.store, Some(b12), db);
            && s1.error.None? && s1.store.chained == 11
            && s2.error.None? && s2.store.chained == 12
            && s1.calls + s2.calls == [LedgerCall(Execute, 11), LedgerCall(Complete, 11),
                                        LedgerCall(Submit, 11), LedgerCall(Execute, 12), LedgerCall(Complete, 12)]
            && s2.store.pending.Keys == {11, 12}
  {
    var s0 := Store(10, map[11 := Some(b11)], false);
    assert Store(10, map[][11 := Some(b11)], false) == s0;
    var st0 := Step(s0, db);
    assert st0.Continue?;
    var n1 := st0.next;
    assert n1.pending.Keys == {11} && n1.chained == 11;
    assert !Ready(n1.pending, 12);
    AdvanceOnStop(n1, db);
    AdvanceOnContinue(s0, db);
    assert Advance(s0, db) == Run(n1, st0.calls, None);
    var u := Store(11, n1.pending[12 := Some(b12)], true);
    var st1 := Step(u, db);
    assert Ready(u.pending, 11) && Ready(u.pending, 12);
    assert st1.Continue?;
    var n2 := st1.next;
    assert n2.pending.Keys == {11, 12} && n2.chained == 12;
    assert !Ready(n2.pending, 13);
    AdvanceOnStop(n2, db);
    AdvanceOnContinue(u, db);
    assert Advance(u, db) == Run(n2, st1.calls, None);
  }

  // ---------------------------------------------------------------------
  // Submissions across successive calls of AddBlock
  // ---------------------------------------------------------------------

  function Last(hs: seq<int>): int
    requires hs != []
  {
    hs[|hs| - 1]
  }

  /** Heights that never go down and go up by at most one at a time. */
  predicate Climbs(hs: seq<int>)
  {
    forall i :: 0 < i < |hs| ==> hs[i] == hs[i - 1] || hs[i] == hs[i - 1] + 1
  }

  /** From position `from` on, every height is one above the one before it. */
  predicate RisesFrom(hs: seq<int>, from: nat)
  {
    forall i :: from <= i < |hs| && 0 < i ==> hs[i] == hs[i - 1] + 1
  }

  /** The heights `hs` submitted so far climb, and once there is one a
      submission is owed and the last one was the block at the frontier
      (a submission that will be retried) or the block just below it. */
  predicate SubmitTrail(hs: seq<int>, chained: int, owed: bool)
  {
    Climbs(hs) && (hs != [] ==> owed && (Last(hs) == chained - 1 || Last(hs) == chained))
  }

  /** No submission is waiting to be retried: the last one was the block
      below the frontier. */
  predicate Settled(hs: seq<int>, chained: int)
  {
    hs == [] || Last(hs) + 1 == chained
  }

  /** Heights that continue a climbing sequence from its last height or the
      one after it keep it climbing, and from the one after it they rise one
      at a time. */
  lemma ClimbsThenRange(hs: seq<int>, a: int, e: int)
    requires Climbs(hs) && (hs != [] ==> Last(hs) == a - 1 || Last(hs) == a)
    ensures Climbs(hs + Range(a, e))
    ensures hs == [] || Last(hs) == a - 1 ==> RisesFrom(hs + Range(a, e), |hs|)
  {
    var all := hs + Range(a, e);
    RangeAt(a, e);
    forall i | 0 < i < |all|
      ensures all[i] == all[i - 1] || all[i] == all[i - 1] + 1
      ensures (hs == [] || Last(hs) == a - 1) && i >= |hs| ==> all[i] == all[i - 1] + 1
    {
      if i > |hs| {
        assert all[i] == a + (i - |hs|) && all[i - 1] == a + (i - 1 - |hs|);
      } else if i == |hs| {
        assert all[i] == a && all[i - 1] == Last(hs);
      }
    }
  }

  /** The trail after one run that took the frontier from `c` to `c'` and
      made the submissions `AdvanceSubmits` names (`erred`: the run returned
      an error). */
  lemma TrailExtends(hs: seq<int>, c: int, owed: bool, c': int, owed': bool, erred: bool)
    requires SubmitTrail(hs, c, owed) && c <= c' && owed' == (owed || c' > c)
    ensures var n := Range(if owed then c else c + 1, c') + (if erred && owed' then [c'] else []);
            && SubmitTrail(hs + n, c', owed')
            && (Settled(hs, c) ==> RisesFrom(hs + n, |hs|))
            && (Settled(hs, c) && !erred ==> Settled(hs + n, c'))
            && (c' > c && !erred ==> Settled(hs + n, c'))
  {
    var a := if owed then c else c + 1;
    var tail := erred && owed';
    var e := if tail then c' + 1 else c';
    var n := Range(a, c') + (if tail then [c'] else []);
    if tail {
      RangeSnoc(a, c');
    }
    assert n == Range(a, e);
    ClimbsThenRange(hs, a, e);
    RangeAt(a, e);
    if a < e {
      assert Last(hs + n) == e - 1;
    } else {
      assert hs + n == hs;
    }
  }

  /** The frontier of an advance never goes down, and a submission is owed
      after it exactly when one was owed before or the frontier moved. */
  lemma AdvanceOwes(s: Store, db: Ledger)
    ensures var r := Advance(s, db);
            r.store.chained >= s.chained && r.store.needSubmit == (s.needSubmit || r.store.chained > s.chained)
  {
    AdvanceCalls(s, db);
  }

  /** A run of the loop extends the trail: see `AddExtendsTrail`. */
  lemma AdvanceExtendsTrail(s: Store, db: Ledger, hs: seq<int>)
    requires SubmitTrail(hs, s.chained, s.needSubmit)
    ensures var r := Advance(s, db);
            var hs' := hs + HeightsOf(r.calls, Submit);
            && SubmitTrail(hs', r.store.chained, r.store.needSubmit)
            && (Settled(hs, s.chained) ==> RisesFrom(hs', |hs|))
            && (Settled(hs, s.chained) && r.error.None? ==> Settled(hs', r.store.chained))
            && (r.store.chained > s.chained && r.error.None? ==> Settled(hs', r.store.chained))
  {
    var r := Advance(s, db);
    AdvanceSubmits(s, db);
    AdvanceOwes(s, db);
    TrailExtends(hs, s.chained, s.needSubmit, r.store.chained, r.store.needSubmit, r.error.Some?);
  }

  /** One `AddBlock` extends the trail: the submission heights of all calls
      so far still climb; from a settled trail the new submissions go up one
      at a time from the block below the frontier, so a height is submitted
      again only after a call that returned an error; and a call that
      returns no error leaves the trail settled. */
  lemma AddExtendsTrail(s: Store, block: Option<PendingBlock>, db: Ledger, hs: seq<int>)
    requires SubmitTrail(hs, s.chained, s.needSubmit)
    ensures var r := AddSpec(s, block, db);
            var hs' := hs + HeightsOf(r.calls, Submit);
            && SubmitTrail(hs', r.store.chained, r.store.needSubmit)
            && (Settled(hs, s.chained) ==> RisesFrom(hs', |hs|))
            && (Settled(hs, s.chained) && r.error.None? ==> Settled(hs', r.store.chained))
            && (r.store.chained > s.chained && r.error.None? ==> Settled(hs', r.store.chained))
  {
    if block.None? || block.value.block.height <= s.chained {
      assert hs + HeightsOf([], Submit) == hs;
    } else {
      AdvanceExtendsTrail(Store(s.chained, s.pending[block.value.block.height := block], s.needSubmit), db, hs);
    }
  }

  /** One `AddBlock` call: the block delivered and the ledger as it answers
      during that call. */
  datatype Delivery = Delivery(block: Option<PendingBlock>, db: Ledger)

  /** Successive `AddBlock` calls with no reload between them: the final
      store and every call made, in order. */
  function AddEach(s: Store, ds: seq<Delivery>): (Store, seq<LedgerCall>)
    decreases |ds|
  {
    if ds == [] then (s, [])
    else
      var r := AddSpec(s, ds[0].block, ds[0].db);
      var rest := AddEach(r.store, ds[1..]);
      (rest.0, r.calls + rest.1)
  }

  lemma AddEachCons(s: Store, ds: seq<Delivery>)
    requires ds != []
    ensures var r := AddSpec(s, ds[0].block, ds[0].db);
            AddEach(s, ds) == (AddEach(r.store, ds[1..]).0, r.calls + AddEach(r.store, ds[1..]).1)
  {
  }

  lemma TrailRegroup(hs: seq<int>, a: seq<int>, b: seq<int>, chained: int, owed: bool)
    requires SubmitTrail((hs + a) + b, chained, owed)
    ensures SubmitTrail(hs + (a + b), chained, owed)
  {
    assert (hs + a) + b == hs + (a + b);
  }

  /** Any number of successive `AddBlock` calls extend the trail. */
  lemma {:induction false} AddEachExtendsTrail(s: Store, ds: seq<Delivery>, hs: seq<int>)
    requires SubmitTrail(hs, s.chained, s.needSubmit)
    ensures var e := AddEach(s, ds);
            SubmitTrail(hs + HeightsOf(e.1, Submit), e.0.chained, e.0.needSubmit)
    decreases |ds|
  {
    if ds == [] {
      assert hs + HeightsOf([], Submit) == hs;
    } else {
      var r := AddSpec(s, ds[0].block, ds[0].db);
      var rest := AddEach(r.store, ds[1..]);
      var hs' := hs + HeightsOf(r.calls, Submit);
      AddEachCons(s, ds);
      AddExtendsTrail(s, ds[0].block, ds[0].db, hs);
      AddEachExtendsTrail(r.store, ds[1..], hs');
      HeightsOfAppend(r.calls, rest.1, Submit);
      TrailRegroup(hs, HeightsOf(r.calls, Submit), HeightsOf(rest.1, Submit), rest.0.chained, rest.0.needSubmit);
    }
  }

  /** Nothing has been submitted since the ledger held height `h`: either
      no submission is owed and the frontier is `h`, or block `h + 1` has
      been executed and is owed. */
  predicate Unsubmitted(s: Store, h: int)
  {
    (!s.needSubmit && s.chained == h) || (s.needSubmit && s.chained == h + 1)
  }

  /** The first submission of an `AddBlock` call after nothing was submitted
      is block `h + 1`; a call that submits nothing keeps `Unsubmitted`. */
  lemma AddFirstSubmit(s: Store, block: Option<PendingBlock>, db: Ledger, h: int)
    requires Unsubmitted(s, h)
    ensures var r := AddSpec(s, block, db);
            var hs := HeightsOf(r.calls, Submit);
            && (hs != [] ==> hs[0] == h + 1)
            && (hs == [] ==> Unsubmitted(r.store, h))
  {
    if block.Some? && block.value.block.height > s.chained {
      var u := Store(s.chained, s.pending[block.value.block.height := block], s.needSubmit);
      AdvanceSubmits(u, db);
      AdvanceOwes(u, db);
      var r := Advance(u, db);
      RangeAt(if u.needSubmit then u.chained else u.chained + 1, r.store.chained);
    }
  }

  /** Over successive `AddBlock` calls after nothing was submitted, the first
      submission is block `h + 1`. */
  lemma {:induction false} AddEachFirstSubmit(s: Store, ds: seq<Delivery>, h: int)
    requires Unsubmitted(s, h)
    ensures var hs := HeightsOf(AddEach(s, ds).1, Submit);
            hs != [] ==> hs[0] == h + 1
    decreases |ds|
  {
    if ds != [] {
      var r := AddSpec(s, ds[0].block, ds[0].db);
      var rest := AddEach(r.store, ds[1..]);
      AddEachCons(s, ds);
      AddFirstSubmit(s, ds[0].block, ds[0].db, h);
      HeightsOfAppend(r.calls, rest.1, Submit);
      if HeightsOf(r.calls, Submit) == [] {
        AddEachFirstSubmit(r.store, ds[1..], h);
        assert HeightsOf(r.calls, Submit) + HeightsOf(rest.1, Submit) == HeightsOf(rest.1, Submit);
      }
    }
  }

  /** Over the life of a store opened at `height` and fed by `AddBlock`
      alone, the first block submitted is `height + 1`, and afterwards the
      submitted heights never go down and never skip a height: each is the
      previous one again (a retry after an error) or the next one. */
  lemma SubmissionsClimbAcrossCalls(height: nat, ds: seq<Delivery>)
    ensures Climbs(HeightsOf(AddEach(Store(height, map[], false), ds).1, Submit))
    ensures var hs := HeightsOf(AddEach(Store(height, map[], false), ds).1, Submit);
            hs != [] ==> hs[0] == height + 1
  {
    var e := AddEach(Store(height, map[], false), ds);
    AddEachExtendsTrail(Store(height, map[], false), ds, []);
    assert [] + HeightsOf(e.1, Submit) == HeightsOf(e.1, Submit);
    AddEachFirstSubmit(Store(height, map[], false), ds, height);
  }

  // ---------------------------------------------------------------------
  // A reload while a submission is owed
  // ---------------------------------------------------------------------

  /** A submission is owed but the block it needs is gone: the loop of
      `AddBlock` cannot get past its first check. */
  predicate Stuck(s: Store)
  {
    s.needSubmit && !Ready(s.pending, s.chained)
  }

  /** As written, a reload that moves the frontier while a submission is
      owed deletes the entry at the new frontier and keeps the owed
      submission. */
  lemma ReloadStrands(s: Store, height: nat)
    requires height > s.chained && s.needSubmit
    ensures Stuck(Reload(s, height))
  {
  }

  /** A stuck store stays stuck under `AddBlock`: the call makes no ledger
      call and leaves the frontier where it is; it returns an error for a
      nil block only. */
  lemma AddKeepsStuck(s: Store, block: Option<PendingBlock>, db: Ledger)
    requires Stuck(s)
    ensures var r := AddSpec(s, block, db);
            && Stuck(r.store) && r.store.chained == s.chained && r.calls == []
            && r.error == (if block.None? then Some(NilBlock) else None)
  {
    if block.Some? && block.value.block.height > s.chained {
      var u := Store(s.chained, s.pending[block.value.block.height := block], s.needSubmit);
      AdvanceOnStop(u, db);
    }
  }

  /** However many blocks arrive afterwards, a stuck store never executes or
      submits another block. */
  lemma {:induction false} StuckForever(s: Store, ds: seq<Delivery>)
    requires Stuck(s)
    ensures AddEach(s, ds).0.chained == s.chained && AddEach(s, ds).1 == []
    decreases |ds|
  {
    if ds != [] {
      var r := AddSpec(s, ds[0].block, ds[0].db);
      AddEachCons(s, ds);
      AddKeepsStuck(s, ds[0].block, ds[0].db);
      StuckForever(r.store, ds[1..]);
    }
  }

  /** `ReloadFromLedger` as evidently intended: when the frontier moves to
      the ledger height, the ledger already holds the block at the new
      frontier, so no submission is owed any more. */
  function ReloadSettling(s: Store, height: nat): (r: Store)
    ensures r.pending == Reload(s, height).pending && r.chained == Reload(s, height).chained
    ensures height > s.chained ==> !r.needSubmit
    ensures height <= s.chained ==> r == s
  {
    if height > s.chained then Store(height, map k | k in s.pending && k > height :: s.pending[k], false)
    else s
  }

  /** After the settling reload the store is never stuck by it, keeps the
      retention bound, and delivering the block above the ledger height
      executes it when the ledger accepts it. */
  lemma ReloadSettlingAdvances(s: Store, height: nat, pb: PendingBlock, db: Ledger)
    requires height > s.chained && pb.block.height == height + 1
    requires db.executeBlock(pb.block).Success?
    ensures !Stuck(ReloadSettling(s, height))
    ensures Retained(ReloadSettling(s, height))
    ensures AddSpec(ReloadSettling(s, height), Some(pb), db).store.chained >= height + 1
  {
    var t := ReloadSettling(s, height);
    var u := Store(t.chained, t.pending[pb.block.height := Some(pb)], t.needSubmit);
    assert Step(u, db).Continue?;
    AdvanceOnContinue(u, db);
    AdvanceOwes(Step(u, db).next, db);
  }

  /** Part of the advance is done: the calls `done` have been made and the
      rest of the advance from `s` completes the run `goal`. */
  ghost predicate Resumes(goal: Run, done: seq<LedgerCall>, s: Store, db: Ledger)
  {
    var rest := Advance(s, db);
    goal == Run(rest.store, done + rest.calls, rest.error)
  }

  /** One more iteration of the loop keeps the advance on course, and an
      iteration that stops the loop completes it. */
  lemma ResumesStep(goal: Run, done: seq<LedgerCall>, s: Store, db: Ledger)
    requires Resumes(goal, done, s, db)
    ensures var o := Step(s, db);
            if o.Continue? then Resumes(goal, done + o.Made(), o.After(s), db)
            else goal == Run(o.After(s), done + o.Made(), o.Returned())
  {
    var o := Step(s, db);
    if o.Continue? {
      AdvanceOnContinue(s, db);
      var rest := Advance(o.next, db);
      assert done + (o.calls + rest.calls) == (done + o.calls) + rest.calls;
    } else if o.Fail? {
      AdvanceOnFail(s, db);
    } else {
      AdvanceOnStop(s, db);
      assert done + [] == done;
    }
  }

  // ---------------------------------------------------------------------
  // The store itself
  // ---------------------------------------------------------------------

  class ChainStore {
    var chainedBlockNum: nat
    var pendingBlocks: PendingMap
    var needSubmitBlock: bool

    /** Every ledger call and notification made so far, in order. */
    ghost var calls: seq<LedgerCall>

    function State(): Store
      reads this
    {
      Store(chainedBlockNum, pendingBlocks, needSubmitBlock)
    }

    /** The submissions made so far climb one height at a time and end at
        or just below the frontier (see `SubmitTrail`); a reload that moves
        the frontier ends this. */
    ghost predicate Orderly()
      reads this
    {
      SubmitTrail(HeightsOf(calls, Submit), chainedBlockNum, needSubmitBlock)
    }

    /** `OpenBlockStore`: the frontier starts at the ledger height, with no
        pending entry and no submission owed. */
    constructor OpenBlockStore(db: Ledger)
      ensures State() == Store(db.currentBlockHeight, map[], false) && calls == []
      ensures Retained(State()) && Orderly()
    {
      chainedBlockNum := db.currentBlockHeight;
      pendingBlocks := map[];
      needSubmitBlock := false;
      calls := [];
    }

    function GetChainedBlockNum(): (r: nat)
      reads this
      ensures r == State().chained
    {
      chainedBlockNum
    }

    /** The entry's state root, or the zero hash when there is no entry. */
    function GetExecMerkleRoot(blkNum: nat): (r: Hash)
      reads this
      ensures Ready(pendingBlocks, blkNum) ==> r == pendingBlocks[blkNum].value.execResult.merkleRoot
      ensures !Ready(pendingBlocks, blkNum) ==> r == ZeroHash
    {
      if Ready(pendingBlocks, blkNum) then pendingBlocks[blkNum].value.execResult.merkleRoot else ZeroHash
    }

    /** The entry's write set, or nil when there is no entry. */
    function GetExecWriteSet(blkNum: nat): (r: Option<WriteSet>)
      reads this
      ensures Ready(pendingBlocks, blkNum) ==> r == pendingBlocks[blkNum].value.execResult.writeSet
      ensures !Ready(pendingBlocks, blkNum) ==> r.None?
    {
      if Ready(pendingBlocks, blkNum) then pendingBlocks[blkNum].value.execResult.writeSet else None
    }

    method SetExecMerkleRoot(blkNum: nat, merkleRoot: Hash)
      modifies this
      ensures Ready(old(pendingBlocks), blkNum) ==>
                pendingBlocks == old(pendingBlocks)[blkNum := Some(PendingBlock(old(pendingBlocks)[blkNum].value.block,
                  old(pendingBlocks)[blkNum].value.execResult.(merkleRoot := merkleRoot)))]
                && GetExecMerkleRoot(blkNum) == merkleRoot
      ensures !Ready(old(pendingBlocks), blkNum) ==> pendingBlocks == old(pendingBlocks)
      ensures chainedBlockNum == old(chainedBlockNum) && needSubmitBlock == old(needSubmitBlock) && calls == old(calls)
    {
      if Ready(pendingBlocks, blkNum) {
        var blk := pendingBlocks[blkNum].value;
        pendingBlocks := pendingBlocks[blkNum := Some(PendingBlock(blk.block, blk.execResult.(merkleRoot := merkleRoot)))];
      }
    }

    method SetExecWriteSet(blkNum: nat, memdb: Option<WriteSet>)
      modifies this
      ensures Ready(old(pendingBlocks), blkNum) ==>
                pendingBlocks == old(pendingBlocks)[blkNum := Some(PendingBlock(old(pendingBlocks)[blkNum].value.block,
                  old(pendingBlocks)[blkNum].value.execResult.(writeSet := memdb)))]
                && GetExecWriteSet(blkNum) == memdb
      ensures !Ready(old(pendingBlocks), blkNum) ==> pendingBlocks == old(pendingBlocks)
      ensures chainedBlockNum == old(chainedBlockNum) && needSubmitBlock == old(needSubmitBlock) && calls == old(calls)
    {
      if Ready(pendingBlocks, blkNum) {
        var blk := pendingBlocks[blkNum].value;
        pendingBlocks := pendingBlocks[blkNum := Some(PendingBlock(blk.block, blk.execResult.(writeSet := memdb)))];
      }
    }

    method SetExecuteResult(blkNum: nat, execResult: ExecuteResult)
      modifies this
      ensures pendingBlocks == SetResult(old(pendingBlocks), blkNum, execResult)
      ensures Ready(old(pendingBlocks), blkNum) ==>
                GetExecMerkleRoot(blkNum) == execResult.merkleRoot && GetExecWriteSet(blkNum) == execResult.writeSet
      ensures chainedBlockNum == old(chainedBlockNum) && needSubmitBlock == old(needSubmitBlock) && calls == old(calls)
    {
      if Ready(pendingBlocks, blkNum) {
        pendingBlocks := pendingBlocks[blkNum := Some(PendingBlock(pendingBlocks[blkNum].value.block, execResult))];
      }
    }

    /** `SetBlock` stores any entry, nil included, under any height; it keeps
        the retention bound when the height is above the frontier. */
    method SetBlock(blkNum: nat, blk: Option<PendingBlock>)
      modifies this
      ensures pendingBlocks == old(pendingBlocks)[blkNum := blk]
      ensures chainedBlockNum == old(chainedBlockNum) && needSubmitBlock == old(needSubmitBlock) && calls == old(calls)
      ensures old(Retained(State())) && blkNum > chainedBlockNum ==> Retained(State())
    {
      pendingBlocks := pendingBlocks[blkNum := blk];
    }

    /** `GetBlock`: the pending entry (nil included) when the height has one;
        otherwise an entry rebuilt from the ledger's block and state root,
        with no write set, or the first ledger error. */
    function GetBlock(blockNum: nat, db: Ledger): (r: Result<Option<PendingBlock>, string>)
      reads this
      ensures blockNum in pendingBlocks ==> r == Success(pendingBlocks[blockNum])
      ensures blockNum !in pendingBlocks ==>
                (r.Success? <==> && db.getBlockByHeight(blockNum).Success?
                                 && db.getStateMerkleRoot(blockNum).Success?
                                 && db.initVbftBlock(db.getBlockByHeight(blockNum).value,
                                                     db.getStateMerkleRoot(blockNum).value).Success?)
      ensures blockNum !in pendingBlocks && r.Success? ==>
                r.value.Some? && r.value.value.execResult == ExecuteResult(db.getStateMerkleRoot(blockNum).value, None)
      ensures blockNum !in pendingBlocks && r.Success? ==>
                r.value.value.block == db.initVbftBlock(db.getBlockByHeight(blockNum).value,
                                                        db.getStateMerkleRoot(blockNum).value).value
      ensures blockNum !in pendingBlocks && db.getBlockByHeight(blockNum).Failure? ==>
                r == Failure(db.getBlockByHeight(blockNum).error)
      ensures blockNum !in pendingBlocks && db.getBlockByHeight(blockNum).Success? && db.getStateMerkleRoot(blockNum).Failure? ==>
                r == Failure(db.getStateMerkleRoot(blockNum).error)
      ensures blockNum !in pendingBlocks && r.Failure? && db.getBlockByHeight(blockNum).Success? && db.getStateMerkleRoot(blockNum).Success? ==>
                r == Failure(db.initVbftBlock(db.getBlockByHeight(blockNum).value, db.getStateMerkleRoot(blockNum).value).error)
    {
      if blockNum in pendingBlocks then Success(pendingBlocks[blockNum])
      else match db.getBlockByHeight(blockNum)
        case Failure(e) => Failure(e)
        case Success(raw) =>
          match db.getStateMerkleRoot(blockNum)
          case Failure(e) => Failure(e)
          case Success(root) =>
            match db.initVbftBlock(raw, root)
            case Failure(e) => Failure(e)
            case Success(info) => Success(Some(PendingBlock(info, ExecuteResult(root, None))))
    }

    method ReloadFromLedger(db: Ledger)
      modifies this
      ensures State() == Reload(old(State()), db.currentBlockHeight) && calls == old(calls)
    {
      var height := db.currentBlockHeight;
      if height > chainedBlockNum {
        chainedBlockNum := height;
        var newPending: PendingMap := map[];
        var todo := pendingBlocks.Keys;
        while todo != {}
          invariant todo <= pendingBlocks.Keys
          invariant newPending == map k | k in pendingBlocks.Keys - todo && k > height :: pendingBlocks[k]
          decreases todo
        {
          var blkNum :| blkNum in todo;
          if blkNum > height {
            newPending := newPending[blkNum := pendingBlocks[blkNum]];
          }
          todo := todo - {blkNum};
        }
        pendingBlocks := newPending;
      }
    }

    method AddBlock(block: Option<PendingBlock>, db: Ledger) returns (err: Option<Error>)
      modifies this
      ensures State() == AddSpec(old(State()), block, db).store
      ensures calls == old(calls) + AddSpec(old(State()), block, db).calls
      ensures err == AddSpec(old(State()), block, db).error
      ensures old(Orderly()) ==> Orderly()
    {
      if block.None? {
        return Some(NilBlock);
      }
      var pb := block.value;
      if pb.block.height <= GetChainedBlockNum() {
        return None;
      }
      ghost var s0, before := State(), calls;
      pendingBlocks := pendingBlocks[pb.block.height := block];
      err := ChainPending(db);
      HeightsOfAppend(before, AddSpec(s0, block, db).calls, Submit);
      if SubmitTrail(HeightsOf(before, Submit), s0.chained, s0.needSubmit) {
        AddExtendsTrail(s0, block, db, HeightsOf(before, Submit));
      }
    }

    /** The `for` loop of `AddBlock`: executes, announces and submits pending
        blocks from `chainedBlockNum + 1` on, as `Advance` describes. */
    method ChainPending(db: Ledger) returns (err: Option<Error>)
      modifies this
      ensures State() == Advance(old(State()), db).store
      ensures calls == old(calls) + Advance(old(State()), db).calls
      ensures err == Advance(old(State()), db).error
    {
      ghost var rest := Advance(State(), db);
      ghost var goal := Run(rest.store, calls + rest.calls, rest.error);
      while true
        invariant Resumes(goal, calls, State(), db)
        decreases |Above(pendingBlocks, chainedBlockNum)|
      {
        ghost var s, before := State(), calls;
        var stop, e := Iterate(db);
        ResumesStep(goal, before, s, db);
        if stop {
          return e;
        }
        StepShrinks(s, db);
      }
    }

    /** One pass of the `for` loop of `AddBlock`, at `blkNum == chainedBlockNum + 1`:
        `stop` reports a `break` (with `err` None) or a `return` of an error. */
    method Iterate(db: Ledger) returns (stop: bool, err: Option<Error>)
      modifies this
      ensures var o := Step(old(State()), db);
              && stop == !o.Continue? && err == o.Returned()
              && State() == o.After(old(State())) && calls == old(calls) + o.Made()
    {
      ghost var s := State();
      ghost var step := Step(s, db);
      var blkNum := GetChainedBlockNum() + 1;
      if !Ready(pendingBlocks, blkNum) {
        assert step == Stop;
        return true, None;
      }
      var blk := pendingBlocks[blkNum].value;
      if needSubmitBlock {
        if Ready(pendingBlocks, blkNum - 1) {
          var submitBlk := pendingBlocks[blkNum - 1].value;
          var e := db.submitBlock(submitBlk.block, submitBlk.execResult);
          calls := calls + [LedgerCall(Submit, blkNum - 1)];
          if e.Some? && blkNum > GetChainedBlockNum() {
            assert step == Fail(s, [LedgerCall(Submit, blkNum - 1)], SubmitFailed(blkNum - 1, e.value));
            return true, Some(SubmitFailed(blkNum - 1, e.value));
          }
          if blkNum >= 2 && blkNum - 2 in pendingBlocks {
            pendingBlocks := pendingBlocks - {blkNum - 2};
          }
        } else {
          assert step == Stop;
          return true, None;
        }
      }
      ghost var pre := calls[|old(calls)|..];
      assert pre == SubmitCall(s.needSubmit, s.chained);
      var res := db.executeBlock(blk.block);
      calls := calls + [LedgerCall(Execute, blkNum)];
      if res.Failure? {
        assert step == Fail(State(), pre + [LedgerCall(Execute, blkNum)], ExecuteFailed(blkNum, res.error));
        return true, Some(ExecuteFailed(blkNum, res.error));
      }
      SetExecuteResult(blk.block.height, res.value);
      needSubmitBlock := true;
      calls := calls + [LedgerCall(Complete, blkNum)];
      chainedBlockNum := blkNum;
      assert step == Continue(State(), pre + [LedgerCall(Execute, blkNum), LedgerCall(Complete, blkNum)]);
      stop, err := false, None;
    }
  }
}
