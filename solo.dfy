/** The solo consensus service: a single node that, on every timer tick,
    builds a block from the transaction pool, checks it against the parent
    shard height it last persisted, has the ledger execute and store it, and
    then sends the block's outgoing cross-shard messages to their shards,
    grouped by destination, signed and chained to each destination's
    previous message hash. */
module Solo {
  import opened Common
  import opened Seqs
  import opened Increment

  type PublicKey = seq<byte>
  type Signature = seq<byte>
  type Address = seq<byte>

  /** A pooled transaction; `Hash()` is its content hash. */
  datatype Transaction = Transaction(hash: Hash, payload: seq<byte>)

  /** The ready outgoing cross-shard transactions, by destination shard. */
  type ShardTxs = map<nat, seq<seq<byte>>>

  datatype Header = Header(
    shardID: nat,
    parentHeight: nat,
    prevBlockHash: Hash,
    transactionsRoot: Hash,
    blockRoot: Hash,
    height: nat,
    nextBookkeeper: Address,
    bookkeepers: seq<PublicKey>,
    sigData: seq<Signature>)

  datatype Block = Block(header: Header, shardTxs: ShardTxs, transactions: seq<Transaction>)

  /** An outgoing inter-shard message (`CommonShardMsg`) and its destination. */
  datatype ShardMsg = ShardMsg(target: nat, payload: seq<byte>)

  /** Of an execution result, the messages the block emitted to other shards. */
  datatype ExecuteResult = ExecuteResult(shardNotify: seq<ShardMsg>)

  /** One destination's signed group hash. */
  datatype CrossShardMsgHash = CrossShardMsgHash(shardID: nat, msgHash: Hash, sigData: seq<Signature>)

  datatype CrossShardMsgInfo = CrossShardMsgInfo(
    fromShardID: nat,
    msgHeight: nat,
    signMsgHeight: nat,
    crossShardMsgRoot: Hash,
    shardMsgHashs: seq<CrossShardMsgHash>,
    preCrossShardMsgHash: Hash)

  /** The envelope sent to one destination shard. */
  datatype CrossShardMsg = CrossShardMsg(info: CrossShardMsgInfo, shardMsg: seq<ShardMsg>)

  /** One `Broadcast` call: the destination and the envelope whose
      serialization is the payload's data. */
  datatype CrossShardPayload = CrossShardPayload(shardID: nat, msg: CrossShardMsg)

  datatype LookupError = NotFound | StoreError(cause: string)

  /** Hashing and signing with the node's account, as oracles. */
  datatype Crypto = Crypto(
    sign: seq<byte> -> Result<Signature, string>,
    blockHash: Block -> Hash,
    merkleRoot: seq<Hash> -> Hash,
    msgsHash: seq<ShardMsg> -> Hash,
    addressFromBookkeepers: seq<PublicKey> -> Result<Address, string>)

  /** What the service reads from and writes to the ledger during one round. */
  datatype Ledger = Ledger(
    currentBlockHash: Hash,
    currentBlockHeight: nat,
    parentHeight: nat,
    hasParentBlockInCache: nat -> bool,
    blockRootWithNewTxRoots: (nat, seq<Hash>) -> Hash,
    crossShardTxs: Result<ShardTxs, string>,
    executeBlock: Block -> Result<ExecuteResult, string>,
    submitBlock: (Block, ExecuteResult) -> Option<string>,
    getShardMsgHash: nat -> Result<Hash, LookupError>)

  /** The collaborators of one round; `pool(h)` is `GetTxnPool(true, h)`. */
  datatype Env = Env(ledger: Ledger, crypto: Crypto, pool: nat -> seq<Transaction>)

  datatype MakeError = BookkeeperAddressFailed(cause: string) | SignFailed(cause: string)

  datatype GenError =
    | MakeFailed(makeError: MakeError)
    | InvalidParentHeight(stored: nat, got: nat)
    | ExecuteFailed(height: nat, cause: string)
    | SubmitFailed(height: nat, cause: string)

  /** The capacity the service gives its increment validator. */
  const IncrementCapacity: nat := 20

  // ---------------------------------------------------------------------
  // Block production
  // ---------------------------------------------------------------------

  /** The validator's window ends right after the current ledger height. */
  predicate InSync(w: Window, height: nat)
  {
    height + 1 == End(w)
  }

  /** The lower bound of the duplicate check: the window's start when the
      window is in step with the ledger, the ledger height otherwise. In step,
      the bound is therefore the oldest tracked height; either way it never
      exceeds the ledger height. */
  function ValidHeight(w: Window, height: nat): (r: nat)
    requires Valid(w)
    ensures r <= height
    ensures InSync(w, height) ==> r == w.start
    ensures !InSync(w, height) ==> r == height
  {
    if InSync(w, height) then w.start else height
  }

  /** In step, the bound reaches back to the oldest tracked height, so the
      check covers every height the validator still remembers. */
  lemma ValidHeightCoversWindow(w: Window, height: nat, h: Hash)
    requires Valid(w) && InSync(w, height)
    ensures Verify(w, h, ValidHeight(w, height)) <==> forall i :: 0 <= i < |w.blocks| ==> h !in w.blocks[i]
  {
  }

  /** The validator after the check: kept when in step, cleaned otherwise. */
  function SyncedWindow(w: Window, height: nat): (r: Window)
    requires Valid(w)
    ensures Valid(r) && r.maxBlocks == w.maxBlocks
    ensures InSync(w, height) ==> r == w
    ensures !InSync(w, height) ==> r.blocks == []
  {
    if InSync(w, height) then w else Clean(w)
  }

  /** The parent shard height the block claims: the ledger's, advanced by one
      exactly when the next parent block is already cached. */
  function ResolveParentHeight(parent: nat, cached: nat -> bool): (r: nat)
    ensures r == parent || r == parent + 1
    ensures r == parent + 1 <==> cached(parent + 1)
  {
    if cached(parent + 1) then parent + 1 else parent
  }

  /** The pool filter: the transaction passes the duplicate check. */
  function Passes(w: Window, bound: nat): Transaction -> bool
  {
    (tx: Transaction) => Verify(w, tx.hash, bound)
  }

  /** The hashes of `txs`, in the same order. */
  function TxHashes(txs: seq<Transaction>): (r: seq<Hash>)
    ensures |r| == |txs|
    ensures forall i :: 0 <= i < |txs| ==> r[i] == txs[i].hash
  {
    if txs == [] then [] else TxHashes(txs[..|txs| - 1]) + [txs[|txs| - 1].hash]
  }

  /** The first loop of `makeBlock`: keeps, in pool order, the pooled
      transactions that pass the duplicate check. */
  method FilterPool(txs: seq<Transaction>, w: Window, bound: nat) returns (transactions: seq<Transaction>)
    ensures transactions == Filter(txs, Passes(w, bound))
  {
    transactions := [];
    for i := 0 to |txs|
      invariant transactions == Filter(txs[..i], Passes(w, bound))
    {
      assert txs[..i + 1] == txs[..i] + [txs[i]];
      FilterSnoc(txs[..i], txs[i], Passes(w, bound));
      if Verify(w, txs[i].hash, bound) {
        transactions := transactions + [txs[i]];
      }
    }
    assert txs[..|txs|] == txs;
  }

  /** The second loop of `makeBlock`: the transaction hashes, in block order. */
  method CollectTxHashes(transactions: seq<Transaction>) returns (txHash: seq<Hash>)
    ensures txHash == TxHashes(transactions)
  {
    txHash := [];
    for i := 0 to |transactions|
      invariant txHash == TxHashes(transactions[..i])
    {
      assert transactions[..i + 1][..i] == transactions[..i];
      txHash := txHash + [transactions[i].hash];
    }
    assert transactions[..|transactions|] == transactions;
  }

  /** The header and body before signing, from the ledger snapshot, the
      bookkeeper address and the selected transactions. */
  function Unsigned(ledger: Ledger, crypto: Crypto, shardID: nat, nextBookkeeper: Address, txs: seq<Transaction>): Block
  {
    var height := ledger.currentBlockHeight;
    var txRoot := crypto.merkleRoot(TxHashes(txs));
    var header := Header(
      shardID,
      ResolveParentHeight(ledger.parentHeight, ledger.hasParentBlockInCache),
      ledger.currentBlockHash,
      txRoot,
      ledger.blockRootWithNewTxRoots(height + 1, [txRoot]),
      height + 1,
      nextBookkeeper,
      [],
      []);
    var shardTxs := if ledger.crossShardTxs.Success? then ledger.crossShardTxs.value else map[];
    Block(header, shardTxs, txs)
  }

  /** `makeBlock`: the validator it leaves behind and the block or error. */
  function Make(env: Env, shardID: nat, owner: PublicKey, w: Window): (Window, Result<Block, MakeError>)
    requires Valid(w)
  {
    var address := env.crypto.addressFromBookkeepers([owner]);
    if address.Failure? then (w, Failure(BookkeeperAddressFailed(address.error)))
    else
      var height := env.ledger.currentBlockHeight;
      var bound := ValidHeight(w, height);
      var synced := SyncedWindow(w, height);
      var block := Unsigned(env.ledger, env.crypto, shardID, address.value, Filter(env.pool(bound), Passes(synced, bound)));
      var sig := env.crypto.sign(env.crypto.blockHash(block));
      if sig.Failure? then (synced, Failure(SignFailed(sig.error)))
      else (synced, Success(block.(header := block.header.(bookkeepers := [owner], sigData := [sig.value]))))
  }

  /** Production fails exactly when the bookkeeper address cannot be derived
      or the block hash cannot be signed; the validator is cleaned exactly
      when the address was derived and the window is out of step. */
  lemma MakeFails(env: Env, shardID: nat, owner: PublicKey, w: Window)
    requires Valid(w)
    ensures var (w', r) := Make(env, shardID, owner, w);
      var address := env.crypto.addressFromBookkeepers([owner]);
      var height := env.ledger.currentBlockHeight;
      var bound := ValidHeight(w, height);
      (r.Failure? <==> (address.Failure? ||
        env.crypto.sign(env.crypto.blockHash(Unsigned(env.ledger, env.crypto, shardID, address.value,
          Filter(env.pool(bound), Passes(SyncedWindow(w, height), bound))))).Failure?)) &&
      (w' == if address.Failure? || InSync(w, height) then w else Clean(w))
  {
  }

  /** The produced header: the next height on top of the current block, the
      resolved parent height, the merkle root of the block's own transaction
      hashes in block order, and exactly the node's key with one signature,
      over the hash of the block before the signers were filled in. */
  lemma MakeHeader(env: Env, shardID: nat, owner: PublicKey, w: Window)
    requires Valid(w)
    ensures var (_, r) := Make(env, shardID, owner, w);
      var ledger := env.ledger;
      r.Success? ==>
        var h := r.value.header;
        h.height == ledger.currentBlockHeight + 1 &&
        h.prevBlockHash == ledger.currentBlockHash &&
        h.shardID == shardID &&
        h.parentHeight == ResolveParentHeight(ledger.parentHeight, ledger.hasParentBlockInCache) &&
        h.transactionsRoot == env.crypto.merkleRoot(TxHashes(r.value.transactions)) &&
        h.blockRoot == ledger.blockRootWithNewTxRoots(h.height, [h.transactionsRoot]) &&
        h.bookkeepers == [owner] &&
        |h.sigData| == 1 &&
        env.crypto.sign(env.crypto.blockHash(r.value.(header := h.(bookkeepers := [], sigData := [])))) == Success(h.sigData[0])
  {
  }

  /** The block's transactions are exactly the pool snapshot's entries that
      pass the duplicate check at the chosen bound, in pool order. */
  lemma {:induction false} MakeSelectsFromPool(env: Env, shardID: nat, owner: PublicKey, w: Window)
    requires Valid(w)
    ensures var (w', r) := Make(env, shardID, owner, w);
      var bound := ValidHeight(w, env.ledger.currentBlockHeight);
      var pool := env.pool(bound);
      r.Success? ==>
        var txs := r.value.transactions;
        var kept := Kept(pool, Passes(w', bound));
        (forall tx :: tx in txs <==> tx in pool && Verify(w', tx.hash, bound)) &&
        |kept| == |txs| && StrictlyIncreasing(kept) &&
        (forall k :: 0 <= k < |kept| ==> kept[k] < |pool| && txs[k] == pool[kept[k]])
  {
    var (w', r) := Make(env, shardID, owner, w);
    var bound := ValidHeight(w, env.ledger.currentBlockHeight);
    var pool := env.pool(bound);
    if r.Success? {
      var p := Passes(w', bound);
      assert r.value.transactions == Filter(pool, p);
      FilterIsOrderedSelection(pool, p);
      forall tx
        ensures tx in Filter(pool, p) <==> tx in pool && Verify(w', tx.hash, bound)
      {
        FilterMembership(pool, p, tx);
      }
    }
  }

  /** With the validator in step, no transaction committed at any tracked
      height makes it into the block. */
  lemma {:induction false} MakeRejectsReplays(env: Env, shardID: nat, owner: PublicKey, w: Window)
    requires Valid(w) && InSync(w, env.ledger.currentBlockHeight)
    ensures var (_, r) := Make(env, shardID, owner, w);
      r.Success? ==> forall tx, i :: tx in r.value.transactions && 0 <= i < |w.blocks| ==> tx.hash !in w.blocks[i]
  {
    var (w', r) := Make(env, shardID, owner, w);
    var bound := ValidHeight(w, env.ledger.currentBlockHeight);
    if r.Success? {
      assert w' == w && bound == w.start;
      forall tx, i | tx in r.value.transactions && 0 <= i < |w.blocks|
        ensures tx.hash !in w.blocks[i]
      {
        FilterMembership(env.pool(bound), Passes(w, bound), tx);
      }
    }
  }

  /** `genBlock` after `makeBlock`: the parent-height order check, then
      execution and submission; success carries the block and its result. */
  function Gen(stored: nat, made: Result<Block, MakeError>, ledger: Ledger): (r: Result<(Block, ExecuteResult), GenError>)
    ensures r.Success? ==> made == Success(r.value.0) && stored <= r.value.0.header.parentHeight
    ensures r.Success? ==> ledger.executeBlock(r.value.0) == Success(r.value.1) && ledger.submitBlock(r.value.0, r.value.1).None?
    ensures r.Success? <==>
      made.Success? && stored <= made.value.header.parentHeight &&
      ledger.executeBlock(made.value).Success? &&
      ledger.submitBlock(made.value, ledger.executeBlock(made.value).value).None?
    ensures made.Failure? ==> r == Failure(MakeFailed(made.error))
    ensures made.Success? && made.value.header.parentHeight < stored ==>
      r == Failure(InvalidParentHeight(stored, made.value.header.parentHeight))
    ensures made.Success? && stored <= made.value.header.parentHeight ==>
      var block := made.value;
      var result := ledger.executeBlock(block);
      (result.Failure? ==> r == Failure(ExecuteFailed(block.header.height, result.error))) &&
      (result.Success? && ledger.submitBlock(block, result.value).Some? ==>
        r == Failure(SubmitFailed(block.header.height, ledger.submitBlock(block, result.value).value)))
  {
    if made.Failure? then Failure(MakeFailed(made.error))
    else
      var block := made.value;
      if stored > block.header.parentHeight then Failure(InvalidParentHeight(stored, block.header.parentHeight))
      else
        var result := ledger.executeBlock(block);
        if result.Failure? then Failure(ExecuteFailed(block.header.height, result.error))
        else
          var err := ledger.submitBlock(block, result.value);
          if err.Some? then Failure(SubmitFailed(block.header.height, err.value))
          else Success((block, result.value))
  }

  /** The stored parent height after a round: the persisted block's on
      success, unchanged on any failure, so it never decreases. */
  function NextParentHeight(stored: nat, g: Result<(Block, ExecuteResult), GenError>): (r: nat)
    requires g.Success? ==> stored <= g.value.0.header.parentHeight
    ensures stored <= r
    ensures g.Success? ==> r == g.value.0.header.parentHeight
    ensures g.Failure? ==> r == stored
  {
    if g.Success? then g.value.0.header.parentHeight else stored
  }

  // ---------------------------------------------------------------------
  // Cross-shard dispatch
  // ---------------------------------------------------------------------

  /** The messages for shard `k`. */
  function ForShard(k: nat): ShardMsg -> bool
  {
    (x: ShardMsg) => x.target == k
  }

  function Group(groups: map<nat, seq<ShardMsg>>, k: nat): seq<ShardMsg>
  {
    if k in groups then groups[k] else []
  }

  /** `shardMsgMap`: the messages grouped by destination, each group in
      arrival order. */
  function GroupBy(s: seq<ShardMsg>): map<nat, seq<ShardMsg>>
  {
    if s == [] then map[]
    else
      var groups := GroupBy(s[..|s| - 1]);
      var x := s[|s| - 1];
      groups[x.target := Group(groups, x.target) + [x]]
  }

  /** Grouping puts every message in the group of its target, and each group
      is exactly its shard's messages in arrival order; there is a group for a
      shard exactly when some message goes there. */
  lemma {:induction false} GroupByIsFilter(s: seq<ShardMsg>)
    ensures forall k :: Group(GroupBy(s), k) == Filter(s, ForShard(k))
    ensures forall k :: k in GroupBy(s) <==> Filter(s, ForShard(k)) != []
  {
    if s != [] {
      var t, x := s[..|s| - 1], s[|s| - 1];
      GroupByIsFilter(t);
      assert s == t + [x];
      forall k
        ensures Group(GroupBy(s), k) == Filter(s, ForShard(k))
        ensures k in GroupBy(s) <==> Filter(s, ForShard(k)) != []
      {
        FilterSnoc(t, x, ForShard(k));
      }
    }
  }

  /** `order` lists every key of the groups once: one iteration order of the
      Go map. */
  ghost predicate IsOrdering(order: seq<nat>, keys: set<nat>)
  {
    (forall i, j :: 0 <= i < j < |order| ==> order[i] != order[j]) &&
    (forall k :: k in keys <==> k in order)
  }

  predicate Signable(groups: map<nat, seq<ShardMsg>>, crypto: Crypto, k: nat)
  {
    k in groups && crypto.sign(crypto.msgsHash(groups[k])).Success?
  }

  /** Every shard of `order` has a group whose hash signs. */
  predicate AllSignable(order: seq<nat>, groups: map<nat, seq<ShardMsg>>, crypto: Crypto)
  {
    forall i :: 0 <= i < |order| ==> Signable(groups, crypto, order[i])
  }

  /** Some group's hash cannot be signed. */
  ghost predicate SignFails(groups: map<nat, seq<ShardMsg>>, crypto: Crypto)
  {
    exists k :: k in groups && !Signable(groups, crypto, k)
  }

  function Entry(groups: map<nat, seq<ShardMsg>>, crypto: Crypto, k: nat): CrossShardMsgHash
    requires Signable(groups, crypto, k)
  {
    var msgHash := crypto.msgsHash(groups[k]);
    CrossShardMsgHash(k, msgHash, [crypto.sign(msgHash).value])
  }

  /** `crossShardMsgs.CrossMsgs` when the map is visited in `order`. */
  function Entries(order: seq<nat>, groups: map<nat, seq<ShardMsg>>, crypto: Crypto): (r: seq<CrossShardMsgHash>)
    requires AllSignable(order, groups, crypto)
    ensures |r| == |order|
    ensures forall i :: 0 <= i < |order| ==> r[i] == Entry(groups, crypto, order[i]) && r[i].shardID == order[i]
  {
    if order == [] then []
    else Entries(order[..|order| - 1], groups, crypto) + [Entry(groups, crypto, order[|order| - 1])]
  }

  function MsgHashes(entries: seq<CrossShardMsgHash>): (r: seq<Hash>)
    ensures |r| == |entries|
    ensures forall i :: 0 <= i < |entries| ==> r[i] == entries[i].msgHash
  {
    if entries == [] then [] else MsgHashes(entries[..|entries| - 1]) + [entries[|entries| - 1].msgHash]
  }

  /** The chain link to the destination's previous hash: the stored one when
      the lookup succeeds, the zero hash when it fails for any reason. */
  function PreHash(ledger: Ledger, k: nat): (r: Hash)
    ensures ledger.getShardMsgHash(k).Success? ==> r == ledger.getShardMsgHash(k).value
    ensures ledger.getShardMsgHash(k).Failure? ==> r == ZeroHash
  {
    var found := ledger.getShardMsgHash(k);
    if found.Success? then found.value else ZeroHash
  }

  function Envelope(from: nat, blkNum: nat, root: Hash, entries: seq<CrossShardMsgHash>,
                    groups: map<nat, seq<ShardMsg>>, ledger: Ledger, k: nat): CrossShardPayload
    requires k in groups
  {
    CrossShardPayload(k, CrossShardMsg(CrossShardMsgInfo(from, blkNum, blkNum, root, entries, PreHash(ledger, k)), groups[k]))
  }

  /** One broadcast per entry of `todo`, in that order. */
  function Envelopes(from: nat, blkNum: nat, root: Hash, entries: seq<CrossShardMsgHash>, todo: seq<CrossShardMsgHash>,
                     groups: map<nat, seq<ShardMsg>>, ledger: Ledger): (r: seq<CrossShardPayload>)
    requires forall i :: 0 <= i < |todo| ==> todo[i].shardID in groups
    ensures |r| == |todo|
    ensures forall i :: 0 <= i < |todo| ==> r[i] == Envelope(from, blkNum, root, entries, groups, ledger, todo[i].shardID)
  {
    if todo == [] then []
    else
      Envelopes(from, blkNum, root, entries, todo[..|todo| - 1], groups, ledger)
        + [Envelope(from, blkNum, root, entries, groups, ledger, todo[|todo| - 1].shardID)]
  }

  /** The broadcasts of a dispatch whose map is visited in `order`. */
  function Dispatch(from: nat, blkNum: nat, order: seq<nat>, groups: map<nat, seq<ShardMsg>>, crypto: Crypto, ledger: Ledger): seq<CrossShardPayload>
    requires AllSignable(order, groups, crypto)
  {
    var entries := Entries(order, groups, crypto);
    Envelopes(from, blkNum, crypto.merkleRoot(MsgHashes(entries)), entries, entries, groups, ledger)
  }

  /** The grouping loop of `broadCrossShardHashMsgs`: appends each message
      to its target's group. */
  method GroupShardMsgs(shardMsgs: seq<ShardMsg>) returns (shardMsgMap: map<nat, seq<ShardMsg>>)
    ensures shardMsgMap == GroupBy(shardMsgs)
  {
    shardMsgMap := map[];
    for i := 0 to |shardMsgs|
      invariant shardMsgMap == GroupBy(shardMsgs[..i])
    {
      assert shardMsgs[..i + 1][..i] == shardMsgs[..i];
      var msg := shardMsgs[i];
      shardMsgMap := shardMsgMap[msg.target := Group(shardMsgMap, msg.target) + [msg]];
    }
    assert shardMsgs[..|shardMsgs|] == shardMsgs;
  }

  /** The signing loop of `broadCrossShardHashMsgs`: visits the groups in
      some order (Go leaves map order unspecified), hashing and signing each;
      the first signing failure stops it with nothing built. On success,
      `order` is the visiting order and the entries are signed in it. */
  method SignGroups(groups: map<nat, seq<ShardMsg>>, crypto: Crypto)
    returns (crossMsgs: Option<seq<CrossShardMsgHash>>, ghost order: seq<nat>)
    ensures crossMsgs.None? ==> SignFails(groups, crypto)
    ensures crossMsgs.Some? ==>
      IsOrdering(order, groups.Keys) && AllSignable(order, groups, crypto) &&
      crossMsgs.value == Entries(order, groups, crypto)
  {
    var entries: seq<CrossShardMsgHash> := [];
    order := [];
    var remaining := groups.Keys;
    while remaining != {}
      invariant remaining <= groups.Keys
      invariant forall k :: k in groups ==> (k in order <==> k !in remaining)
      invariant forall i, j :: 0 <= i < j < |order| ==> order[i] != order[j]
      invariant AllSignable(order, groups, crypto)
      invariant entries == Entries(order, groups, crypto)
      decreases |remaining|
    {
      var shardID :| shardID in remaining;
      var msgHash := crypto.msgsHash(groups[shardID]);
      var sig := crypto.sign(msgHash);
      if sig.Failure? {
        assert !Signable(groups, crypto, shardID);
        return None, order;
      }
      EntriesSnoc(order, groups, crypto, shardID);
      entries := entries + [CrossShardMsgHash(shardID, msgHash, [sig.value])];
      order := order + [shardID];
      remaining := remaining - {shardID};
    }
    crossMsgs := Some(entries);
  }

  /** Signing one more group extends the entries by that group's entry. */
  lemma EntriesSnoc(order: seq<nat>, groups: map<nat, seq<ShardMsg>>, crypto: Crypto, k: nat)
    requires AllSignable(order, groups, crypto) && Signable(groups, crypto, k)
    ensures AllSignable(order + [k], groups, crypto)
    ensures Entries(order + [k], groups, crypto) == Entries(order, groups, crypto) + [Entry(groups, crypto, k)]
  {
    assert (order + [k])[..|order|] == order;
  }

  /** The hash-list loop of `broadCrossShardHashMsgs`. */
  method CollectMsgHashes(crossMsgs: seq<CrossShardMsgHash>) returns (hashes: seq<Hash>)
    ensures hashes == MsgHashes(crossMsgs)
  {
    hashes := [];
    for i := 0 to |crossMsgs|
      invariant hashes == MsgHashes(crossMsgs[..i])
    {
      assert crossMsgs[..i + 1][..i] == crossMsgs[..i];
      hashes := hashes + [crossMsgs[i].msgHash];
    }
    assert crossMsgs[..|crossMsgs|] == crossMsgs;
  }

  /** The broadcast loop of `broadCrossShardHashMsgs`: one envelope per
      signed entry, linked to the destination's previous hash when the ledger
      has one. */
  method SendEnvelopes(from: nat, blkNum: nat, msgRoot: Hash, crossMsgs: seq<CrossShardMsgHash>,
                       groups: map<nat, seq<ShardMsg>>, ledger: Ledger) returns (sent: seq<CrossShardPayload>)
    requires forall i :: 0 <= i < |crossMsgs| ==> crossMsgs[i].shardID in groups
    ensures sent == Envelopes(from, blkNum, msgRoot, crossMsgs, crossMsgs, groups, ledger)
  {
    sent := [];
    for i := 0 to |crossMsgs|
      invariant sent == Envelopes(from, blkNum, msgRoot, crossMsgs, crossMsgs[..i], groups, ledger)
    {
      assert crossMsgs[..i + 1][..i] == crossMsgs[..i];
      var crossMsg := crossMsgs[i];
      var shardMsg := groups[crossMsg.shardID];
      var preMsgHash := ledger.getShardMsgHash(crossMsg.shardID);
      var pre := ZeroHash;
      if preMsgHash.Success? {
        pre := preMsgHash.value;
      }
      var info := CrossShardMsgInfo(from, blkNum, blkNum, msgRoot, crossMsgs, pre);
      sent := sent + [CrossShardPayload(crossMsg.shardID, CrossShardMsg(info, shardMsg))];
    }
    assert crossMsgs[..|crossMsgs|] == crossMsgs;
  }

  /** What `broadCrossShardHashMsgs` may broadcast: nothing for no messages
      or when any group fails to sign, and otherwise the dispatch for some
      iteration order of the groups. */
  ghost predicate Broadcasts(from: nat, blkNum: nat, msgs: seq<ShardMsg>, crypto: Crypto, ledger: Ledger, sent: seq<CrossShardPayload>)
  {
    var groups := GroupBy(msgs);
    if msgs == [] || SignFails(groups, crypto) then sent == []
    else exists order :: IsOrdering(order, groups.Keys) && sent == Dispatch(from, blkNum, order, groups, crypto, ledger)
  }

  /** Whatever the iteration order, a dispatch sends one envelope per
      destination, in visiting order, carrying exactly that destination's
      messages in arrival order. */
  lemma {:induction false} DispatchShape(from: nat, blkNum: nat, msgs: seq<ShardMsg>, order: seq<nat>, crypto: Crypto, ledger: Ledger)
    requires AllSignable(order, GroupBy(msgs), crypto)
    ensures var sent := Dispatch(from, blkNum, order, GroupBy(msgs), crypto, ledger);
      |sent| == |order| &&
      forall i :: 0 <= i < |sent| ==> sent[i].shardID == order[i] && sent[i].msg.shardMsg == Filter(msgs, ForShard(order[i]))
  {
    var groups := GroupBy(msgs);
    var entries := Entries(order, groups, crypto);
    var sent := Dispatch(from, blkNum, order, groups, crypto, ledger);
    GroupByIsFilter(msgs);
    forall i | 0 <= i < |sent|
      ensures sent[i].shardID == order[i] && sent[i].msg.shardMsg == Filter(msgs, ForShard(order[i]))
    {
      assert entries[i].shardID == order[i];
      assert sent[i] == Envelope(from, blkNum, crypto.merkleRoot(MsgHashes(entries)), entries, groups, ledger, order[i]);
      assert Group(groups, order[i]) == groups[order[i]];
    }
  }

  /** Every message of a dispatch is delivered in exactly one envelope: the
      one for its target shard, which exists and is sent once. */
  lemma {:induction false} DispatchDelivers(from: nat, blkNum: nat, msgs: seq<ShardMsg>, order: seq<nat>, crypto: Crypto, ledger: Ledger)
    requires IsOrdering(order, GroupBy(msgs).Keys)
    requires AllSignable(order, GroupBy(msgs), crypto)
    ensures var sent := Dispatch(from, blkNum, order, GroupBy(msgs), crypto, ledger);
      (forall i, j :: 0 <= i < j < |sent| ==> sent[i].shardID != sent[j].shardID) &&
      (forall x, i :: x in msgs && 0 <= i < |sent| ==> (x in sent[i].msg.shardMsg <==> x.target == sent[i].shardID)) &&
      (forall x :: x in msgs ==> exists i :: 0 <= i < |sent| && sent[i].shardID == x.target)
  {
    var groups := GroupBy(msgs);
    var sent := Dispatch(from, blkNum, order, groups, crypto, ledger);
    DispatchShape(from, blkNum, msgs, order, crypto, ledger);
    forall x, i | x in msgs && 0 <= i < |sent|
      ensures x in sent[i].msg.shardMsg <==> x.target == sent[i].shardID
    {
      FilterMembership(msgs, ForShard(order[i]), x);
    }
    forall x | x in msgs
      ensures exists i :: 0 <= i < |sent| && sent[i].shardID == x.target
    {
      GroupByIsFilter(msgs);
      FilterMembership(msgs, ForShard(x.target), x);
      assert x in Filter(msgs, ForShard(x.target));
      assert x.target in groups;
      var i :| 0 <= i < |order| && order[i] == x.target;
      assert sent[i].shardID == x.target;
    }
  }

  /** Every envelope of a dispatch names the sending shard and the height
      twice, carries the same per-height merkle root over all group hashes
      and the same signed hash list — one signed entry per destination in
      visiting order — and links to its own destination's previous hash. */
  lemma DispatchEnvelopes(from: nat, blkNum: nat, order: seq<nat>, groups: map<nat, seq<ShardMsg>>, crypto: Crypto, ledger: Ledger)
    requires AllSignable(order, groups, crypto)
    ensures var sent := Dispatch(from, blkNum, order, groups, crypto, ledger);
      var entries := Entries(order, groups, crypto);
      (forall i :: 0 <= i < |entries| ==>
        entries[i].shardID == order[i] &&
        entries[i].msgHash == crypto.msgsHash(groups[order[i]]) &&
        entries[i].sigData == [crypto.sign(entries[i].msgHash).value]) &&
      (forall i :: 0 <= i < |sent| ==>
        sent[i].msg.info == CrossShardMsgInfo(from, blkNum, blkNum, crypto.merkleRoot(MsgHashes(entries)), entries, PreHash(ledger, order[i])))
  {
  }

  // ---------------------------------------------------------------------
  // The service
  // ---------------------------------------------------------------------

  /** The mailbox messages the service reacts to. */
  datatype Message =
    | Restarting
    | Stopping
    | Stopped
    | Started
    | Restart
    | StartConsensus
    | StopConsensus
    | SaveBlockComplete(block: Block)
    | TimeOut
    | Unknown

  function TxHashSet(txs: seq<Transaction>): (r: set<Hash>)
    ensures forall tx :: tx in txs ==> tx.hash in r
    ensures forall h :: h in r ==> exists tx :: tx in txs && tx.hash == h
  {
    set tx | tx in txs :: tx.hash
  }

  class SoloService {
    const shardID: nat
    /** The public key of the node's account. */
    const owner: PublicKey
    var validator: Window
    /** `existCh != nil`: the production timer is running. */
    var started: bool
    /** Subscribed to the save-block-complete topic. */
    var subscribed: bool
    /** The parent shard height of the last block this node persisted. */
    var parentHeight: nat

    predicate Valid()
      reads this
    {
      Increment.Valid(validator)
    }

    /** The service as `NewSoloService` sets it up, with `parentHeight` read
        from the current block header. */
    constructor (shardID: nat, owner: PublicKey, parentHeight: nat)
      ensures Valid()
      ensures this.shardID == shardID && this.owner == owner && this.parentHeight == parentHeight
      ensures validator == NewIncrementValidator(IncrementCapacity) && !started && !subscribed
    {
      this.shardID := shardID;
      this.owner := owner;
      this.parentHeight := parentHeight;
      validator := NewIncrementValidator(IncrementCapacity);
      started := false;
      subscribed := false;
    }

    /** `NewSoloService`: fails when the current block header cannot be read. */
    static method NewSoloService(shardID: nat, owner: PublicKey, currentHeader: Result<Header, string>)
      returns (r: Result<SoloService, string>)
      ensures r.Failure? <==> currentHeader.Failure?
      ensures r.Success? ==>
        fresh(r.value) && r.value.Valid() && r.value.parentHeight == currentHeader.value.parentHeight &&
        r.value.validator == NewIncrementValidator(IncrementCapacity) && !r.value.started
    {
      if currentHeader.Failure? {
        return Failure(currentHeader.error);
      }
      var service := new SoloService(shardID, owner, currentHeader.value.parentHeight);
      return Success(service);
    }

    /** The duplicate-check bound of `makeBlock`, cleaning a validator that
        is out of step with the ledger. */
    method SyncValidator(height: nat) returns (validHeight: nat)
      requires Valid()
      modifies this
      ensures Valid()
      ensures validHeight == ValidHeight(old(validator), height) && validator == SyncedWindow(old(validator), height)
      ensures started == old(started) && subscribed == old(subscribed) && parentHeight == old(parentHeight)
    {
      validHeight := height;
      var range := BlockRange(validator);
      var start, end := range.0, range.1;
      if height + 1 == end {
        validHeight := start;
      } else {
        validator := Clean(validator);
      }
    }

    /** `makeBlock`. */
    method MakeBlock(env: Env) returns (r: Result<Block, MakeError>)
      requires Valid()
      modifies this
      ensures Valid()
      ensures validator == Make(env, shardID, owner, old(validator)).0
      ensures r == Make(env, shardID, owner, old(validator)).1
      ensures started == old(started) && subscribed == old(subscribed) && parentHeight == old(parentHeight)
    {
      ghost var w := validator;
      var nextBookkeeper := env.crypto.addressFromBookkeepers([owner]);
      if nextBookkeeper.Failure? {
        return Failure(BookkeeperAddressFailed(nextBookkeeper.error));
      }
      var prevHash := env.ledger.currentBlockHash;
      var height := env.ledger.currentBlockHeight;

      var validHeight := SyncValidator(height);
      var txs := env.pool(validHeight);

      var transactions := FilterPool(txs, validator, validHeight);
      var txHash := CollectTxHashes(transactions);
      var txRoot := env.crypto.merkleRoot(txHash);
      var blockRoot := env.ledger.blockRootWithNewTxRoots(height + 1, [txRoot]);

      var parent := ResolveParentHeight(env.ledger.parentHeight, env.ledger.hasParentBlockInCache);
      var shardTxs: ShardTxs := if env.ledger.crossShardTxs.Success? then env.ledger.crossShardTxs.value else map[];
      var header := Header(shardID, parent, prevHash, txRoot, blockRoot, height + 1, nextBookkeeper.value, [], []);
      var block := Block(header, shardTxs, transactions);
      assert block == Unsigned(env.ledger, env.crypto, shardID, nextBookkeeper.value, transactions);

      var blockHash := env.crypto.blockHash(block);
      var sig := env.crypto.sign(blockHash);
      ghost var made := Make(env, shardID, owner, w);
      if sig.Failure? {
        assert made == (validator, Failure(SignFailed(sig.error)));
        return Failure(SignFailed(sig.error));
      }
      block := block.(header := block.header.(bookkeepers := [owner], sigData := [sig.value]));
      assert made == (validator, Success(block));
      return Success(block);
    }

    /** `genBlock`: makes a block, refuses one whose parent height is below
        the stored one, has it executed and submitted, dispatches its
        cross-shard messages and only then records its parent height. */
    method GenBlock(env: Env) returns (err: Option<GenError>, sent: seq<CrossShardPayload>)
      requires Valid()
      modifies this
      ensures Valid()
      ensures var made := Make(env, shardID, owner, old(validator));
        var g := Gen(old(parentHeight), made.1, env.ledger);
        validator == made.0 &&
        parentHeight == NextParentHeight(old(parentHeight), g) &&
        (g.Failure? ==> err == Some(g.error) && sent == []) &&
        (g.Success? ==> err.None? && Broadcasts(shardID, g.value.0.header.height, g.value.1.shardNotify, env.crypto, env.ledger, sent))
      ensures old(parentHeight) <= parentHeight
      ensures started == old(started) && subscribed == old(subscribed)
    {
      ghost var stored := parentHeight;
      var made := MakeBlock(env);
      ghost var g := Gen(stored, made, env.ledger);
      if made.Failure? {
        return Some(MakeFailed(made.error)), [];
      }
      var block := made.value;
      if parentHeight > block.header.parentHeight {
        return Some(InvalidParentHeight(parentHeight, block.header.parentHeight)), [];
      }
      var result := env.ledger.executeBlock(block);
      if result.Failure? {
        return Some(ExecuteFailed(block.header.height, result.error)), [];
      }
      var submitted := env.ledger.submitBlock(block, result.value);
      if submitted.Some? {
        return Some(SubmitFailed(block.header.height, submitted.value)), [];
      }
      assert g == Success((block, result.value));
      sent := BroadCrossShardHashMsgs(block.header.height, result.value.shardNotify, env);
      parentHeight := block.header.parentHeight;
      err := None;
    }

    /** `broadCrossShardHashMsgs`: groups the messages by destination, signs
        every group's hash (any failure abandons the whole dispatch before
        anything is sent), and sends each destination one envelope. */
    method BroadCrossShardHashMsgs(blkNum: nat, shardMsgs: seq<ShardMsg>, env: Env) returns (sent: seq<CrossShardPayload>)
      ensures Broadcasts(shardID, blkNum, shardMsgs, env.crypto, env.ledger, sent)
    {
      if |shardMsgs| == 0 {
        return [];
      }
      var shardMsgMap := GroupShardMsgs(shardMsgs);
      var signed;
      ghost var order;
      signed, order := SignGroups(shardMsgMap, env.crypto);
      if signed.None? {
        return [];
      }
      var crossMsgs := signed.value;
      var hashes := CollectMsgHashes(crossMsgs);
      var msgRoot := env.crypto.merkleRoot(hashes);
      sent := SendEnvelopes(shardID, blkNum, msgRoot, crossMsgs, shardMsgMap, env.ledger);
      assert IsOrdering(order, shardMsgMap.Keys) && sent == Dispatch(shardID, blkNum, order, shardMsgMap, env.crypto, env.ledger);
    }

    /** `Receive`: the mailbox handler. Starting is idempotent, stopping a
        running service cleans the validator, a persisted block of this shard
        is folded into the validator, and a timer tick produces a block. */
    method Receive(msg: Message, env: Env) returns (sent: seq<CrossShardPayload>)
      requires Valid()
      modifies this
      ensures Valid()
      ensures msg.StartConsensus? ==>
        started && parentHeight == old(parentHeight) && validator == old(validator) &&
        (old(started) ==> subscribed == old(subscribed)) &&
        (!old(started) ==> subscribed)
      ensures msg.StopConsensus? ==>
        !started && parentHeight == old(parentHeight) &&
        (old(started) ==> validator == Clean(old(validator)) && !subscribed) &&
        (!old(started) ==> validator == old(validator) && subscribed == old(subscribed))
      ensures msg.SaveBlockComplete? ==>
        started == old(started) && subscribed == old(subscribed) && parentHeight == old(parentHeight) &&
        validator == (if msg.block.header.shardID == shardID
                      then AddBlock(old(validator), msg.block.header.height, TxHashSet(msg.block.transactions))
                      else old(validator))
      ensures msg.TimeOut? ==>
        started == old(started) && subscribed == old(subscribed) &&
        var made := Make(env, shardID, owner, old(validator));
        var g := Gen(old(parentHeight), made.1, env.ledger);
        validator == made.0 && old(parentHeight) <= parentHeight &&
        parentHeight == NextParentHeight(old(parentHeight), g) &&
        (g.Failure? ==> sent == []) &&
        (g.Success? ==> Broadcasts(shardID, g.value.0.header.height, g.value.1.shardNotify, env.crypto, env.ledger, sent))
      ensures !msg.TimeOut? ==> sent == []
      ensures !(msg.StartConsensus? || msg.StopConsensus? || msg.SaveBlockComplete? || msg.TimeOut?) ==>
        started == old(started) && subscribed == old(subscribed) && parentHeight == old(parentHeight) && validator == old(validator)
    {
      sent := [];
      match msg {
        case StartConsensus =>
          if !started {
            subscribed := true;
            started := true;
          }
        case StopConsensus =>
          if started {
            started := false;
            validator := Clean(validator);
            subscribed := false;
          }
        case SaveBlockComplete(block) =>
          if shardID == block.header.shardID {
            validator := AddBlock(validator, block.header.height, TxHashSet(block.transactions));
          }
        case TimeOut =>
          var err;
          err, sent := GenBlock(env);
        case _ =>
      }
    }
  }
}
