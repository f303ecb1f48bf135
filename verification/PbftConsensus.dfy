/** The consensus state of one node (pbft_impl.go, block.go). Messages hold blocks by reference, and the same block can
    be in a message and in the logs, so every step that rewrites the votes of a block can change the logs. */
module PbftConsensus {
  import opened Machine

  newtype int64 = x: int | -0x8000_0000_0000_0000 <= x < 0x8000_0000_0000_0000

  /** Hashes and node identifiers, as numbers; 0 is the zero value. */
  type Hash = nat
  type NodeID = nat
  type Signature = seq<uint32>

  /** The number of faulty nodes. */
  const F: nat := 1

  datatype Option<T> = None | Some(value: T)
  datatype Stage = Idle | PrePrepared | Prepared | Committed
  datatype MsgType = PrepareMsg | CommitMsg
  datatype Transaction = Transaction(clientID: string, contract: string, func: string, args: seq<string>)
  datatype PrePrepareMsg = PrePrepareMsg(viewID: uint64, sequenceID: int64, nodeName: string, nodeID: NodeID, block: Block)
  datatype VoteMsg =
    VoteMsg(msgType: MsgType, viewID: uint64, sequenceID: int64, nodeName: string, nodeID: NodeID, block: Block)
  datatype RequestMsg =
    RequestMsg(timestamp: uint64, clientID: string, clientUrl: string, operation: string, args: seq<string>, sequenceID: int64)
  datatype ReplyMsg = ReplyMsg(viewID: uint64, nodeID: NodeID, nodeName: string, receipts: seq<Transaction>)

  /** ValidateSignature, signing with the key of this node, and the hashes of the transactions of a block and of a request. */
  datatype Crypto = Crypto(valid: (Hash, NodeID, Signature) -> bool, sign: Hash -> Option<Signature>,
                           contentHash: seq<Transaction> -> Hash, requestHash: RequestMsg -> Hash)

  class Block {
    const blockID: Hash
    const sender: NodeID
    const transactions: seq<Transaction>
    var votes: seq<Signature>

    constructor (blockID: Hash, sender: NodeID, transactions: seq<Transaction>)
      ensures this.blockID == blockID && this.sender == sender && this.transactions == transactions && votes == []
    {
      this.blockID, this.sender, this.transactions, votes := blockID, sender, transactions, [];
    }

    /** DigitalSignature: appends the own signature, unless signing fails. */
    method AddSignature(c: Crypto)
      modifies this
      ensures votes == old(votes) + match c.sign(blockID) case Some(s) => [s] case None => []
    {
      match c.sign(blockID)
      case Some(s) => votes := votes + [s];
      case None =>
    }
  }

  // ------------------------------------------------------------- signatures

  /** A signature on one of the accepted block IDs: it verified under a registered node, or is the node's own. */
  ghost predicate Vouched(c: Crypto, accepted: set<Hash>, registered: set<NodeID>, s: Signature) {
    (exists h, n :: h in accepted && n in registered && c.valid(h, n, s)) || exists h :: h in accepted && c.sign(h) == Some(s)
  }

  ghost predicate AllVouched(c: Crypto, accepted: set<Hash>, registered: set<NodeID>, votes: seq<Signature>) {
    forall i :: 0 <= i < |votes| ==> Vouched(c, accepted, registered, votes[i])
  }

  lemma VouchedGrows(c: Crypto, accepted: set<Hash>, registered: set<NodeID>, accepted': set<Hash>, registered': set<NodeID>,
                     votes: seq<Signature>)
    requires AllVouched(c, accepted, registered, votes) && accepted <= accepted' && registered <= registered'
    ensures AllVouched(c, accepted', registered', votes)
  {
    forall i | 0 <= i < |votes| ensures Vouched(c, accepted', registered', votes[i]) {
      assert Vouched(c, accepted, registered, votes[i]);
    }
  }

  predicate Verifies(c: Crypto, blockID: Hash, nodes: set<NodeID>, s: Signature) {
    exists n :: n in nodes && c.valid(blockID, n, s)
  }

  /** The votes that verify, in order. */
  function ValidVotes(c: Crypto, blockID: Hash, nodes: set<NodeID>, votes: seq<Signature>): (r: seq<Signature>)
    ensures forall s :: s in r <==> s in votes && Verifies(c, blockID, nodes, s)
  {
    if votes == [] then []
    else
      var n := |votes| - 1;
      ValidVotes(c, blockID, nodes, votes[..n]) + if Verifies(c, blockID, nodes, votes[n]) then [votes[n]] else []
  }

  lemma LastVote(c: Crypto, blockID: Hash, nodes: set<NodeID>, votes: seq<Signature>, n: nat)
    requires |votes| == n + 1
    ensures ValidVotes(c, blockID, nodes, votes) ==
      ValidVotes(c, blockID, nodes, votes[..n]) + if Verifies(c, blockID, nodes, votes[n]) then [votes[n]] else []
  {
  }

  /** Votes that have been checked stay. */
  lemma {:induction false} ValidVotesStay(c: Crypto, blockID: Hash, nodes: set<NodeID>, votes: seq<Signature>)
    requires forall s :: s in votes ==> Verifies(c, blockID, nodes, s)
    ensures ValidVotes(c, blockID, nodes, votes) == votes
  {
    if votes == [] {
    } else {
      hide ValidVotes, Verifies;
      var n := |votes| - 1;
      ValidVotesStay(c, blockID, nodes, votes[..n]);
      LastVote(c, blockID, nodes, votes, n);
      assert votes[n] in votes;
      assert votes == votes[..n] + [votes[n]];
    }
  }

  predicate Distinct<T(==)>(s: seq<T>) {
    forall i, j :: 0 <= i < j < |s| ==> s[i] != s[j]
  }

  function Elements<T>(s: seq<T>): set<T> {
    set x | x in s
  }

  lemma {:induction false} DistinctCount<T>(s: seq<T>)
    requires Distinct(s)
    ensures |Elements(s)| == |s|
  {
    if s != [] {
      var n := |s| - 1;
      DistinctCount(s[..n]);
      assert s == s[..n] + [s[n]];
      assert Elements(s) == Elements(s[..n]) + {s[n]};
    }
  }

  /** Only the votes that verify under some node are kept. */
  method KeepValidVotes(c: Crypto, block: Block, nodes: set<NodeID>)
    modifies block
    ensures block.votes == ValidVotes(c, block.blockID, nodes, old(block.votes))
  {
    var sigValids: seq<bool> := seq(|block.votes|, i => false);
    var index := 0;
    while index < |block.votes|
      invariant index <= |block.votes| == |sigValids|
      invariant forall i :: 0 <= i < index ==> sigValids[i] == Verifies(c, block.blockID, nodes, block.votes[i])
      invariant forall i :: index <= i < |sigValids| ==> !sigValids[i]
      invariant block.votes == old(block.votes)
    {
      var todo := nodes;
      while todo != {}
        invariant todo <= nodes && |sigValids| == |block.votes|
        invariant forall n :: n in nodes - todo ==> !c.valid(block.blockID, n, block.votes[index])
        invariant forall i :: 0 <= i < index ==> sigValids[i] == Verifies(c, block.blockID, nodes, block.votes[i])
        invariant forall i :: index <= i < |sigValids| ==> !sigValids[i]
      {
        var n :| n in todo;
        if c.valid(block.blockID, n, block.votes[index]) {
          sigValids := sigValids[index := true];
          break;
        }
        todo := todo - {n};
      }
      index := index + 1;
    }
    var validSigs: seq<Signature> := [];
    index := 0;
    while index < |sigValids|
      invariant index <= |sigValids|
      invariant validSigs == ValidVotes(c, block.blockID, nodes, block.votes[..index])
      invariant block.votes == old(block.votes)
    {
      assert block.votes[..index + 1][..index] == block.votes[..index];
      if sigValids[index] {
        validSigs := validSigs + [block.votes[index]];
      }
      index := index + 1;
    }
    assert block.votes[..index] == block.votes;
    block.votes := validSigs;
  }

  lemma ValidVotesAreVouched(c: Crypto, blockID: Hash, nodes: set<NodeID>, votes: seq<Signature>)
    ensures AllVouched(c, {blockID}, nodes, ValidVotes(c, blockID, nodes, votes))
  {
    var r := ValidVotes(c, blockID, nodes, votes);
    forall i | 0 <= i < |r| ensures Vouched(c, {blockID}, nodes, r[i]) {
      assert r[i] in r;
    }
  }

  // ------------------------------------------------------------- logs

  type Log = map<NodeID, VoteMsg>

  /** Every logged message is filed under its sender. */
  ghost predicate Filed(log: Log) {
    forall n :: n in log ==> log[n].nodeID == n
  }

  ghost function Blocks(log: Log): set<Block> {
    set n | n in log :: log[n].block
  }

  ghost function AllVotes(log: Log): set<Signature>
    reads Blocks(log)
  {
    set n, s | n in log && s in log[n].block.votes :: s
  }

  /** The same, when the votes of one block are others. */
  ghost function VotesWith(log: Log, block: Block, votes: seq<Signature>): set<Signature>
    reads Blocks(log)
  {
    set n, s | n in log && s in Rewritten(log[n].block, block, votes) :: s
  }

  ghost function Rewritten(b: Block, block: Block, votes: seq<Signature>): seq<Signature>
    reads b
  {
    if b == block then votes else b.votes
  }

  ghost predicate Collected(log: Log, todo: set<NodeID>, sigs: seq<Signature>)
    reads Blocks(log)
  {
    forall s :: s in sigs <==> exists n :: n in log && n !in todo && s in log[n].block.votes
  }

  lemma NothingCollected(log: Log)
    ensures Collected(log, log.Keys, [])
  {
  }

  lemma CollectMore(log: Log, todo: set<NodeID>, sigs: seq<Signature>, n: NodeID)
    requires Collected(log, todo, sigs) && n in todo && n in log
    ensures Collected(log, todo - {n}, sigs + log[n].block.votes)
  {
    var sigs' := sigs + log[n].block.votes;
    forall s ensures s in sigs' <==> exists m :: m in log && m !in todo - {n} && s in log[m].block.votes {
      if s in sigs {
        var m :| m in log && m !in todo && s in log[m].block.votes;
      }
    }
  }

  lemma AllCollected(log: Log, sigs: seq<Signature>)
    requires Collected(log, {}, sigs)
    ensures Elements(sigs) == AllVotes(log)
  {
  }

  /** An order in which the iteration over a log can visit it. */
  ghost predicate Enumerates(order: seq<NodeID>, keys: set<NodeID>) {
    Distinct(order) && Elements(order) == keys
  }

  lemma {:induction false} AnyOrder(keys: set<NodeID>) returns (order: seq<NodeID>)
    ensures Enumerates(order, keys)
  {
    if keys == {} {
      order := [];
    } else {
      var n :| n in keys;
      order := AnyOrder(keys - {n});
      assert n !in Elements(order);
      OneMoreSeen(order, keys - {n}, n);
      order := order + [n];
      assert keys - {n} + {n} == keys;
    }
  }

  lemma EnumeratesKeys(order: seq<NodeID>, keys: set<NodeID>)
    requires Enumerates(order, keys)
    ensures Elements(order) == keys
  {
  }

  lemma OneMoreSeen(order: seq<NodeID>, keys: set<NodeID>, n: NodeID)
    requires Enumerates(order, keys) && n !in keys
    ensures Enumerates(order + [n], keys + {n}) && n !in order
  {
    assert n !in Elements(order);
    assert Elements(order + [n]) == Elements(order) + {n};
  }

  /** Only the first of equal signatures is kept. */
  method RemoveDuplicates(sigSet: seq<Signature>) returns (single: seq<Signature>)
    ensures Distinct(single) && Elements(single) == Elements(sigSet)
  {
    single := [];
    var index := 0;
    while index < |sigSet|
      invariant index <= |sigSet| && Distinct(single)
      invariant Elements(single) == Elements(sigSet[..index])
    {
      var sig, isDup, k := sigSet[index], false, 0;
      while k < |single|
        invariant k <= |single| && !isDup && sig !in single[..k]
      {
        if sig == single[k] {
          isDup := true;
          break;
        }
        k := k + 1;
      }
      assert Elements(sigSet[..index + 1]) == Elements(sigSet[..index]) + {sig};
      if !isDup {
        assert sig !in single;
        assert Elements(single + [sig]) == Elements(single) + {sig};
        single := single + [sig];
      }
      index := index + 1;
    }
    assert sigSet[..index] == sigSet;
  }

  /** The count of equal blocks, and the hash they are compared with: that of the first block in the order, computed
      again as long as it is 0. */
  ghost function Tally(c: Crypto, log: Log, order: seq<NodeID>): (nat, Hash)
    requires Elements(order) <= log.Keys
  {
    if order == [] then (0, 0)
    else
      var n := |order| - 1;
      assert order[n] in order && Elements(order[..n]) <= Elements(order);
      var (count, hash) := Tally(c, log, order[..n]);
      var b := log[order[n]].block;
      var h := if hash == 0 then c.contentHash(b.transactions) else hash;
      (if h == b.blockID then count + 1 else count, h)
  }

  ghost predicate NoZeroHash(c: Crypto) {
    forall t :: c.contentHash(t) != 0
  }

  ghost function WithID(ids: map<NodeID, Hash>, h: Hash): set<NodeID> {
    set n | n in ids && ids[n] == h
  }

  ghost function BlockIDs(log: Log): map<NodeID, Hash> {
    map n | n in log :: log[n].block.blockID
  }

  lemma EmptyOrder(c: Crypto, log: Log)
    ensures Enumerates([], {}) && Elements<NodeID>([]) <= log.Keys && Tally(c, log, []) == (0, 0)
  {
    assert Elements<NodeID>([]) == {};
  }

  lemma TallyStep(c: Crypto, log: Log, order: seq<NodeID>, n: NodeID)
    requires Elements(order) <= log.Keys && n in log
    ensures Elements(order + [n]) <= log.Keys
    ensures var (count, hash) := Tally(c, log, order); var b := log[n].block;
      var h := if hash == 0 then c.contentHash(b.transactions) else hash;
      Tally(c, log, order + [n]) == (if h == b.blockID then count + 1 else count, h)
  {
    assert Elements(order + [n]) == Elements(order) + {n};
    assert (order + [n])[..|order|] == order;
  }

  lemma CountStep(ids: map<NodeID, Hash>, order: seq<NodeID>, n: NodeID, h: Hash)
    requires n !in order && n in ids
    ensures |WithID(ids, h) * Elements(order + [n])| == |WithID(ids, h) * Elements(order)| + if ids[n] == h then 1 else 0
  {
    assert Elements(order + [n]) == Elements(order) + {n};
    var a := WithID(ids, h) * Elements(order);
    if ids[n] == h {
      assert WithID(ids, h) * Elements(order + [n]) == a + {n};
      assert n !in a;
    } else {
      assert WithID(ids, h) * Elements(order + [n]) == a;
    }
  }

  lemma IDsOfLog(log: Log, n: NodeID)
    requires n in log
    ensures n in BlockIDs(log) && BlockIDs(log)[n] == log[n].block.blockID
  {
  }

  lemma NoneOfNone(ids: map<NodeID, Hash>, h: Hash)
    ensures |WithID(ids, h) * Elements([])| == 0
  {
    assert Elements<NodeID>([]) == {};
  }

  /** The senders counted are distinct and hold one block ID, that of the first block, as long as no hash is 0. */
  lemma {:induction false} TallyCountsOneID(c: Crypto, log: Log, order: seq<NodeID>)
    requires Elements(order) <= log.Keys && Distinct(order) && NoZeroHash(c)
    ensures var (count, hash) := Tally(c, log, order);
      count == |WithID(BlockIDs(log), hash) * Elements(order)| && (order != [] ==> hash != 0)
  {
    hide WithID, BlockIDs, Tally;
    var ids := BlockIDs(log);
    if order == [] {
      EmptyOrder(c, log);
      NoneOfNone(ids, 0);
    } else {
      var n := |order| - 1;
      var p, last := order[..n], order[n];
      assert order == p + [last];
      assert last in Elements(order) && Elements(p) <= Elements(order);
      TallyStep(c, log, p, last);
      TallyCountsOneID(c, log, p);
      var hash := Tally(c, log, order).1;
      IDsOfLog(log, last);
      CountStep(ids, p, last, hash);
      if n == 0 {
        EmptyOrder(c, log);
        NoneOfNone(ids, hash);
      }
    }
  }

  /** So 2f equal blocks are counted only if 2f senders hold one ID. */
  lemma CountedShareID(c: Crypto, log: Log, order: seq<NodeID>)
    requires Elements(order) <= log.Keys && Distinct(order) && NoZeroHash(c)
    ensures exists h :: |WithID(BlockIDs(log), h)| >= Tally(c, log, order).0
  {
    hide BlockIDs, Tally;
    TallyCountsOneID(c, log, order);
    var h := Tally(c, log, order).1;
    Subset(WithID(BlockIDs(log), h) * Elements(order), WithID(BlockIDs(log), h));
  }

  lemma {:induction false} Subset<T>(a: set<T>, b: set<T>)
    requires a <= b
    ensures |a| <= |b|
  {
    if a != {} {
      var x :| x in a;
      Subset(a - {x}, b - {x});
    }
  }

  /** A log in which every block is the same and carries the hash of its content. */
  ghost predicate Uniform(c: Crypto, log: Log) {
    exists h: Hash :: UniformWith(c, log, h)
  }

  ghost predicate UniformWith(c: Crypto, log: Log, h: Hash) {
    h != 0 && forall n :: n in log ==> log[n].block.blockID == h == c.contentHash(log[n].block.transactions)
  }

  /** Then the order does not matter, and all are counted. */
  lemma {:induction false} UniformTally(c: Crypto, log: Log, order: seq<NodeID>)
    requires Elements(order) <= log.Keys && Uniform(c, log)
    ensures Tally(c, log, order).0 == |order|
    ensures order != [] ==> Tally(c, log, order).1 == c.contentHash(log[order[0]].block.transactions)
  {
    if order != [] {
      var n := |order| - 1;
      assert order[n] in order && order[0] in order && Elements(order[..n]) <= Elements(order);
      UniformTally(c, log, order[..n]);
    }
  }

  /** Visited in this order, the log has 2f equal blocks. */
  ghost predicate Counts(c: Crypto, log: Log, order: seq<NodeID>) {
    Elements(order) <= log.Keys && Tally(c, log, order).0 >= 2 * F
  }

  ghost predicate AlwaysCounted(c: Crypto, log: Log) {
    forall order: seq<NodeID> :: Enumerates(order, log.Keys) ==> Counts(c, log, order)
  }

  ghost predicate SometimesCounted(c: Crypto, log: Log) {
    exists order: seq<NodeID> :: Enumerates(order, log.Keys) && Counts(c, log, order)
  }

  /** The two logs are certificates, as far as the order can make them. */
  ghost predicate Complete(c: Crypto, prepareMsgs: Log, commitMsgs: Log)
    reads Blocks(prepareMsgs)
  {
    |prepareMsgs| >= 2 * F && SometimesCounted(c, prepareMsgs) && |AllVotes(prepareMsgs)| > 2 * F && |commitMsgs| >= 2 * F
  }

  /** The two logs fall short of a certificate, at least in some order. */
  ghost predicate Short(c: Crypto, prepareMsgs: Log, commitMsgs: Log)
    reads Blocks(prepareMsgs)
  {
    |prepareMsgs| < 2 * F || !AlwaysCounted(c, prepareMsgs) || |AllVotes(prepareMsgs)| <= 2 * F || |commitMsgs| < 2 * F
  }

  lemma UniformIsCounted(c: Crypto, log: Log)
    requires Uniform(c, log) && |log| >= 2 * F
    ensures AlwaysCounted(c, log)
  {
    hide Uniform, Counts;
    forall order: seq<NodeID> | Enumerates(order, log.Keys) ensures Counts(c, log, order) { UniformCounts(c, log, order); }
  }

  lemma UniformCounts(c: Crypto, log: Log, order: seq<NodeID>)
    requires Uniform(c, log) && |log| >= 2 * F && Enumerates(order, log.Keys)
    ensures Counts(c, log, order)
  {
    hide Uniform, Tally;
    UniformTally(c, log, order);
    DistinctCount(order);
    assert |log| == |log.Keys|;
  }

  /** 2f senders hold the block ID that is the hash of the block of n. */
  ghost predicate Supported(c: Crypto, log: Log, n: NodeID)
    requires n in log
  {
    |WithID(BlockIDs(log), c.contentHash(log[n].block.transactions))| >= 2 * F
  }

  lemma {:induction false} HashOfFirst(c: Crypto, log: Log, order: seq<NodeID>)
    requires Elements(order) <= log.Keys && NoZeroHash(c) && order != []
    ensures order[0] in Elements(order) && Tally(c, log, order).1 == c.contentHash(log[order[0]].block.transactions)
  {
    var n := |order| - 1;
    assert order[n] in order && order[0] in order && Elements(order[..n]) <= Elements(order);
    if n > 0 { HashOfFirst(c, log, order[..n]); }
  }

  /** If no hash is 0, the block that is visited first decides. */
  lemma FirstDecides(c: Crypto, log: Log, order: seq<NodeID>)
    requires Enumerates(order, log.Keys) && NoZeroHash(c) && order != []
    ensures order[0] in log && (Counts(c, log, order) <==> Supported(c, log, order[0]))
  {
    hide Tally, WithID, BlockIDs;
    HashOfFirst(c, log, order);
    TallyCountsOneID(c, log, order);
    var h := c.contentHash(log[order[0]].block.transactions);
    assert WithID(BlockIDs(log), h) * log.Keys == WithID(BlockIDs(log), h) by { SendersInLog(log, h); }
  }

  lemma SendersInLog(log: Log, h: Hash)
    ensures WithID(BlockIDs(log), h) <= log.Keys
  {
  }

  /** An order that begins with a given sender. */
  lemma OrderFrom(keys: set<NodeID>, n: NodeID) returns (order: seq<NodeID>)
    requires n in keys
    ensures Enumerates(order, keys) && order != [] && order[0] == n
  {
    var rest := AnyOrder(keys - {n});
    assert n !in Elements(rest);
    order := [n] + rest;
    assert Elements(order) == {n} + Elements(rest);
  }

  /** An order decides as some sender, and every sender as some order. */
  lemma OrderOfSender(c: Crypto, log: Log, n: NodeID) returns (order: seq<NodeID>)
    requires NoZeroHash(c) && n in log
    ensures Enumerates(order, log.Keys) && (Counts(c, log, order) <==> Supported(c, log, n))
  {
    hide Counts, Supported, NoZeroHash, Enumerates;
    order := OrderFrom(log.Keys, n);
    FirstDecides(c, log, order);
  }

  lemma SenderOfOrder(c: Crypto, log: Log, order: seq<NodeID>) returns (n: NodeID)
    requires NoZeroHash(c) && log != map[] && Enumerates(order, log.Keys)
    ensures n in log && (Counts(c, log, order) <==> Supported(c, log, n))
  {
    hide Counts, Supported, NoZeroHash;
    var k :| k in log;
    assert k in Elements(order);
    FirstDecides(c, log, order);
    n := order[0];
  }

  /** So the outcome depends on the order exactly if some blocks of the log are supported and others are not. */
  lemma AlwaysWhen(c: Crypto, log: Log)
    requires NoZeroHash(c) && log != map[]
    ensures AlwaysCounted(c, log) <==> forall n :: n in log ==> Supported(c, log, n)
  {
    hide Counts, Supported, NoZeroHash, Enumerates;
    if AlwaysCounted(c, log) {
      forall n | n in log ensures Supported(c, log, n) { var order := OrderOfSender(c, log, n); }
    }
    if forall n :: n in log ==> Supported(c, log, n) {
      forall order: seq<NodeID> | Enumerates(order, log.Keys) ensures Counts(c, log, order) {
        var n := SenderOfOrder(c, log, order);
      }
    }
  }

  lemma SometimesWhen(c: Crypto, log: Log)
    requires NoZeroHash(c) && log != map[]
    ensures SometimesCounted(c, log) <==> exists n :: n in log && Supported(c, log, n)
  {
    hide Counts, Supported, NoZeroHash, Enumerates;
    if SometimesCounted(c, log) {
      var order: seq<NodeID> :| Enumerates(order, log.Keys) && Counts(c, log, order);
      var n := SenderOfOrder(c, log, order);
    }
    if n :| n in log && Supported(c, log, n) {
      var order := OrderOfSender(c, log, n);
    }
  }

  // ------------------------------------------------------------- executions

  /** The guard of verifyMsg on the sequence ID: none at all after -1. */
  predicate Accepts(last: int64, sequenceID: int64) {
    last != -1 ==> last < sequenceID
  }

  const MaxInt64: int64 := 0x7FFF_FFFF_FFFF_FFFF

  /** Adding one to an int64 wraps. */
  function Next(s: int64): int64 {
    if s == MaxInt64 then -0x8000_0000_0000_0000 else s + 1
  }

  /** The loop of StartConsensus ends within a number of turns. */
  predicate EndsWithin(last: int64, now: int64, turns: nat) {
    Accepts(last, now) || (last < MaxInt64 && last as int - now as int < turns)
  }

  /** The candidate of the loop after a number of turns. */
  function Candidate(now: int64, turns: nat): int64 {
    if turns == 0 then now else Next(Candidate(now, turns - 1))
  }

  predicate CandidatePasses(last: int64, now: int64, turns: nat) {
    Accepts(last, Candidate(now, turns))
  }

  /** EndsWithin says when a candidate passes the guard; with the last ID 2^63 - 1 none ever does. */
  lemma SomeCandidatePasses(last: int64, now: int64, turns: nat)
    ensures EndsWithin(last, now, turns) <==> exists k: nat :: k <= turns && CandidatePasses(last, now, k)
  {
    if last == -1 || last < now {
      assert CandidatePasses(last, now, 0);
    } else if last != MaxInt64 {
      var k := last as int - now as int + 1;
      if k <= turns {
        CandidateBelow(now, last, k);
        assert CandidatePasses(last, now, k);
      } else {
        forall j: nat | j <= turns ensures !CandidatePasses(last, now, j) { CandidateBelow(now, last, j); }
      }
    }
  }

  lemma {:induction false} CandidateBelow(now: int64, last: int64, k: nat)
    requires last < MaxInt64 && now as int + k <= last as int + 1
    ensures Candidate(now, k) as int == now as int + k
  {
    if k > 0 { CandidateBelow(now, last, k - 1); }
  }

  /** So the loop ends exactly if the last ID is not 2^63 - 1. */
  lemma StartEnds(last: int64, now: int64)
    ensures (exists turns: nat :: EndsWithin(last, now, turns)) <==> last != MaxInt64
  {
    if last != MaxInt64 {
      var d := last as int - now as int + 1;
      assert EndsWithin(last, now, if d < 0 then 0 else d);
    }
  }

  /** Sequence IDs that can be executed one after the other, from the given last one. */
  predicate Admissible(last: int64, ids: seq<int64>) {
    ids == [] || (Accepts(Last(last, ids[..|ids| - 1]), ids[|ids| - 1]) && Admissible(last, ids[..|ids| - 1]))
  }

  function Last(last: int64, ids: seq<int64>): int64 {
    if ids == [] then last else ids[|ids| - 1]
  }

  predicate Increasing(ids: seq<int64>) {
    forall i, j :: 0 <= i < j < |ids| ==> ids[i] < ids[j]
  }

  /** No negative ID follows on -1. */
  predicate Guarded(first: int64, ids: seq<int64>) {
    forall i :: 0 <= i < |ids| && Last(first, ids[..i]) == -1 ==> ids[i] >= 0
  }

  lemma GuardedAppend(first: int64, ids: seq<int64>, x: int64)
    ensures Guarded(first, ids + [x]) <==> Guarded(first, ids) && (Last(first, ids) == -1 ==> x >= 0)
  {
    var all := ids + [x];
    assert forall i :: 0 <= i <= |ids| ==> all[..i] == ids[..i];
    assert all[..|ids|] == ids;
    if Guarded(first, all) {
      assert forall i :: 0 <= i < |ids| ==> all[i] == ids[i];
    }
  }

  lemma IncreasingAppend(p: seq<int64>, x: int64)
    ensures Increasing(p + [x]) <==> Increasing(p) && (p != [] ==> p[|p| - 1] < x)
  {
    var all := p + [x];
    if Increasing(all) {
      assert forall i :: 0 <= i < |p| ==> p[i] == all[i];
      if p != [] { assert all[|p| - 1] < all[|p|]; }
    } else if Increasing(p) && (p != [] ==> p[|p| - 1] < x) {
      forall i, j | 0 <= i < j < |all| ensures all[i] < all[j] {
        if j == |p| && i < |p| - 1 { assert p[i] < p[|p| - 1]; }
      }
    }
  }

  /** Each execution raises the last sequence ID exactly if no negative one follows on -1. */
  lemma {:induction false} ExecutionsIncrease(first: int64, ids: seq<int64>)
    requires Admissible(first, ids)
    ensures Guarded(first, ids) <==> Increasing([first] + ids)
  {
    if ids == [] {
      assert [first] + ids == [first];
    } else {
      var n := |ids| - 1;
      var p := [first] + ids[..n];
      assert ids == ids[..n] + [ids[n]] && [first] + ids == p + [ids[n]];
      assert p[|p| - 1] == Last(first, ids[..n]);
      hide Increasing, Guarded;
      ExecutionsIncrease(first, ids[..n]);
      GuardedAppend(first, ids[..n], ids[n]);
      IncreasingAppend(p, ids[n]);
    }
  }

  /** Up to the first execution of -1 the IDs increase, whatever the first one is. */
  lemma {:induction false} IncreasingUpToMinusOne(first: int64, ids: seq<int64>)
    requires Admissible(first, ids) && forall i :: 0 <= i < |ids| - 1 ==> ids[i] != -1
    ensures Increasing(ids)
  {
    if ids != [] {
      var n := |ids| - 1;
      IncreasingUpToMinusOne(first, ids[..n]);
      assert ids == ids[..n] + [ids[n]];
      IncreasingAppend(ids[..n], ids[n]);
    }
  }

  /** So far, an ID that was executed is accepted again exactly if the last one is -1. */
  lemma AcceptedAgainAfterMinusOne(first: int64, ids: seq<int64>)
    requires Admissible(first, ids) && ids != [] && forall i :: 0 <= i < |ids| - 1 ==> ids[i] != -1
    ensures (exists i :: 0 <= i < |ids| && Accepts(Last(first, ids), ids[i])) <==> ids[|ids| - 1] == -1
  {
    var n := |ids| - 1;
    IncreasingUpToMinusOne(first, ids);
    if ids[n] == -1 {
      assert Accepts(Last(first, ids), ids[n]);
    } else {
      forall i | 0 <= i < |ids| ensures !Accepts(Last(first, ids), ids[i]) {
        if i < n { assert ids[i] < ids[n]; }
      }
    }
  }

  /** What was known when a block was executed: the block ID logged for each sender of a prepare message, the senders of
      commit messages, the distinct signatures, and the accepted block IDs and registered nodes that they go back to. */
  datatype Execution = Execution(sequenceID: int64, transactions: seq<Transaction>, prepared: map<NodeID, Hash>,
                                 committers: set<NodeID>, signatures: seq<Signature>, accepted: set<Hash>,
                                 registered: set<NodeID>)

  ghost predicate Certified(c: Crypto, e: Execution) {
    && |e.prepared| >= 2 * F && |e.committers| >= 2 * F
    && (NoZeroHash(c) ==> exists h :: |WithID(e.prepared, h)| >= 2 * F)
    && |e.signatures| >= 2 * F + 1 && Distinct(e.signatures) && AllVouched(c, e.accepted, e.registered, e.signatures)
    && e.prepared.Values <= e.accepted
  }

  function SequenceIDs(executed: seq<Execution>): seq<int64> {
    seq(|executed|, i requires 0 <= i < |executed| => executed[i].sequenceID)
  }

  /** All transactions of the executed blocks, in order. */
  function Executed(executed: seq<Execution>): seq<Transaction> {
    if executed == [] then [] else Executed(executed[..|executed| - 1]) + executed[|executed| - 1].transactions
  }

  /** A run from a state with the given last ID, and what it has done to the world state. */
  ghost predicate History(c: Crypto, first: int64, executed: seq<Execution>, last: int64, world: seq<Transaction>) {
    && Admissible(first, SequenceIDs(executed)) && last == Last(first, SequenceIDs(executed)) && world == Executed(executed)
    && forall i :: 0 <= i < |executed| ==> Certified(c, executed[i])
  }

  lemma HistoryGrows(c: Crypto, first: int64, executed: seq<Execution>, last: int64, world: seq<Transaction>, e: Execution)
    requires History(c, first, executed, last, world) && Certified(c, e) && Accepts(last, e.sequenceID)
    ensures History(c, first, executed + [e], e.sequenceID, world + e.transactions)
  {
    hide Certified;
    var ids, ids' := SequenceIDs(executed), SequenceIDs(executed + [e]);
    assert ids' == ids + [e.sequenceID] && ids'[..|ids'| - 1] == ids;
    assert (executed + [e])[..|executed|] == executed;
  }

  /** Over a whole run in which nothing follows an execution of -1, no ID is executed twice. */
  lemma RunsExecuteOnce(c: Crypto, first: int64, executed: seq<Execution>, last: int64, world: seq<Transaction>)
    requires History(c, first, executed, last, world)
    requires forall i :: 0 <= i < |executed| - 1 ==> executed[i].sequenceID != -1
    ensures Distinct(SequenceIDs(executed)) && Increasing(SequenceIDs(executed))
  {
    hide Admissible;
    IncreasingUpToMinusOne(first, SequenceIDs(executed));
  }

  // ------------------------------------------------------------- the state

  class State {
    const crypto: Crypto
    const nodeName: string
    const nodeID: NodeID
    const viewID: uint64
    /** The last sequence ID that the state was created with. */
    ghost const firstSequenceID: int64
    var prepareMsgs: Log
    var commitMsgs: Log
    var lastSequenceID: int64
    var stage: Stage
    /** The world state, as the transactions that have run on it. */
    var world: seq<Transaction>
    /** The block IDs of the prepare messages accepted since the logs were emptied, all nodes that were registered, and
        the executions so far. */
    ghost var accepted: set<Hash>
    ghost var registered: set<NodeID>
    ghost var executed: seq<Execution>
    /** The blocks of the logged prepare messages. */
    ghost var blocks: set<Block>

    ghost predicate Valid()
      reads this, blocks
    {
      && Filed(prepareMsgs) && Filed(commitMsgs)
      && LogVouched()
      && History(crypto, firstSequenceID, executed, lastSequenceID, world)
    }

    /** Every vote of a logged prepare message is vouched for. */
    ghost predicate LogVouched()
      reads this, blocks
    {
      Blocks(prepareMsgs) <= blocks
      && forall n :: n in prepareMsgs ==>
        prepareMsgs[n].block.blockID in accepted && AllVouched(crypto, accepted, registered, prepareMsgs[n].block.votes)
    }

    /** CreateState. */
    constructor (crypto: Crypto, viewID: uint64, lastSequenceID: int64, nodeName: string, nodeID: NodeID)
      ensures Valid() && Empty() && stage == Idle && executed == []
      ensures this.lastSequenceID == firstSequenceID == lastSequenceID && world == []
      ensures this.crypto == crypto && this.viewID == viewID && this.nodeName == nodeName && this.nodeID == nodeID
    {
      this.crypto, this.viewID, this.nodeName, this.nodeID := crypto, viewID, nodeName, nodeID;
      prepareMsgs, commitMsgs, stage, world := map[], map[], Idle, [];
      this.lastSequenceID, firstSequenceID := lastSequenceID, lastSequenceID;
      accepted, registered, executed, blocks := {}, {}, [], {};
    }

    /** Nothing is logged. */
    ghost predicate Empty()
      reads this
    {
      prepareMsgs == map[] && commitMsgs == map[] && registered == {}
    }

    /** verifyMsg. */
    predicate VerifyMsg(viewID: uint64, sequenceID: int64)
      reads this
    {
      this.viewID == viewID && Accepts(lastSequenceID, sequenceID)
    }

    /** Rewriting the votes of one block keeps the state, if the new votes are vouched for or were there before. */
    twostate lemma VotesRewritten(block: Block)
      requires old(Valid()) && unchanged(this)
      requires forall b: Block :: b in blocks && b != block ==> b.votes == old(b.votes)
      requires block in Blocks(prepareMsgs) ==>
        forall s :: s in block.votes ==> s in old(block.votes) || Vouched(crypto, accepted, registered, s)
      ensures Valid()
    {
      forall n | n in prepareMsgs ensures AllVouched(crypto, accepted, registered, prepareMsgs[n].block.votes) {
        var b := prepareMsgs[n].block;
        assert b in Blocks(prepareMsgs);
        forall i | 0 <= i < |b.votes| ensures Vouched(crypto, accepted, registered, b.votes[i]) {
          var s := b.votes[i];
          assert s in b.votes;
          if s in old(b.votes) {
            var k :| 0 <= k < |old(b.votes)| && old(b.votes)[k] == s;
          }
        }
      }
    }

    /** A step that leaves the logged prepare messages and their blocks alone. */
    twostate lemma LogKept()
      requires prepareMsgs == old(prepareMsgs) && accepted == old(accepted) && registered == old(registered)
      requires blocks == old(blocks)
      requires forall n :: n in prepareMsgs ==> prepareMsgs[n].block.votes == old(prepareMsgs[n].block.votes)
      ensures old(LogVouched()) ==> LogVouched()
      ensures AllVotes(prepareMsgs) == old(AllVotes(prepareMsgs))
    {
    }

    /** StartConsensus, at the given time: the sequence ID is later than the last one, if there is a last one. The result
        is None if the loop that looks for such an ID has not ended after the given number of turns. */
    method StartConsensus(senderID: NodeID, senderName: string, txSet: seq<Transaction>, now: int64, turns: nat)
      returns (msg: Option<PrePrepareMsg>)
      requires Valid()
      modifies this`stage
      ensures Valid() && (msg.Some? ==> fresh(msg.value.block))
      ensures msg.Some? <==> EndsWithin(lastSequenceID, now, turns)
      ensures stage == if msg.Some? then PrePrepared else old(stage)
      ensures msg.Some? ==>
        VerifyMsg(msg.value.viewID, msg.value.sequenceID)
        && msg.value == PrePrepareMsg(viewID, if Accepts(lastSequenceID, now) then now else lastSequenceID + 1, senderName, senderID,
                                      msg.value.block)
        && msg.value.block.transactions == txSet && msg.value.block.votes == []
        && msg.value.block.blockID == crypto.contentHash(txSet) && msg.value.block.sender == senderID
    {
      var sequenceID, n := now, 0;
      if lastSequenceID != -1 {
        while lastSequenceID >= sequenceID
          invariant n <= turns
          invariant lastSequenceID < MaxInt64 ==> sequenceID as int == now as int + n && (n > 0 ==> sequenceID <= lastSequenceID + 1)
          decreases turns - n
        {
          if n == turns {
            return None;
          }
          sequenceID, n := Next(sequenceID), n + 1;
        }
      }
      stage := PrePrepared;
      var newBlock := new Block(crypto.contentHash(txSet), senderID, txSet);
      return Some(PrePrepareMsg(viewID, sequenceID, senderName, senderID, newBlock));
    }

    /** PrePrepare. */
    method PrePrepare(msg: PrePrepareMsg, nodes: set<NodeID>) returns (vote: Option<VoteMsg>)
      requires Valid()
      modifies this`stage, msg.block
      ensures Valid()
      ensures vote.Some? <==> VerifyMsg(msg.viewID, msg.sequenceID)
      ensures vote.None? <==> msg.viewID != viewID || (lastSequenceID != -1 && lastSequenceID >= msg.sequenceID)
      ensures vote.None? ==> stage == old(stage) && msg.block.votes == old(msg.block.votes)
      ensures vote.Some? ==>
        vote.value == VoteMsg(PrepareMsg, viewID, msg.sequenceID, "", nodeID, msg.block) && stage == PrePrepared
        && msg.block.votes == ValidVotes(crypto, msg.block.blockID, nodes, old(msg.block.votes))
    {
      if !VerifyMsg(msg.viewID, msg.sequenceID) {
        return None;
      }
      KeepValidVotes(crypto, msg.block, nodes);
      VotesRewritten(msg.block);
      stage := PrePrepared;
      return Some(VoteMsg(PrepareMsg, viewID, msg.sequenceID, "", nodeID, msg.block));
    }

    /** prepared, with the order in which the log was visited: enough messages, enough equal blocks, and enough distinct
        signatures, which are returned. */
    method IsPrepared() returns (ok: bool, validSigs: seq<Signature>, ghost order: seq<NodeID>)
      requires Valid()
      ensures Valid() && Enumerates(order, prepareMsgs.Keys)
      ensures ok <==> |prepareMsgs| >= 2 * F && Tally(crypto, prepareMsgs, order).0 >= 2 * F && |AllVotes(prepareMsgs)| > 2 * F
      ensures ok ==> Distinct(validSigs) && Elements(validSigs) == AllVotes(prepareMsgs) && |validSigs| > 2 * F
    {
      hide Tally, Collected, AllVotes, Valid, Distinct, Enumerates;
      EmptyOrder(crypto, prepareMsgs);
      assert forall n :: n in prepareMsgs ==> allocated(prepareMsgs[n].block) && prepareMsgs[n].block in Blocks(prepareMsgs);
      if |prepareMsgs| < 2 * F {
        order := AnyOrder(prepareMsgs.Keys);
        return false, [], order;
      }
      var blockHash: Hash, sameBlockCount, sigSet: seq<Signature>, todo := 0, 0, [], prepareMsgs.Keys;
      order := [];
      assert prepareMsgs.Keys - todo == {};
      NothingCollected(prepareMsgs);
      while todo != {}
        invariant todo <= prepareMsgs.Keys && Enumerates(order, prepareMsgs.Keys - todo)
        invariant Elements(order) <= prepareMsgs.Keys && Tally(crypto, prepareMsgs, order) == (sameBlockCount, blockHash)
        invariant Collected(prepareMsgs, todo, sigSet)
      {
        var n :| n in todo;
        var b := prepareMsgs[n].block;
        CollectMore(prepareMsgs, todo, sigSet, n);
        sigSet := sigSet + b.votes;
        if blockHash == 0 {
          blockHash := crypto.contentHash(b.transactions);
        }
        if blockHash == b.blockID {
          sameBlockCount := sameBlockCount + 1;
        }
        TallyStep(crypto, prepareMsgs, order, n);
        OneMoreSeen(order, prepareMsgs.Keys - todo, n);
        assert prepareMsgs.Keys - todo + {n} == prepareMsgs.Keys - (todo - {n});
        todo := todo - {n};
        order := order + [n];
      }
      assert prepareMsgs.Keys - todo == prepareMsgs.Keys;
      AllCollected(prepareMsgs, sigSet);
      if sameBlockCount < 2 * F {
        return false, [], order;
      }
      ghost var before := AllVotes(prepareMsgs);
      var singleSigSet := RemoveDuplicates(sigSet);
      assert AllVotes(prepareMsgs) == before;
      DistinctCount(singleSigSet);
      if |singleSigSet| > 2 * F {
        return true, singleSigSet, order;
      } else {
        return false, [], order;
      }
    }

    lemma EnoughCounted(order: seq<NodeID>)
      requires Enumerates(order, prepareMsgs.Keys)
      ensures AlwaysCounted(crypto, prepareMsgs) ==> Tally(crypto, prepareMsgs, order).0 >= 2 * F
      ensures Tally(crypto, prepareMsgs, order).0 >= 2 * F ==> SometimesCounted(crypto, prepareMsgs)
    {
      hide Tally, Enumerates;
      assert Elements(order) == prepareMsgs.Keys by { EnumeratesKeys(order, prepareMsgs.Keys); }
      assert Tally(crypto, prepareMsgs, order).0 >= 2 * F ==> Counts(crypto, prepareMsgs, order);
    }

    /** Signatures collected from the log are vouched for. */
    lemma CollectedAreVouched(sigs: seq<Signature>)
      requires Valid() && Elements(sigs) == AllVotes(prepareMsgs)
      ensures AllVouched(crypto, accepted, registered, sigs)
    {
      forall i | 0 <= i < |sigs| ensures Vouched(crypto, accepted, registered, sigs[i]) {
        assert sigs[i] in Elements(sigs);
        var n :| n in prepareMsgs && sigs[i] in prepareMsgs[n].block.votes;
        var votes := prepareMsgs[n].block.votes;
        var k :| 0 <= k < |votes| && votes[k] == sigs[i];
      }
    }

    /** Files a prepare message whose votes have been checked. */
    method LogPrepare(msg: VoteMsg, nodes: set<NodeID>)
      requires Valid() && AllVouched(crypto, {msg.block.blockID}, nodes, msg.block.votes)
      modifies this`prepareMsgs, this`accepted, this`registered, this`blocks
      ensures Valid() && prepareMsgs == old(prepareMsgs)[msg.nodeID := msg]
      ensures accepted == old(accepted) + {msg.block.blockID} && registered == old(registered) + nodes
      ensures msg.block in Blocks(prepareMsgs)
    {
      hide AllVouched, History;
      assert prepareMsgs[msg.nodeID := msg][msg.nodeID].block == msg.block;
      prepareMsgs := prepareMsgs[msg.nodeID := msg];
      accepted, registered, blocks := accepted + {msg.block.blockID}, registered + nodes, blocks + {msg.block};
      VouchedGrows(crypto, {msg.block.blockID}, nodes, accepted, registered, msg.block.votes);
      forall n | n in prepareMsgs && n != msg.nodeID
        ensures prepareMsgs[n].block.blockID in accepted && AllVouched(crypto, accepted, registered, prepareMsgs[n].block.votes)
      {
        assert prepareMsgs[n] == old(prepareMsgs)[n];
        VouchedGrows(crypto, old(accepted), old(registered), accepted, registered, prepareMsgs[n].block.votes);
      }
    }

    /** Prepare: logs the message and, when the log is a certificate, returns a commit message with its block, whose
        votes are then all signatures of the log. */
    method Prepare(msg: VoteMsg, nodes: set<NodeID>) returns (commitMsg: Option<VoteMsg>, err: bool)
      requires Valid()
      modifies this`prepareMsgs, this`stage, this`accepted, this`registered, this`blocks, msg.block
      ensures Valid()
      ensures err <==> !VerifyMsg(msg.viewID, msg.sequenceID)
      ensures err <==> msg.viewID != viewID || (lastSequenceID != -1 && lastSequenceID >= msg.sequenceID)
      ensures err ==> commitMsg.None? && unchanged(this) && unchanged(msg.block)
      ensures !err ==> prepareMsgs == old(prepareMsgs)[msg.nodeID := msg]
      ensures !err ==> accepted == old(accepted) + {msg.block.blockID} && registered == old(registered) + nodes
      ensures !err && commitMsg.None? ==>
        stage == old(stage) && msg.block.votes == ValidVotes(crypto, msg.block.blockID, nodes, old(msg.block.votes))
      ensures commitMsg.Some? ==>
        stage == Prepared && commitMsg.value == VoteMsg(CommitMsg, viewID, msg.sequenceID, "", nodeID, msg.block)
        && |prepareMsgs| >= 2 * F && |msg.block.votes| > 2 * F && Distinct(msg.block.votes)
        && AllVouched(crypto, accepted, registered, msg.block.votes) && Elements(msg.block.votes) == AllVotes(prepareMsgs)
        && SometimesCounted(crypto, prepareMsgs)
      ensures commitMsg.Some? ==>
        |old(VotesWith(prepareMsgs[msg.nodeID := msg], msg.block,
                       ValidVotes(crypto, msg.block.blockID, nodes, msg.block.votes)))| > 2 * F
      ensures !err && commitMsg.None? ==>
        AllVotes(prepareMsgs) == old(VotesWith(prepareMsgs[msg.nodeID := msg], msg.block,
                                               ValidVotes(crypto, msg.block.blockID, nodes, msg.block.votes)))
      ensures !err && commitMsg.None? && AlwaysCounted(crypto, prepareMsgs) ==>
        |prepareMsgs| < 2 * F || |AllVotes(prepareMsgs)| <= 2 * F
    {
      hide AlwaysCounted, SometimesCounted, AllVotes, VotesWith, ValidVotes, Valid, Elements, Distinct, AllVouched, Blocks;
      if !VerifyMsg(msg.viewID, msg.sequenceID) {
        return None, true;
      }
      CheckAndLog(msg, nodes);
      var ok := MergeIfPrepared(msg.block);
      if !ok {
        return None, false;
      }
      return Some(VoteMsg(CommitMsg, viewID, msg.sequenceID, "", nodeID, msg.block)), false;
    }

    /** Files a prepare message with its valid votes. */
    method CheckAndLog(msg: VoteMsg, nodes: set<NodeID>)
      requires Valid()
      modifies this`prepareMsgs, this`accepted, this`registered, this`blocks, msg.block
      ensures Valid() && prepareMsgs == old(prepareMsgs)[msg.nodeID := msg]
      ensures accepted == old(accepted) + {msg.block.blockID} && registered == old(registered) + nodes
      ensures msg.block in Blocks(prepareMsgs)
      ensures msg.block.votes == ValidVotes(crypto, msg.block.blockID, nodes, old(msg.block.votes))
      ensures AllVotes(prepareMsgs) == old(VotesWith(prepareMsgs[msg.nodeID := msg], msg.block,
                                                     ValidVotes(crypto, msg.block.blockID, nodes, msg.block.votes)))
    {
      hide ValidVotes, Valid, AllVouched;
      ghost var log, votes := prepareMsgs[msg.nodeID := msg], ValidVotes(crypto, msg.block.blockID, nodes, msg.block.votes);
      CheckVotes(msg.block, nodes);
      LogPrepare(msg, nodes);
      assert forall n :: n in log ==> log[n].block.votes == old(Rewritten(log[n].block, msg.block, votes));
    }

    /** Only the valid votes of a block are kept. */
    method CheckVotes(block: Block, nodes: set<NodeID>)
      requires Valid()
      modifies block
      ensures Valid() && block.votes == ValidVotes(crypto, block.blockID, nodes, old(block.votes))
      ensures AllVouched(crypto, {block.blockID}, nodes, block.votes)
    {
      hide AllVouched, Valid;
      KeepValidVotes(crypto, block, nodes);
      VotesRewritten(block);
      ValidVotesAreVouched(crypto, block.blockID, nodes, old(block.votes));
    }

    /** When the log is a certificate, a block of the log gets all its signatures. */
    method MergeIfPrepared(block: Block) returns (ok: bool)
      requires Valid() && block in Blocks(prepareMsgs)
      modifies block, this`stage
      ensures Valid()
      ensures stage == if ok then Prepared else old(stage)
      ensures !ok ==> block.votes == old(block.votes) && AllVotes(prepareMsgs) == old(AllVotes(prepareMsgs))
      ensures ok ==> |prepareMsgs| >= 2 * F && |block.votes| > 2 * F && Distinct(block.votes)
      ensures ok ==> |old(AllVotes(prepareMsgs))| > 2 * F && SometimesCounted(crypto, prepareMsgs)
      ensures ok ==> AllVouched(crypto, accepted, registered, block.votes) && Elements(block.votes) == AllVotes(prepareMsgs)
      ensures !ok && AlwaysCounted(crypto, prepareMsgs) ==> |prepareMsgs| < 2 * F || |AllVotes(prepareMsgs)| <= 2 * F
    {
      hide AlwaysCounted, SometimesCounted, Enumerates, Tally, AllVotes, History, LogVouched, Elements, Distinct, AllVouched;
      var validSigs;
      ghost var order;
      ok, validSigs, order := IsPrepared();
      EnoughCounted(order);
      if ok {
        CollectedAreVouched(validSigs);
        DistinctCount(validSigs);
        MergeVotes(block, validSigs);
        label Merged:
        stage := Prepared;
        LogKept@Merged();
      }
    }

    /** The block gets all signatures of the log that it is in; the signatures in the log remain the same. */
    method MergeVotes(block: Block, sigs: seq<Signature>)
      requires Valid() && block in Blocks(prepareMsgs)
      requires Elements(sigs) == AllVotes(prepareMsgs) && AllVouched(crypto, accepted, registered, sigs)
      modifies block
      ensures Valid() && block.votes == sigs && AllVotes(prepareMsgs) == old(AllVotes(prepareMsgs))
    {
      block.votes := sigs;
      forall s | s in sigs ensures Vouched(crypto, accepted, registered, s) {
        var k :| 0 <= k < |sigs| && sigs[k] == s;
      }
      VotesRewritten(block);
      forall s ensures s in AllVotes(prepareMsgs) <==> s in Elements(sigs) {
        if s in AllVotes(prepareMsgs) {
          var n :| n in prepareMsgs && s in prepareMsgs[n].block.votes;
          if prepareMsgs[n].block != block { assert s in old(prepareMsgs[n].block.votes); }
        }
        if s in Elements(sigs) {
          var n :| n in prepareMsgs && prepareMsgs[n].block == block;
          assert s in prepareMsgs[n].block.votes;
        }
      }
    }

    /** Commit: logs the message and, when both logs are certificates, runs the transactions of its block. */
    method Commit(msg: VoteMsg, nodes: set<NodeID>) returns (reply: Option<ReplyMsg>, err: bool)
      requires Valid()
      modifies this`commitMsgs, this`stage, this`world, this`lastSequenceID, this`executed, msg.block
      ensures Valid()
      ensures msg.block.votes == if old(VerifyMsg(msg.viewID, msg.sequenceID))
                                 then ValidVotes(crypto, msg.block.blockID, nodes, old(msg.block.votes)) else old(msg.block.votes)
      ensures err <==> !old(VerifyMsg(msg.viewID, msg.sequenceID)) || |msg.block.votes| < 2 * F
      ensures err <==>
        msg.viewID != viewID || (old(lastSequenceID) != -1 && old(lastSequenceID) >= msg.sequenceID) || |msg.block.votes| < 2 * F
      ensures commitMsgs == if err then old(commitMsgs) else old(commitMsgs)[msg.nodeID := msg]
      ensures reply.None? ==> stage == old(stage) && lastSequenceID == old(lastSequenceID) && executed == old(executed)
      ensures reply.Some? ==>
        !err && stage == Committed && lastSequenceID == msg.sequenceID && Extends(msg, old(executed))
        && reply.value == ReplyMsg(viewID, nodeID, nodeName, msg.block.transactions)
        && Complete(crypto, prepareMsgs, commitMsgs)
      ensures !err && reply.None? ==> Short(crypto, prepareMsgs, commitMsgs)
    {
      hide Complete, Short, AllVotes, ValidVotes, Valid, AllVouched, Extends, Blocks;
      if !VerifyMsg(msg.viewID, msg.sequenceID) {
        return None, true;
      }
      CheckVotes(msg.block, nodes);
      if |msg.block.votes| < 2 * F {
        return None, true;
      }
      LogCommit(msg);
      reply := ExecuteIfCommitted(msg);
      err := false;
    }

    /** Files a commit message. */
    method LogCommit(msg: VoteMsg)
      requires Valid()
      modifies this`commitMsgs
      ensures Valid() && commitMsgs == old(commitMsgs)[msg.nodeID := msg]
    {
      hide History, LogVouched;
      commitMsgs := commitMsgs[msg.nodeID := msg];
      LogKept();
    }

    /** When both logs are certificates, the transactions of the block run. */
    method ExecuteIfCommitted(msg: VoteMsg) returns (reply: Option<ReplyMsg>)
      requires Valid() && Accepts(lastSequenceID, msg.sequenceID)
      modifies this`stage, this`world, this`lastSequenceID, this`executed
      ensures Valid()
      ensures reply.None? ==> stage == old(stage) && lastSequenceID == old(lastSequenceID) && executed == old(executed)
      ensures reply.Some? ==> stage == Committed && lastSequenceID == msg.sequenceID && Extends(msg, old(executed))
                              && reply.value == ReplyMsg(viewID, nodeID, nodeName, msg.block.transactions)
      ensures reply.Some? ==> Complete(crypto, prepareMsgs, commitMsgs)
      ensures reply.None? ==> Short(crypto, prepareMsgs, commitMsgs)
    {
      hide AlwaysCounted, SometimesCounted, Enumerates, Tally, AllVotes, Valid, Elements, Distinct, Certified, Accepts;
      var ok, validSigs, order := IsCommitted();
      EnoughCounted(order);
      if !ok {
        return None;
      }
      ghost var e := Execution(msg.sequenceID, msg.block.transactions, BlockIDs(prepareMsgs), commitMsgs.Keys, validSigs,
                               accepted, registered);
      CertificateHolds(e, order);
      var receipts := Execute(msg, e);
      return Some(ReplyMsg(viewID, nodeID, nodeName, receipts));
    }

    /** Runs the transactions of the block of a commit message. */
    method Execute(msg: VoteMsg, ghost e: Execution) returns (receipts: seq<Transaction>)
      requires Valid() && Accepts(lastSequenceID, msg.sequenceID) && Certified(crypto, e)
      requires e.sequenceID == msg.sequenceID && e.transactions == msg.block.transactions
      modifies this`stage, this`world, this`lastSequenceID, this`executed
      ensures Valid() && AllVotes(prepareMsgs) == old(AllVotes(prepareMsgs)) && receipts == msg.block.transactions
      ensures stage == Committed && lastSequenceID == msg.sequenceID && executed == old(executed) + [e]
    {
      hide AllVotes, History, LogVouched, Certified;
      receipts := RunTransactions(msg.block.transactions);
      HistoryGrows(crypto, firstSequenceID, executed, lastSequenceID, old(world), e);
      stage := Committed;
      lastSequenceID := msg.sequenceID;
      executed := executed + [e];
      LogKept();
    }

    /** One execution more than before: that of the block of a message, on the strength of the logs. */
    ghost predicate Extends(msg: VoteMsg, before: seq<Execution>)
      reads this
    {
      |executed| == |before| + 1 && executed[..|before|] == before
      && var e := executed[|before|];
        e.sequenceID == msg.sequenceID && e.transactions == msg.block.transactions && e.prepared == BlockIDs(prepareMsgs)
        && e.committers == commitMsgs.Keys && e.accepted == accepted && e.registered == registered
    }

    /** committed. */
    method IsCommitted() returns (ok: bool, validSigs: seq<Signature>, ghost order: seq<NodeID>)
      requires Valid()
      ensures Valid() && Enumerates(order, prepareMsgs.Keys)
      ensures ok <==> |prepareMsgs| >= 2 * F && Tally(crypto, prepareMsgs, order).0 >= 2 * F
                      && |AllVotes(prepareMsgs)| > 2 * F && |commitMsgs| >= 2 * F
      ensures ok ==> Distinct(validSigs) && Elements(validSigs) == AllVotes(prepareMsgs) && |validSigs| > 2 * F
    {
      ok, validSigs, order := IsPrepared();
      if ok && |commitMsgs| < 2 * F {
        ok := false;
      }
    }

    /** Runs transactions on the world state, one after the other. */
    method RunTransactions(transactions: seq<Transaction>) returns (receipts: seq<Transaction>)
      modifies this`world
      ensures world == old(world) + transactions && receipts == transactions
    {
      receipts := [];
      var i := 0;
      while i < |transactions|
        invariant i <= |transactions| && receipts == transactions[..i] && world == old(world) + transactions[..i]
      {
        world, receipts := world + [transactions[i]], receipts + [transactions[i]];
        i := i + 1;
      }
    }

    /** What has been checked amounts to a certificate. */
    lemma CertificateHolds(e: Execution, order: seq<NodeID>)
      requires Valid() && Enumerates(order, prepareMsgs.Keys)
      requires |prepareMsgs| >= 2 * F && |commitMsgs| >= 2 * F && Tally(crypto, prepareMsgs, order).0 >= 2 * F
      requires e.prepared == BlockIDs(prepareMsgs) && e.committers == commitMsgs.Keys
      requires e.accepted == accepted && e.registered == registered
      requires Distinct(e.signatures) && Elements(e.signatures) == AllVotes(prepareMsgs) && |e.signatures| > 2 * F
      ensures Certified(crypto, e)
    {
      CollectedAreVouched(e.signatures);
      assert e.prepared.Keys == prepareMsgs.Keys;
      assert |e.prepared| == |e.prepared.Keys| && |commitMsgs| == |commitMsgs.Keys| && |prepareMsgs| == |prepareMsgs.Keys|;
      if NoZeroHash(crypto) {
        CountedShareID(crypto, prepareMsgs, order);
        var h :| |WithID(BlockIDs(prepareMsgs), h)| >= Tally(crypto, prepareMsgs, order).0;
        assert |WithID(e.prepared, h)| >= 2 * F;
      }
    }
  }
}
