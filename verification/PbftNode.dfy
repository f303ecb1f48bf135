/** One node of the network (node.go, and the pools of the directory pool): its message pools and its steps over the
    consensus state. */
module PbftNode {
  import opened Machine
  import opened PbftConsensus

  /** nil, the error that says that enough messages have come, and all other errors. */
  datatype Outcome = Done | Enough | Failed

  /** The fewest transactions that start a round at once. */
  const MIN_ACCUMULATED_TX: nat := 2

  // ------------------------------------------------------------- the pools of messages

  /** Messages by a key of their own: the hash of a request, the block ID of a pre-prepare message, the name of a voter,
      the node ID of a replier. */
  class Pool<K(==), M> {
    const key: M -> K
    var pool: map<K, M>

    ghost predicate Valid()
      reads this
    {
      forall k :: k in pool ==> key(pool[k]) == k
    }

    constructor (key: M -> K)
      ensures Valid() && pool == map[] && this.key == key
    {
      this.key, pool := key, map[];
    }

    method Add(msg: M)
      requires Valid()
      modifies this
      ensures Valid() && pool == old(pool)[key(msg) := msg]
    {
      pool := pool[key(msg) := msg];
    }

    method Del(k: K)
      requires Valid()
      modifies this
      ensures Valid() && pool == old(pool) - {k}
    {
      if k in pool {
        pool := pool - {k};
      }
    }

    method DelAll()
      modifies this
      ensures Valid() && pool == map[]
    {
      pool := map[];
    }

    /** All messages, in any order. */
    method GetAll() returns (msgs: seq<M>)
      requires Valid()
      ensures Holds(key, pool, msgs)
    {
      hide Keys, Elements, Distinct;
      msgs := [];
      var todo := pool.Keys;
      NoKeys(key, pool);
      while todo != {}
        invariant todo <= pool.Keys && |msgs| + |todo| == |pool.Keys|
        invariant Distinct(Keys(key, msgs)) && Elements(Keys(key, msgs)) == pool.Keys - todo
        invariant forall i :: 0 <= i < |msgs| ==> key(msgs[i]) in pool && msgs[i] == pool[key(msgs[i])]
      {
        var k :| k in todo;
        OneMoreKey(key, msgs, pool[k]);
        assert pool.Keys - todo + {k} == pool.Keys - (todo - {k});
        msgs := msgs + [pool[k]];
        todo := todo - {k};
      }
      assert |pool| == |pool.Keys| && pool.Keys - todo == pool.Keys;
    }

    /** The messages are handed over and deleted, but the bound of the deleting loop is the shrinking pool: half of them
        stay, and will be handed over again. */
    method Deliver() returns (msgs: seq<M>)
      requires Valid()
      modifies this
      ensures Valid() && Delivered(key, old(pool), pool, msgs)
    {
      hide Keys, Elements, Distinct;
      msgs := GetAll();
      var i := 0;
      NothingDeleted(key, pool, msgs);
      while i < |pool|
        invariant i <= (|msgs| + 1) / 2 && i <= |msgs| && Valid()
        invariant pool == old(pool) - Elements(Keys(key, msgs)[..i]) && |pool| == |msgs| - i
      {
        OneMoreDeleted(key, old(pool), msgs, i, pool);
        Del(key(msgs[i]));
        i := i + 1;
      }
    }
  }

  /** The messages of a pool, each once. */
  ghost predicate Holds<K, M>(key: M -> K, pool: map<K, M>, msgs: seq<M>) {
    |msgs| == |pool| && Distinct(Keys(key, msgs)) && Elements(Keys(key, msgs)) == pool.Keys
    && forall i :: 0 <= i < |msgs| ==> key(msgs[i]) in pool && msgs[i] == pool[key(msgs[i])]
  }

  /** All messages of a pool, of which half stay in it. */
  ghost predicate Delivered<K, M>(key: M -> K, before: map<K, M>, after: map<K, M>, msgs: seq<M>) {
    Holds(key, before, msgs) && after == before - Elements(Keys(key, msgs)[..(|msgs| + 1) / 2]) && |after| == |before| / 2
  }

  /** A pool is emptied into a batch if it is due, and left alone otherwise. */
  ghost predicate Drained<K, M>(key: M -> K, before: map<K, M>, after: map<K, M>, msgs: seq<M>, due: bool) {
    if due then Delivered(key, before, after, msgs) else msgs == [] && after == before
  }

  lemma NothingDue<K, M>(key: M -> K, pool: map<K, M>)
    ensures Drained(key, pool, pool, [], false)
  {
  }

  ghost function Keys<K, M>(key: M -> K, msgs: seq<M>): (keys: seq<K>)
    ensures |keys| == |msgs| && forall i :: 0 <= i < |msgs| ==> keys[i] == key(msgs[i])
  {
    seq(|msgs|, i requires 0 <= i < |msgs| => key(msgs[i]))
  }

  lemma NoKeys<K, M>(key: M -> K, pool: map<K, M>)
    ensures Distinct(Keys(key, [])) && Elements(Keys(key, [])) == pool.Keys - pool.Keys
  {
    assert Keys(key, []) == [];
  }

  lemma OneMoreKey<K, M>(key: M -> K, msgs: seq<M>, m: M)
    requires Distinct(Keys(key, msgs)) && key(m) !in Elements(Keys(key, msgs))
    ensures Distinct(Keys(key, msgs + [m])) && Elements(Keys(key, msgs + [m])) == Elements(Keys(key, msgs)) + {key(m)}
  {
    assert Keys(key, msgs + [m]) == Keys(key, msgs) + [key(m)];
  }

  lemma NothingDeleted<K, M>(key: M -> K, pool: map<K, M>, msgs: seq<M>)
    ensures pool - Elements(Keys(key, msgs)[..0]) == pool
  {
    assert Keys(key, msgs)[..0] == [];
  }

  lemma MinusTwice<K, V>(m: map<K, V>, a: set<K>, x: K)
    ensures m - a - {x} == m - (a + {x})
  {
  }

  lemma MinusOneKey<K, V>(m: map<K, V>, x: K)
    requires x in m
    ensures |m - {x}| == |m| - 1
  {
    assert (m - {x}).Keys == m.Keys - {x};
    assert |m.Keys| == |m| && |(m - {x}).Keys| == |m - {x}|;
  }

  lemma OneMoreDeleted<K, M>(key: M -> K, before: map<K, M>, msgs: seq<M>, i: nat, pool: map<K, M>)
    requires i < |msgs| && Distinct(Keys(key, msgs)) && Elements(Keys(key, msgs)) == before.Keys
    requires pool == before - Elements(Keys(key, msgs)[..i])
    ensures pool - {key(msgs[i])} == before - Elements(Keys(key, msgs)[..i + 1]) && |pool - {key(msgs[i])}| == |pool| - 1
  {
    var keys := Keys(key, msgs);
    assert keys[i] in Elements(keys) && keys[i] !in keys[..i];
    assert keys[..i + 1] == keys[..i] + [keys[i]];
    assert Elements(keys[..i + 1]) == Elements(keys[..i]) + {keys[i]};
    MinusTwice(before, Elements(keys[..i]), keys[i]);
    MinusOneKey(pool, keys[i]);
  }

  function BlockIDOf(m: PrePrepareMsg): Hash { m.block.blockID }
  function NameOf(m: VoteMsg): string { m.nodeName }
  function NodeOf(m: ReplyMsg): NodeID { m.nodeID }

  datatype Message =
    OfRequest(request: RequestMsg) | OfPrePrepare(prePrepare: PrePrepareMsg) | OfVote(vote: VoteMsg) | OfReply(reply: ReplyMsg)

  /** strings.Split(s, "::"). */
  function Split(s: string): (r: seq<string>)
    ensures |r| > 0
  {
    SplitFrom(s, 0)
  }

  function SplitFrom(s: string, i: nat): (r: seq<string>)
    requires i <= |s|
    ensures |r| > 0
    decreases |s|, |s| - i
  {
    if i + 1 >= |s| then [s]
    else if s[i] == ':' && s[i + 1] == ':' then [s[..i]] + SplitFrom(s[i + 2..], 0)
    else SplitFrom(s, i + 1)
  }

  /** The parts with the separator between them. */
  function Join(parts: seq<string>): string
    requires |parts| > 0
  {
    if |parts| == 1 then parts[0] else parts[0] + "::" + Join(parts[1..])
  }

  /** There is no separator in s. */
  ghost predicate Unbroken(s: string) {
    forall j :: 0 <= j < |s| - 1 ==> !(s[j] == ':' && s[j + 1] == ':')
  }

  /** No separator begins in a part, not even with what follows it. */
  ghost predicate EndsAtSeparator(s: string) {
    forall j :: 0 <= j < |s| ==> !(s[j] == ':' && (s + "::")[j + 1] == ':')
  }

  ghost predicate Parts(parts: seq<string>) {
    |parts| > 0 && (forall k :: 0 <= k < |parts| - 1 ==> EndsAtSeparator(parts[k])) && Unbroken(parts[|parts| - 1])
  }

  /** The parts are those between the separators, taken from the left, and nothing is lost. */
  lemma SplitIsExact(s: string)
    ensures Join(Split(s)) == s && Parts(Split(s))
  {
    SplitFromIsExact(s, 0);
  }

  lemma {:induction false} SplitFromIsExact(s: string, i: nat)
    requires i <= |s| && forall j :: 0 <= j < i && j + 1 < |s| ==> !(s[j] == ':' && s[j + 1] == ':')
    ensures Join(SplitFrom(s, i)) == s && Parts(SplitFrom(s, i))
    decreases |s|, |s| - i
  {
    hide Parts, Join;
    if i + 1 >= |s| {
      LastPart(s);
    } else if s[i] == ':' && s[i + 1] == ':' {
      SplitFromIsExact(s[i + 2..], 0);
      EndOfPart(s, i);
      OnePartMore(s[..i], SplitFrom(s[i + 2..], 0));
      assert s == s[..i] + "::" + s[i + 2..];
    } else {
      SplitFromIsExact(s, i + 1);
    }
  }

  lemma LastPart(s: string)
    requires Unbroken(s)
    ensures Parts([s]) && Join([s]) == s
  {
  }

  lemma OnePartMore(p: string, rest: seq<string>)
    requires EndsAtSeparator(p) && Parts(rest)
    ensures Parts([p] + rest) && Join([p] + rest) == p + "::" + Join(rest)
  {
    hide EndsAtSeparator, Unbroken;
    assert ([p] + rest)[1..] == rest;
  }

  lemma EndOfPart(s: string, i: nat)
    requires i + 1 < |s| && s[i] == ':' && s[i + 1] == ':'
    requires forall j :: 0 <= j < i ==> !(s[j] == ':' && s[j + 1] == ':')
    ensures EndsAtSeparator(s[..i])
  {
    var p := s[..i];
    forall j | 0 <= j < |p| ensures !(p[j] == ':' && (p + "::")[j + 1] == ':') {
      assert (p + "::")[j + 1] == s[j + 1];
    }
  }

  // ------------------------------------------------------------- the node

  class Node {
    const crypto: Crypto
    const nodeName: string
    const nodeID: NodeID
    const viewID: uint64
    const primaryName: string
    const requests: Pool<Hash, RequestMsg>
    const prePrepares: Pool<Hash, PrePrepareMsg>
    const prepares: Pool<string, VoteMsg>
    const commits: Pool<string, VoteMsg>
    const replies: Pool<NodeID, ReplyMsg>
    /** The registered nodes. */
    var nodeInfo: set<NodeID>
    var currentState: State?
    var waiting: seq<Transaction>

    ghost predicate Valid()
      reads this, requests, prePrepares, prepares, commits, replies, currentState
      reads if currentState == null then {} else currentState.blocks
    {
      && ValidPools()
      && (currentState != null ==> currentState.Valid() && Owns(currentState))
      && (waiting != [] ==> currentState != null)
    }

    /** The state is of this node, in its view. */
    ghost predicate Owns(s: State) {
      s.crypto == crypto && s.viewID == viewID && s.nodeID == nodeID && s.nodeName == nodeName
    }

    lemma NodeParts()
      requires Valid()
      ensures ValidPools() && (currentState != null ==> currentState.Valid() && Owns(currentState))
    {
    }

    lemma NodeFromParts()
      requires ValidPools() && currentState != null && currentState.Valid() && Owns(currentState)
      ensures Valid()
    {
    }

    ghost predicate ValidPools()
      reads requests, prePrepares, prepares, commits, replies
    {
      && prepares != commits && requests.Valid() && prePrepares.Valid() && prepares.Valid() && commits.Valid() && replies.Valid()
      && requests.key == crypto.requestHash && prePrepares.key == BlockIDOf && prepares.key == commits.key == NameOf
      && replies.key == NodeOf
    }

    /** NewNode, without its goroutines. */
    constructor (crypto: Crypto, nodeName: string, nodeID: NodeID, primaryName: string)
      ensures Valid() && currentState == null && nodeInfo == {nodeID} && this.crypto == crypto && viewID == 10_000_000_000
      ensures fresh(requests) && fresh(prePrepares) && fresh(prepares) && fresh(commits) && fresh(replies)
    {
      this.crypto, this.nodeName, this.nodeID, this.primaryName := crypto, nodeName, nodeID, primaryName;
      viewID := 10_000_000_000;
      requests := new Pool(crypto.requestHash);
      prePrepares := new Pool(BlockIDOf);
      prepares := new Pool(NameOf);
      commits := new Pool(NameOf);
      replies := new Pool(NodeOf);
      nodeInfo, currentState, waiting := {nodeID}, null, [];
    }

    /** createStateForNewConsensus; no committed message is ever recorded, so a new state has no last sequence ID. */
    method CreateState()
      requires Valid() && currentState == null
      modifies this`currentState
      ensures Valid() && currentState != null && fresh(currentState) && currentState.executed == []
      ensures currentState.viewID == viewID && currentState.lastSequenceID == -1 && currentState.Empty()
    {
      currentState := new State(crypto, viewID, -1, nodeName, nodeID);
    }

    /** GetReq: the request becomes a waiting transaction. The source indexes both parts of the operation. */
    method GetReq(req: RequestMsg)
      requires Valid() && |Split(req.operation)| >= 2
      modifies this`currentState, this`waiting, requests
      ensures Valid() && currentState != null && (old(currentState) != null ==> currentState == old(currentState))
      ensures waiting == old(waiting) + [Transaction(req.clientID, Split(req.operation)[0], Split(req.operation)[1], req.args)]
      ensures requests.pool == old(requests.pool) - {crypto.requestHash(req)}
    {
      hide State.Valid;
      if currentState == null {
        CreateState();
      }
      var op := Split(req.operation);
      waiting := waiting + [Transaction(req.clientID, op[0], op[1], req.args)];
      requests.Del(crypto.requestHash(req));
    }

    /** Whether a turn of transactionConsensus begins a round. */
    predicate Starts(timeIsUp: bool)
      reads this, currentState
    {
      currentState != null && currentState.stage == Idle && waiting != [] && (|waiting| >= MIN_ACCUMULATED_TX || timeIsUp)
    }

    /** One turn of transactionConsensus: a round starts when there are enough transactions, or some and the time is up.
        No state is missing when one is needed. If the loop of StartConsensus has not ended after the given number of
        turns, nothing has happened yet. */
    method TransactionConsensus(now: int64, timeIsUp: bool, turns: nat) returns (msg: Option<PrePrepareMsg>)
      requires Valid()
      modifies this`waiting, currentState
      ensures Valid() && currentState == old(currentState)
      ensures currentState != null ==>
        unchanged(currentState`prepareMsgs, currentState`commitMsgs, currentState`lastSequenceID, currentState`executed,
                  currentState`world, currentState`accepted, currentState`registered)
      ensures msg.Some? <==> old(Starts(timeIsUp)) && EndsWithin(old(currentState.lastSequenceID), now, turns)
      ensures msg.Some? ==>
        waiting == [] && currentState.stage == PrePrepared
        && msg.value == PrePrepareMsg(viewID, msg.value.sequenceID, nodeName, nodeID, msg.value.block)
        && msg.value.sequenceID as int
           == (if Accepts(currentState.lastSequenceID, now) then now as int else currentState.lastSequenceID as int + 1)
        && msg.value.block.transactions == old(waiting) && msg.value.block.sender == nodeID
        && msg.value.block.blockID == crypto.contentHash(old(waiting))
        && currentState.VerifyMsg(msg.value.viewID, msg.value.sequenceID)
        && msg.value.block.votes == Own(crypto, msg.value.block.blockID)
      ensures msg.None? ==> waiting == old(waiting) && (currentState != null ==> currentState.stage == old(currentState.stage))
    {
      hide ValidPools, History, EndsWithin, State.LogVouched;
      if currentState != null && currentState.stage != Idle {
        return None;
      }
      if |waiting| >= MIN_ACCUMULATED_TX || (currentState != null && |waiting| != 0 && timeIsUp) {
        msg := currentState.StartConsensus(nodeID, nodeName, waiting, now, turns);
        if msg.None? {
          return None;
        }
        label Started:
        msg.value.block.AddSignature(crypto);
        currentState.LogKept@Started();
        waiting := [];
        return msg;
      }
      return None;
    }

    /** GetPrePrepare: the prepare message that is broadcast carries the valid votes and the own signature. */
    method GetPrePrepare(msg: PrePrepareMsg) returns (vote: Option<VoteMsg>)
      requires Valid()
      modifies this`currentState, currentState, msg.block, prePrepares
      ensures Valid() && currentState != null && (old(currentState) != null ==> currentState == old(currentState))
      ensures old(currentState) != null ==>
        unchanged(currentState`prepareMsgs, currentState`commitMsgs, currentState`lastSequenceID, currentState`executed,
                  currentState`world, currentState`accepted, currentState`registered)
      ensures vote.Some? <==>
        if old(currentState) == null then msg.viewID == viewID else old(currentState.VerifyMsg(msg.viewID, msg.sequenceID))
      ensures vote.None? ==> msg.block.votes == old(msg.block.votes) && prePrepares.pool == old(prePrepares.pool)
      ensures old(currentState) == null ==> currentState.Empty() && currentState.lastSequenceID == -1 && currentState.executed == []
      ensures vote.Some? ==> prePrepares.pool == old(prePrepares.pool) - {msg.block.blockID}
      ensures vote.Some? ==>
        currentState.stage == PrePrepared && vote.value == VoteMsg(PrepareMsg, viewID, msg.sequenceID, nodeName, nodeID, msg.block)
        && msg.block.votes == ValidVotes(crypto, msg.block.blockID, nodeInfo, old(msg.block.votes)) + Own(crypto, msg.block.blockID)
    {
      hide State.Valid, ValidPools, ValidVotes, Own;
      if currentState == null {
        CreateState();
      }
      vote := currentState.PrePrepare(msg, nodeInfo);
      if vote.Some? {
        vote := Some(vote.value.(nodeName := nodeName));
        Sign(msg.block);
        DelPrePrepare(msg.block.blockID);
      }
    }

    method DelPrePrepare(blockID: Hash)
      requires ValidPools()
      modifies prePrepares
      ensures ValidPools() && prePrepares.pool == old(prePrepares.pool) - {blockID}
    {
      prePrepares.Del(blockID);
    }

    /** The own signature is appended to the votes of a block, which may be in the logs. */
    method Sign(block: Block)
      requires Valid() && currentState != null
      modifies block
      ensures Valid() && block.votes == old(block.votes) + Own(crypto, block.blockID)
    {
      OwnIsVouched(currentState, block);
      hide State.Valid;
      block.AddSignature(crypto);
      currentState.VotesRewritten(block);
    }

    /** GetPrepare: on enough prepare messages, the commit message that is broadcast carries all signatures of the log,
        at least 2f + 1 and each vouched for, and the own one. */
    method GetPrepare(msg: VoteMsg) returns (commitMsg: Option<VoteMsg>, outcome: Outcome)
      requires Valid() && currentState != null
      modifies currentState`prepareMsgs, currentState`stage, currentState`accepted, currentState`registered, currentState`blocks,
               prepares, msg.block
      ensures Valid() && currentState.executed == old(currentState.executed)
      ensures currentState.lastSequenceID == old(currentState.lastSequenceID)
      ensures currentState.commitMsgs == old(currentState.commitMsgs)
      ensures outcome == Failed <==> !old(currentState.VerifyMsg(msg.viewID, msg.sequenceID))
      ensures outcome == Enough <==> commitMsg.Some?
      ensures currentState.prepareMsgs ==
        if outcome == Failed then old(currentState.prepareMsgs) else old(currentState.prepareMsgs)[msg.nodeID := msg]
      ensures currentState.registered == old(currentState.registered) + if outcome == Failed then {} else nodeInfo
      ensures prepares.pool == if outcome == Enough then map[] else old(prepares.pool)
      ensures outcome != Enough ==>
        currentState.stage == old(currentState.stage)
        && msg.block.votes == if outcome == Failed then old(msg.block.votes)
                              else ValidVotes(crypto, msg.block.blockID, nodeInfo, old(msg.block.votes))
      ensures outcome == Enough ==>
        currentState.stage == Prepared
        && commitMsg.value == VoteMsg(CommitMsg, viewID, msg.sequenceID, nodeName, nodeID, msg.block)
        && |currentState.prepareMsgs| >= 2 * F && CarriesCertificate(currentState, msg.block)
        && |AllVotes(currentState.prepareMsgs)| > 2 * F && SometimesCounted(crypto, currentState.prepareMsgs)
        && |old(VotesWith(currentState.prepareMsgs[msg.nodeID := msg], msg.block,
                          ValidVotes(crypto, msg.block.blockID, nodeInfo, msg.block.votes)))| > 2 * F
      ensures outcome == Done ==>
        AllVotes(currentState.prepareMsgs) ==
        old(VotesWith(currentState.prepareMsgs[msg.nodeID := msg], msg.block,
                      ValidVotes(crypto, msg.block.blockID, nodeInfo, msg.block.votes)))
      ensures outcome == Done && AlwaysCounted(crypto, currentState.prepareMsgs) ==>
        |currentState.prepareMsgs| < 2 * F || |AllVotes(currentState.prepareMsgs)| <= 2 * F
    {
      hide State.Valid, AllVouched, ValidPools, VotesWith, ValidVotes, AlwaysCounted, SometimesCounted, AllVotes;
      var err;
      commitMsg, err := currentState.Prepare(msg, nodeInfo);
      if err {
        return None, Failed;
      }
      if commitMsg.None? {
        return None, Done;
      }
      commitMsg := Some(commitMsg.value.(nodeName := nodeName));
      ghost var sigs := msg.block.votes;
      Sign(msg.block);
      DelPrepares();
      assert msg.block.votes[..|sigs|] == sigs;
      EnoughVotes(currentState.prepareMsgs, msg, sigs);
      return commitMsg, Enough;
    }

    method DelPrepares()
      requires ValidPools()
      modifies prepares
      ensures ValidPools() && prepares.pool == map[]
    {
      prepares.DelAll();
    }

    /** Whether GetCommit files a message. */
    ghost predicate Counts(msg: VoteMsg)
      reads this, currentState, msg.block
      requires currentState != null
    {
      currentState.VerifyMsg(msg.viewID, msg.sequenceID)
      && |ValidVotes(crypto, msg.block.blockID, nodeInfo, msg.block.votes)| >= 2 * F
    }

    /** GetCommit: an execution empties the logs. */
    method GetCommit(msg: VoteMsg) returns (reply: Option<ReplyMsg>, outcome: Outcome)
      requires Valid() && currentState != null
      modifies currentState, commits, msg.block
      ensures Valid()
      ensures outcome == Enough <==> reply.Some?
      ensures reply.Some? ==> reply.value == ReplyMsg(viewID, nodeID, nodeName, msg.block.transactions)
      ensures outcome == Failed <==> !old(Counts(msg))
      ensures msg.block.votes == if old(currentState.VerifyMsg(msg.viewID, msg.sequenceID))
                                 then ValidVotes(crypto, msg.block.blockID, nodeInfo, old(msg.block.votes))
                                 else old(msg.block.votes)
      ensures outcome != Enough ==>
        currentState.lastSequenceID == old(currentState.lastSequenceID)
        && currentState.registered == old(currentState.registered) && commits.pool == old(commits.pool)
      ensures outcome != Enough ==>
        currentState.executed == old(currentState.executed) && currentState.prepareMsgs == old(currentState.prepareMsgs)
        && currentState.commitMsgs == if outcome == Done then old(currentState.commitMsgs)[msg.nodeID := msg]
                                      else old(currentState.commitMsgs)
      ensures outcome == Done ==> Short(crypto, currentState.prepareMsgs, currentState.commitMsgs)
      ensures outcome == Enough ==>
        Executes(old(currentState.executed), currentState.executed, msg, BlockIDs(old(currentState.prepareMsgs)),
                 old(currentState.commitMsgs).Keys + {msg.nodeID}, old(currentState.registered))
        && currentState.Empty() && commits.pool == map[]
        && currentState.lastSequenceID == msg.sequenceID
        && currentState.stage == if nodeName == primaryName then Committed else Idle
      ensures outcome == Enough ==>
        Complete(crypto, old(currentState.prepareMsgs), old(currentState.commitMsgs)[msg.nodeID := msg])
    {
      hide Valid, State.Valid, BlockIDs, State.Extends, Executes, ValidVotes, Complete, Short,
           ValidPools, Accepts, State.VerifyMsg;
      NodeParts();
      ghost var before := currentState.executed;
      var err;
      reply, err := currentState.Commit(msg, nodeInfo);
      NodeFromParts();
      if err {
        return None, Failed;
      }
      if reply.None? {
        return None, Done;
      }
      ExtendsExecutes(currentState, msg, before);
      assert currentState.commitMsgs.Keys == old(currentState.commitMsgs).Keys + {msg.nodeID};
      EndRound(currentState.prepareMsgs, currentState.commitMsgs);
      return reply, Enough;
    }

    /** What GetCommit does after an execution. */
    method EndRound(ghost prepareMsgs: Log, ghost commitMsgs: Log)
      requires Valid() && currentState != null
      modifies currentState`prepareMsgs, currentState`commitMsgs, currentState`accepted, currentState`registered,
               currentState`blocks, currentState`stage, commits
      ensures Valid() && currentState.Empty() && commits.pool == map[]
      ensures currentState.stage == if nodeName == primaryName then old(currentState.stage) else Idle
      ensures old(Complete(crypto, prepareMsgs, commitMsgs)) ==> Complete(crypto, prepareMsgs, commitMsgs)
    {
      hide State.Valid, SometimesCounted;
      ghost var votes := AllVotes(prepareMsgs);
      EmptyLogs(currentState);
      if nodeName != primaryName {
        SetIdle(currentState);
      }
      commits.DelAll();
      assert forall n :: n in prepareMsgs ==> prepareMsgs[n].block.votes == old(prepareMsgs[n].block.votes);
      assert AllVotes(prepareMsgs) == votes;
    }

    /** A batch of votes that meets the state as it is. */
    ghost function BatchOf(log: Log, msgs: seq<VoteMsg>): Batch
      reads this, currentState, BlocksOf(msgs) + Blocks(log)
      requires currentState != null
    {
      Batch(crypto, nodeInfo, currentState.viewID, currentState.lastSequenceID, log, msgs, Snapshot(BlocksOf(msgs) + Blocks(log)))
    }

    /** resolvePrepareMsg: messages are handled until one completes the certificate: after it the log suffices, and has 2f
        equal blocks in some order; after none before it does the log suffice with 2f equal blocks in every order. Messages
        may share blocks with one another and with the log. Nothing is executed. */
    method ResolvePrepareMsg(msgs: seq<VoteMsg>) returns (errs: nat, ghost handled: nat, ghost completed: bool)
      requires Valid() && currentState != null
      modifies currentState, prepares, set m | m in msgs :: m.block
      ensures Valid() && currentState.executed == old(currentState.executed) && handled <= |msgs|
      ensures errs == old(BatchOf(currentState.prepareMsgs, msgs)).Refused(handled)
      ensures currentState.lastSequenceID == old(currentState.lastSequenceID)
      ensures currentState.commitMsgs == old(currentState.commitMsgs)
      ensures currentState.registered <= old(currentState.registered) + nodeInfo
      ensures currentState.prepareMsgs == old(BatchOf(currentState.prepareMsgs, msgs)).PreparesAfter(handled)
      ensures completed ==>
        0 < handled && currentState.stage == Prepared && prepares.pool == map[]
        && |currentState.prepareMsgs| >= 2 * F && |AllVotes(currentState.prepareMsgs)| > 2 * F
        && CarriesCertificate(currentState, msgs[handled - 1].block)
      ensures !completed ==>
        handled == |msgs| && currentState.stage == old(currentState.stage) && prepares.pool == old(prepares.pool)
        && old(BatchOf(currentState.prepareMsgs, msgs)).Reached(|msgs|)
      ensures var b := old(BatchOf(currentState.prepareMsgs, msgs));
        (completed ==> b.Suffices(handled) && SometimesCounted(crypto, b.PreparesAfter(handled)))
        && forall k :: 0 < k <= handled - (if completed then 1 else 0) ==> !b.Misses(k)
    {
      hide State.Valid, ValidPools, AlwaysCounted, SometimesCounted, AllVotes, VotesWith, ValidVotes, CarriesCertificate,
           Batch.PreparesAfter, Batch.Suffices, Batch.Misses, Batch.Reached, Snapshot;
      errs, handled, completed := 0, 0, false;
      ghost var b := BatchOf(currentState.prepareMsgs, msgs);
      ReachedAtFirst(b);
      var i := 0;
      while i < |msgs|
        invariant i == handled <= |msgs| && errs == b.Refused(i) && !completed
        invariant Valid() && currentState.executed == old(currentState.executed)
        invariant currentState.lastSequenceID == old(currentState.lastSequenceID)
        invariant currentState.commitMsgs == old(currentState.commitMsgs)
        invariant currentState.registered <= old(currentState.registered) + nodeInfo
        invariant currentState.stage == old(currentState.stage) && prepares.pool == old(prepares.pool)
        invariant currentState.prepareMsgs == b.PreparesAfter(i)
        invariant b.Reached(i) && forall k :: 0 < k <= i ==> !b.Misses(k)
      {
        var outcome := ResolvePrepareStep(msgs, i, b);
        i := i + 1;
        handled := i;
        if outcome == Enough {
          completed := true;
          break;
        }
        if outcome == Failed {
          errs := errs + 1;
        }
      }
    }

    /** One turn of its loop. */
    method ResolvePrepareStep(msgs: seq<VoteMsg>, i: nat, ghost b: Batch) returns (outcome: Outcome)
      requires Valid() && currentState != null && i < |msgs| && b.msgs == msgs
      requires b.crypto == crypto && b.nodes == nodeInfo && b.viewID == currentState.viewID && b.last == currentState.lastSequenceID
      requires currentState.prepareMsgs == b.PreparesAfter(i) && b.Reached(i)
      modifies currentState, prepares, msgs[i].block
      ensures outcome == Failed <==> !b.Passes(msgs[i])
      ensures Valid() && currentState.executed == old(currentState.executed)
      ensures currentState.lastSequenceID == old(currentState.lastSequenceID)
      ensures currentState.commitMsgs == old(currentState.commitMsgs)
      ensures currentState.registered <= old(currentState.registered) + nodeInfo
      ensures currentState.prepareMsgs == b.PreparesAfter(i + 1)
      ensures outcome == Enough ==>
        currentState.stage == Prepared && prepares.pool == map[]
        && |currentState.prepareMsgs| >= 2 * F && |AllVotes(currentState.prepareMsgs)| > 2 * F
        && CarriesCertificate(currentState, msgs[i].block)
      ensures outcome != Enough ==> currentState.stage == old(currentState.stage) && prepares.pool == old(prepares.pool)
      ensures
        if outcome == Enough then b.Suffices(i + 1) && SometimesCounted(crypto, b.PreparesAfter(i + 1))
        else b.Reached(i + 1) && !b.Misses(i + 1)
    {
      hide Valid, AlwaysCounted, SometimesCounted, AllVotes, VotesWith, ValidVotes, CarriesCertificate, Batch.SignaturesAfter,
           Batch.PreparesAfter, Batch.Reached, Batch.VotesAfter, Accepts;
      ghost var m := msgs[i];
      assert currentState.VerifyMsg(m.viewID, m.sequenceID) == b.Passes(m);
      FiledNext(b, i);
      ReachedApart(b, i);
      if b.Passes(m) { StepVotes(b, i); }
      var _, o := GetPrepare(msgs[i]);
      outcome := o;
      if outcome != Enough {
        ReachedNext(b, i);
      }
    }

    /** resolveCommitMsg: messages are handled until one is executed, if any; the logs are then empty. */
    method ResolveCommitMsg(msgs: seq<VoteMsg>) returns (errs: nat, ghost handled: nat)
      requires Valid() && currentState != null
      modifies currentState, commits, set m | m in msgs :: m.block
      ensures Valid() && handled <= |msgs| && errs == old(BatchOf(currentState.commitMsgs, msgs)).RefusedCommits(handled)
      ensures handled < |msgs| ==> handled > 0 && currentState.executed != old(currentState.executed)
      ensures currentState.executed == old(currentState.executed) ==>
        handled == |msgs| && currentState.prepareMsgs == old(currentState.prepareMsgs)
        && currentState.commitMsgs == old(BatchOf(currentState.commitMsgs, msgs)).CommitsAfter(|msgs|)
      ensures currentState.executed == old(currentState.executed) ==>
        var b := old(BatchOf(currentState.commitMsgs, msgs));
        msgs != [] && b.Counts(msgs[|msgs| - 1]) ==> Short(crypto, currentState.prepareMsgs, currentState.commitMsgs)
      ensures currentState.executed != old(currentState.executed) ==>
        handled > 0 && currentState.Empty() && currentState.lastSequenceID == msgs[handled - 1].sequenceID
        && Complete(crypto, old(currentState.prepareMsgs), old(BatchOf(currentState.commitMsgs, msgs)).CommitsAfter(handled))
        && Executes(old(currentState.executed), currentState.executed, msgs[handled - 1], BlockIDs(old(currentState.prepareMsgs)),
                    old(BatchOf(currentState.commitMsgs, msgs)).CommitsAfter(handled).Keys, old(currentState.registered))
    {
      hide Valid, Complete, Short, ValidVotes, BlockIDs, Snapshot, Batch.Kept, Batch.CommitsAfter, Batch.Counts;
      errs, handled := 0, 0;
      ghost var b := BatchOf(currentState.commitMsgs, msgs);
      KeptAtFirst(b);
      for i := 0 to |msgs|
        invariant Valid() && currentState.executed == old(currentState.executed) && handled == i && errs == b.RefusedCommits(i)
        invariant currentState.prepareMsgs == old(currentState.prepareMsgs) && currentState.commitMsgs == b.CommitsAfter(i)
        invariant currentState.lastSequenceID == old(currentState.lastSequenceID)
        invariant currentState.registered == old(currentState.registered) && b.Kept()
        invariant i > 0 && b.Counts(msgs[i - 1]) ==> Short(crypto, currentState.prepareMsgs, currentState.commitMsgs)
      {
        assert msgs[i] in msgs;
        var outcome := ResolveCommitStep(msgs, i, b);
        handled := i + 1;
        if outcome == Enough {
          break;
        }
        if outcome == Failed {
          errs := errs + 1;
        }
      }
    }

    /** One turn of its loop. */
    method ResolveCommitStep(msgs: seq<VoteMsg>, i: nat, ghost b: Batch) returns (outcome: Outcome)
      requires Valid() && currentState != null && i < |msgs| && b.msgs == msgs && b.Kept()
      requires b.crypto == crypto && b.nodes == nodeInfo && b.viewID == currentState.viewID && b.last == currentState.lastSequenceID
      requires currentState.commitMsgs == b.CommitsAfter(i)
      modifies currentState, commits, msgs[i].block
      ensures outcome == Failed <==> !b.Counts(msgs[i])
      ensures Valid()
      ensures outcome == Enough ==>
        currentState.Empty() && currentState.lastSequenceID == msgs[i].sequenceID
        && Executes(old(currentState.executed), currentState.executed, msgs[i], BlockIDs(old(currentState.prepareMsgs)),
                    b.CommitsAfter(i + 1).Keys, old(currentState.registered))
      ensures outcome != Enough ==>
        currentState.executed == old(currentState.executed) && currentState.prepareMsgs == old(currentState.prepareMsgs)
        && currentState.commitMsgs == b.CommitsAfter(i + 1) && currentState.lastSequenceID == old(currentState.lastSequenceID)
        && currentState.registered == old(currentState.registered) && b.Kept()
      ensures outcome != Enough && b.Counts(msgs[i]) ==> Short(crypto, currentState.prepareMsgs, currentState.commitMsgs)
      ensures outcome == Enough ==> b.Counts(msgs[i]) && Complete(crypto, old(currentState.prepareMsgs), b.CommitsAfter(i + 1))
    {
      hide Valid, Complete, Short, ValidVotes, BlockIDs, Accepts, Executes, Batch.Checked;
      ghost var m := msgs[i];
      CountedNext(b, i);
      assert Counts(m) == b.Counts(m);
      ValidVotesTwice(crypto, m.block.blockID, nodeInfo, m.block.votes);
      var _, o := GetCommit(msgs[i]);
      outcome := o;
      if outcome == Enough {
        assert b.CommitsAfter(i + 1).Keys == b.CommitsAfter(i).Keys + {m.nodeID};
      }
    }

    /** routeMsg: a message replaces the one with the same key in the pool of its type. */
    method RouteMsg(msg: Message)
      requires Valid()
      modifies requests, prePrepares, prepares, commits, replies
      ensures Valid()
      ensures requests.pool == match msg case OfRequest(m) => old(requests.pool)[crypto.requestHash(m) := m] case _ => old(requests.pool)
      ensures prePrepares.pool ==
        match msg case OfPrePrepare(m) => old(prePrepares.pool)[m.block.blockID := m] case _ => old(prePrepares.pool)
      ensures prepares.pool ==
        if msg.OfVote? && msg.vote.msgType == PrepareMsg then old(prepares.pool)[msg.vote.nodeName := msg.vote] else old(prepares.pool)
      ensures commits.pool ==
        if msg.OfVote? && msg.vote.msgType == CommitMsg then old(commits.pool)[msg.vote.nodeName := msg.vote] else old(commits.pool)
      ensures replies.pool == match msg case OfReply(m) => old(replies.pool)[m.nodeID := m] case _ => old(replies.pool)
    {
      hide State.Valid;
      match msg
      case OfRequest(m) => requests.Add(m);
      case OfPrePrepare(m) => prePrepares.Add(m);
      case OfVote(m) =>
        match m.msgType {
          case PrepareMsg => prepares.Add(m);
          case CommitMsg => commits.Add(m);
        }
      case OfReply(m) => replies.Add(m);
    }

    /** The stage that decides what is delivered; a node without a state is idle. */
    function CurrentStage(): Stage
      reads this, currentState
    {
      if currentState == null then Idle else currentState.stage
    }

    /** routeMsgWhenAlarmed: a batch is delivered of every pool that the stage waits for and that has enough messages. */
    method RouteMsgWhenAlarmed()
      returns (reqs: seq<RequestMsg>, ppMsgs: seq<PrePrepareMsg>, votes: seq<VoteMsg>, rys: seq<ReplyMsg>)
      requires Valid()
      modifies requests, prePrepares, prepares, commits, replies
      ensures Valid()
      ensures Drained(requests.key, old(requests.pool), requests.pool, reqs, CurrentStage() == Idle && |old(requests.pool)| != 0)
      ensures Drained(prePrepares.key, old(prePrepares.pool), prePrepares.pool, ppMsgs,
                      CurrentStage() == Idle && |old(prePrepares.pool)| != 0)
      ensures CurrentStage() != Prepared ==>
        Drained(prepares.key, old(prepares.pool), prepares.pool, votes, CurrentStage() == PrePrepared && |old(prepares.pool)| >= 2 * F)
        && commits.pool == old(commits.pool)
      ensures CurrentStage() == Prepared ==>
        Drained(commits.key, old(commits.pool), commits.pool, votes, |old(commits.pool)| >= 2 * F)
        && prepares.pool == old(prepares.pool)
      ensures Drained(replies.key, old(replies.pool), replies.pool, rys, CurrentStage() == Committed && |old(replies.pool)| >= F + 1)
    {
      hide State.Valid, Pool.Valid, Drained;
      reqs, ppMsgs, votes, rys := [], [], [], [];
      NothingDue(requests.key, requests.pool); NothingDue(prePrepares.key, prePrepares.pool);
      NothingDue(prepares.key, prepares.pool); NothingDue(replies.key, replies.pool);
      if currentState == null || currentState.stage == Idle {
        reqs, ppMsgs := DeliverWhenIdle();
      } else {
        votes, rys := DeliverWhenBusy();
      }
    }

    method DeliverWhenBusy() returns (votes: seq<VoteMsg>, rys: seq<ReplyMsg>)
      requires Valid() && CurrentStage() != Idle
      modifies prepares, commits, replies
      ensures Valid()
      ensures CurrentStage() != Prepared ==>
        Drained(prepares.key, old(prepares.pool), prepares.pool, votes, CurrentStage() == PrePrepared && |old(prepares.pool)| >= 2 * F)
        && commits.pool == old(commits.pool)
      ensures CurrentStage() == Prepared ==>
        Drained(commits.key, old(commits.pool), commits.pool, votes, |old(commits.pool)| >= 2 * F)
        && prepares.pool == old(prepares.pool)
      ensures Drained(replies.key, old(replies.pool), replies.pool, rys, CurrentStage() == Committed && |old(replies.pool)| >= F + 1)
    {
      hide State.Valid, Pool.Valid, Drained;
      votes, rys := [], [];
      NothingDue(prepares.key, prepares.pool); NothingDue(replies.key, replies.pool);
      match currentState.stage {
        case PrePrepared => votes := DeliverVotes(prepares);
        case Prepared => votes := DeliverVotes(commits);
        case Committed => rys := DeliverReplies();
      }
    }

    method DeliverVotes(pool: Pool<string, VoteMsg>) returns (votes: seq<VoteMsg>)
      requires pool.Valid()
      modifies pool
      ensures pool.Valid() && Drained(pool.key, old(pool.pool), pool.pool, votes, |old(pool.pool)| >= 2 * F)
    {
      hide Pool.Valid, Delivered;
      votes := [];
      if |pool.pool| >= 2 * F {
        votes := pool.Deliver();
      }
    }

    method DeliverReplies() returns (rys: seq<ReplyMsg>)
      requires replies.Valid()
      modifies replies
      ensures replies.Valid() && Drained(replies.key, old(replies.pool), replies.pool, rys, |old(replies.pool)| >= F + 1)
    {
      hide Pool.Valid, Delivered;
      rys := [];
      if |replies.pool| >= F + 1 {
        rys := replies.Deliver();
      }
    }

    method DeliverWhenIdle() returns (reqs: seq<RequestMsg>, ppMsgs: seq<PrePrepareMsg>)
      requires Valid()
      modifies requests, prePrepares
      ensures Valid()
      ensures Drained(requests.key, old(requests.pool), requests.pool, reqs, |old(requests.pool)| != 0)
      ensures Drained(prePrepares.key, old(prePrepares.pool), prePrepares.pool, ppMsgs, |old(prePrepares.pool)| != 0)
    {
      hide State.Valid, Pool.Valid, Delivered;
      reqs, ppMsgs := [], [];
      if |requests.pool| != 0 {
        reqs := requests.Deliver();
      }
      if |prePrepares.pool| != 0 {
        ppMsgs := prePrepares.Deliver();
      }
    }

    /** A round: from empty logs, prepare messages that suffice and then commit messages that suffice, with an ID that the
        guard accepts, always execute the block of one of the commit messages, whatever was executed before. */
    method Round(id: int64, h: Hash, prepareMsgs: seq<VoteMsg>, commitMsgs: seq<VoteMsg>) returns (ghost k: nat)
      requires Valid() && currentState != null && currentState.Empty() && Accepts(currentState.lastSequenceID, id)
      requires PreparesSuffice(crypto, nodeInfo, currentState.viewID, id, h, prepareMsgs)
      requires CommitsSuffice(crypto, nodeInfo, currentState.viewID, id, commitMsgs)
      requires BlocksOf(prepareMsgs) !! BlocksOf(commitMsgs)
      modifies currentState, prepares, commits, BlocksOf(prepareMsgs), BlocksOf(commitMsgs)
      ensures Valid() && currentState.Empty() && currentState.lastSequenceID == id
      ensures k < |commitMsgs| && ExecutesRound(old(currentState.executed), currentState.executed, commitMsgs[k], h, nodeInfo)
    {
      hide Valid, PreparesSuffice, CommitsSuffice, ExecutesRound, AllVotes, UniformWith, Accepts;
      PreparePhase(id, h, prepareMsgs);
      k := CommitPhase(id, h, commitMsgs);
    }

    /** The prepare messages leave a certificate on h. */
    method PreparePhase(id: int64, h: Hash, msgs: seq<VoteMsg>)
      requires Valid() && currentState != null && currentState.Empty() && Accepts(currentState.lastSequenceID, id)
      requires PreparesSuffice(crypto, nodeInfo, currentState.viewID, id, h, msgs)
      modifies currentState, prepares, BlocksOf(msgs)
      ensures Valid() && currentState.executed == old(currentState.executed)
      ensures currentState.lastSequenceID == old(currentState.lastSequenceID)
      ensures currentState.commitMsgs == map[] && currentState.registered <= nodeInfo && CertifiedLog(h)
      ensures Blocks(currentState.prepareMsgs) <= BlocksOf(msgs)
    {
      hide Valid, AllVotes, Snapshot, AlwaysCounted, SometimesCounted, UniformWith, Batch.Suffices, Batch.PreparesAfter, Batch.Misses,
           CarriesCertificate, PreparesSuffice, Accepts;
      ghost var b := BatchOf(currentState.prepareMsgs, msgs);
      assert BlocksOf(msgs) + Blocks(currentState.prepareMsgs) == BlocksOf(msgs);
      PreparesComplete(b, id, h);
      var _, handled, completed := ResolvePrepareMsg(msgs);
      assert completed;
      PreparesUniform(b, h, handled);
    }

    /** The log is a certificate on one block ID. */
    ghost predicate CertifiedLog(h: Hash)
      requires currentState != null
      reads this, currentState, Blocks(currentState.prepareMsgs)
    {
      UniformWith(crypto, currentState.prepareMsgs, h) && |currentState.prepareMsgs| >= 2 * F
      && |AllVotes(currentState.prepareMsgs)| > 2 * F
    }

    /** On a certificate, the commit messages execute a block. */
    method CommitPhase(id: int64, h: Hash, msgs: seq<VoteMsg>) returns (ghost k: nat)
      requires Valid() && currentState != null && Accepts(currentState.lastSequenceID, id)
      requires currentState.commitMsgs == map[] && currentState.registered <= nodeInfo && CertifiedLog(h)
      requires CommitsSuffice(crypto, nodeInfo, currentState.viewID, id, msgs)
      requires Blocks(currentState.prepareMsgs) !! BlocksOf(msgs)
      modifies currentState, commits, BlocksOf(msgs)
      ensures Valid() && currentState.Empty() && currentState.lastSequenceID == id
      ensures k < |msgs| && ExecutesRound(old(currentState.executed), currentState.executed, msgs[k], h, nodeInfo)
    {
      hide Valid, AllVotes, Snapshot, Batch.CommitsAfter, Batch.Counts, CommitsSuffice, BlockIDs, ExecutesRound, Executes, Accepts,
           UniformWith, AlwaysCounted, SometimesCounted;
      ghost var before, log := currentState.executed, currentState.prepareMsgs;
      CommitsCompleteHere(id, msgs);
      OneBlockID(crypto, log, h);
      var _, handled := ResolveCommitMsg(msgs);
      k := handled - 1;
      RoundDone(before, msgs[k], BlockIDs(log), old(BatchOf(currentState.commitMsgs, msgs)).CommitsAfter(handled).Keys,
                old(currentState.registered), h);
    }

    lemma CommitsCompleteHere(id: int64, msgs: seq<VoteMsg>)
      requires currentState != null && Accepts(currentState.lastSequenceID, id) && currentState.commitMsgs == map[]
      requires CommitsSuffice(crypto, nodeInfo, currentState.viewID, id, msgs)
      ensures var b := BatchOf(currentState.commitMsgs, msgs);
        |b.CommitsAfter(|msgs|)| >= 2 * F && |msgs| > 0 && b.Counts(msgs[|msgs| - 1])
      ensures forall i :: 0 <= i < |msgs| ==> msgs[i].sequenceID == id
    {
      hide Snapshot, CommitsSuffice, Accepts, Batch.CommitsAfter, Batch.Counts;
      assert BlocksOf(msgs) + Blocks(currentState.commitMsgs) == BlocksOf(msgs);
      CommitsComplete(BatchOf(currentState.commitMsgs, msgs), id);
    }

    lemma RoundDone(before: seq<Execution>, msg: VoteMsg, prepared: map<NodeID, Hash>, committers: set<NodeID>,
                    registered: set<NodeID>, h: Hash)
      requires Valid() && currentState != null && registered <= nodeInfo && prepared.Values == {h}
      requires Executes(before, currentState.executed, msg, prepared, committers, registered)
      ensures ExecutesRound(before, currentState.executed, msg, h, nodeInfo)
    {
      hide State.Valid, ValidPools, Executes, ExecutesRound;
      RoundIsCertified(currentState, before, msg, prepared, committers, registered, nodeInfo, h);
    }
  }

  /** The blocks of a batch, and their votes. */
  ghost function BlocksOf(msgs: seq<VoteMsg>): set<Block> {
    set m | m in msgs :: m.block
  }

  ghost function Snapshot(blocks: set<Block>): map<Block, seq<Signature>>
    reads blocks
  {
    map b | b in blocks :: b.votes
  }

  /** A batch of votes, with what it meets: the registered nodes, the view, the last sequence ID, a log, and the votes of
      all blocks. What becomes of the log can be told from it. */
  datatype Batch = Batch(crypto: Crypto, nodes: set<NodeID>, viewID: uint64, last: int64, log: Log, msgs: seq<VoteMsg>,
                         votes: map<Block, seq<Signature>>)
  {
    /** verifyMsg. */
    predicate Passes(m: VoteMsg) {
      m.viewID == viewID && Accepts(last, m.sequenceID)
    }

    ghost function VotesOf(b: Block): seq<Signature> {
      if b in votes then votes[b] else []
    }

    ghost function Checked(b: Block): seq<Signature> {
      ValidVotes(crypto, b.blockID, nodes, VotesOf(b))
    }

    /** The prepare log after k messages: those that pass are filed, later ones of a sender last. */
    ghost function PreparesAfter(k: nat): Log {
      if k == 0 then log
      else if k <= |msgs| && Passes(msgs[k - 1]) then PreparesAfter(k - 1)[msgs[k - 1].nodeID := msgs[k - 1]]
      else PreparesAfter(k - 1)
    }

    /** One of the first k messages passes and is on this block. */
    ghost predicate Handled(k: nat, b: Block) {
      exists j :: 0 <= j < k && j < |msgs| && Passes(msgs[j]) && msgs[j].block == b
    }

    /** The votes of a block after k messages: they are checked when the first message on it is handled, and then stay. */
    ghost function VotesAfter(k: nat, b: Block): seq<Signature> {
      if Handled(k, b) then Checked(b) else VotesOf(b)
    }

    /** The signatures in the log after k messages. */
    ghost function SignaturesAfter(k: nat): set<Signature> {
      set n, s | n in PreparesAfter(k) && s in VotesAfter(k, PreparesAfter(k)[n].block) :: s
    }

    ghost predicate Suffices(k: nat) {
      |PreparesAfter(k)| >= 2 * F && |SignaturesAfter(k)| > 2 * F
    }

    /** The k-th message is filed, and completes the certificate in whatever order the log is visited. */
    ghost predicate Misses(k: nat) {
      0 < k <= |msgs| && Passes(msgs[k - 1]) && AlwaysCounted(crypto, PreparesAfter(k)) && Suffices(k)
    }

    /** All blocks have the votes that they have after k messages. */
    ghost predicate Reached(k: nat)
      reads BlocksOf(msgs) + Blocks(log)
    {
      forall b :: b in BlocksOf(msgs) + Blocks(log) ==> b.votes == VotesAfter(k, b)
    }

    ghost predicate ReachedBut(k: nat, block: Block)
      reads BlocksOf(msgs) + Blocks(log) - {block}
    {
      forall b :: b in BlocksOf(msgs) + Blocks(log) - {block} ==> b.votes == VotesAfter(k, b)
    }

    /** How many of the first k messages are refused, as prepare messages and as commit messages. */
    ghost function Refused(k: nat): nat {
      if k == 0 then 0 else Refused(k - 1) + if k <= |msgs| && !Passes(msgs[k - 1]) then 1 else 0
    }

    ghost function RefusedCommits(k: nat): nat {
      if k == 0 then 0 else RefusedCommits(k - 1) + if k <= |msgs| && !Counts(msgs[k - 1]) then 1 else 0
    }

    /** Whether Commit files a message. */
    ghost predicate Counts(m: VoteMsg) {
      Passes(m) && |Checked(m.block)| >= 2 * F
    }

    /** The votes of the messages are as they were, or have been checked. */
    ghost predicate Kept()
      reads BlocksOf(msgs)
    {
      forall j :: 0 <= j < |msgs| ==> ValidVotes(crypto, msgs[j].block.blockID, nodes, msgs[j].block.votes) == Checked(msgs[j].block)
    }

    ghost function CommitsAfter(k: nat): Log {
      if k == 0 then log
      else if k <= |msgs| && Counts(msgs[k - 1]) then CommitsAfter(k - 1)[msgs[k - 1].nodeID := msgs[k - 1]]
      else CommitsAfter(k - 1)
    }
  }

  /** Every entry of the log was there before or comes from the batch. */
  lemma {:induction false} Entries(b: Batch, k: nat, n: NodeID)
    requires k <= |b.msgs| && n in b.PreparesAfter(k)
    ensures (n in b.log && b.PreparesAfter(k)[n] == b.log[n])
         || exists j :: 0 <= j < k && b.Passes(b.msgs[j]) && b.PreparesAfter(k)[n] == b.msgs[j]
  {
    if k > 0 {
      if b.Passes(b.msgs[k - 1]) && n == b.msgs[k - 1].nodeID {
        assert b.PreparesAfter(k)[n] == b.msgs[k - 1];
      } else {
        Entries(b, k - 1, n);
      }
    }
  }

  lemma ReachedAtFirst(b: Batch)
    requires b.votes == Snapshot(BlocksOf(b.msgs) + Blocks(b.log))
    ensures b.Reached(0) && b.PreparesAfter(0) == b.log
  {
  }

  lemma KeptAtFirst(b: Batch)
    requires b.votes == Snapshot(BlocksOf(b.msgs) + Blocks(b.log))
    ensures b.Kept() && b.CommitsAfter(0) == b.log
  {
    hide ValidVotes;
    forall j | 0 <= j < |b.msgs| ensures b.VotesOf(b.msgs[j].block) == b.msgs[j].block.votes {
      assert b.msgs[j] in b.msgs;
    }
  }

  lemma CountedNext(b: Batch, i: nat)
    requires i < |b.msgs|
    ensures b.CommitsAfter(i + 1) ==
      if b.Counts(b.msgs[i]) then b.CommitsAfter(i)[b.msgs[i].nodeID := b.msgs[i]] else b.CommitsAfter(i)
  {
  }

  /** When the next message is filed, the signatures in the log are those foretold. */
  lemma StepVotes(b: Batch, i: nat)
    requires i < |b.msgs| && b.Reached(i) && b.Passes(b.msgs[i])
    ensures VotesWith(b.PreparesAfter(i)[b.msgs[i].nodeID := b.msgs[i]], b.msgs[i].block,
                      ValidVotes(b.crypto, b.msgs[i].block.blockID, b.nodes, b.msgs[i].block.votes)) == b.SignaturesAfter(i + 1)
  {
    hide ValidVotes, Batch.PreparesAfter, Batch.Reached, Rewritten, Batch.VotesAfter;
    var block, log := b.msgs[i].block, b.PreparesAfter(i + 1);
    FiledNext(b, i);
    var votes := ValidVotes(b.crypto, block.blockID, b.nodes, block.votes);
    forall n | n in log ensures Rewritten(log[n].block, block, votes) == b.VotesAfter(i + 1, log[n].block) {
      LoggedBlock(b, i + 1, n);
      StepBlock(b, i, log[n].block);
    }
  }

  /** A logged block is in the batch or was in the log before. */
  lemma LoggedBlock(b: Batch, k: nat, n: NodeID)
    requires k <= |b.msgs| && n in b.PreparesAfter(k)
    ensures b.PreparesAfter(k)[n].block in BlocksOf(b.msgs) + Blocks(b.log)
  {
    hide Batch.PreparesAfter;
    Entries(b, k, n);
    if n in b.log && b.PreparesAfter(k)[n] == b.log[n] {
      assert b.log[n].block in Blocks(b.log);
    } else {
      var j :| 0 <= j < k && b.Passes(b.msgs[j]) && b.PreparesAfter(k)[n] == b.msgs[j];
      assert b.msgs[j] in b.msgs;
    }
  }

  /** The message that passes checks the votes of its block, again if it is not the first on it. */
  lemma StepBlock(b: Batch, i: nat, block: Block)
    requires i < |b.msgs| && b.Reached(i) && b.Passes(b.msgs[i]) && block in BlocksOf(b.msgs) + Blocks(b.log)
    ensures Rewritten(block, b.msgs[i].block, ValidVotes(b.crypto, b.msgs[i].block.blockID, b.nodes, b.msgs[i].block.votes))
         == b.VotesAfter(i + 1, block)
  {
    hide ValidVotes;
    HandledNext(b, i, block);
    ValidVotesTwice(b.crypto, block.blockID, b.nodes, b.VotesOf(block));
  }

  lemma HandledNext(b: Batch, i: nat, block: Block)
    requires i < |b.msgs|
    ensures b.Handled(i + 1, block) <==> b.Handled(i, block) || (b.Passes(b.msgs[i]) && b.msgs[i].block == block)
  {
  }

  /** A message has checked the votes of its block if it passes, and no others. */
  lemma ReachedApart(b: Batch, i: nat)
    requires i < |b.msgs| && b.Reached(i)
    ensures var block := b.msgs[i].block;
      b.ReachedBut(i, block)
      && b.VotesAfter(i + 1, block) ==
         if b.Passes(b.msgs[i]) then ValidVotes(b.crypto, block.blockID, b.nodes, block.votes) else block.votes
  {
    hide ValidVotes;
    var block := b.msgs[i].block;
    assert b.msgs[i] in b.msgs;
    HandledNext(b, i, block);
    ValidVotesTwice(b.crypto, block.blockID, b.nodes, b.VotesOf(block));
  }

  lemma ReachedNext(b: Batch, i: nat)
    requires i < |b.msgs| && b.ReachedBut(i, b.msgs[i].block) && b.msgs[i].block.votes == b.VotesAfter(i + 1, b.msgs[i].block)
    ensures b.Reached(i + 1)
  {
    hide ValidVotes;
    forall x | x in BlocksOf(b.msgs) + Blocks(b.log) ensures x.votes == b.VotesAfter(i + 1, x) {
      HandledNext(b, i, x);
    }
  }

  lemma FiledNext(b: Batch, i: nat)
    requires i < |b.msgs|
    ensures b.PreparesAfter(i + 1) ==
      if b.Passes(b.msgs[i]) then b.PreparesAfter(i)[b.msgs[i].nodeID := b.msgs[i]] else b.PreparesAfter(i)
  {
  }

  lemma ValidVotesTwice(c: Crypto, blockID: Hash, nodes: set<NodeID>, votes: seq<Signature>)
    ensures ValidVotes(c, blockID, nodes, ValidVotes(c, blockID, nodes, votes)) == ValidVotes(c, blockID, nodes, votes)
  {
    ValidVotesStay(c, blockID, nodes, ValidVotes(c, blockID, nodes, votes));
  }

  // ------------------------------------------------------------- whole rounds

  ghost function Senders(msgs: seq<VoteMsg>): (senders: seq<NodeID>)
    ensures |senders| == |msgs| && forall i :: 0 <= i < |msgs| ==> senders[i] == msgs[i].nodeID
  {
    seq(|msgs|, i requires 0 <= i < |msgs| => msgs[i].nodeID)
  }

  ghost function SignaturesOf(c: Crypto, nodes: set<NodeID>, msgs: seq<VoteMsg>): set<Signature>
    reads BlocksOf(msgs)
  {
    set m, s | m in msgs && s in ValidVotes(c, m.block.blockID, nodes, m.block.votes) :: s
  }

  /** Prepare messages of 2f senders on one block ID, with more than 2f signatures in all. */
  ghost predicate PreparesSuffice(c: Crypto, nodes: set<NodeID>, viewID: uint64, id: int64, h: Hash, msgs: seq<VoteMsg>)
    reads BlocksOf(msgs)
  {
    && |msgs| >= 2 * F && Distinct(Senders(msgs))
    && (forall i :: 0 <= i < |msgs| ==> msgs[i].viewID == viewID && msgs[i].sequenceID == id)
    && h != 0 && (forall i :: 0 <= i < |msgs| ==> msgs[i].block.blockID == h == c.contentHash(msgs[i].block.transactions))
    && |SignaturesOf(c, nodes, msgs)| > 2 * F
  }

  /** Commit messages of 2f senders, each with 2f signatures; nothing is said of their blocks. */
  ghost predicate CommitsSuffice(c: Crypto, nodes: set<NodeID>, viewID: uint64, id: int64, msgs: seq<VoteMsg>)
    reads BlocksOf(msgs)
  {
    && |msgs| >= 2 * F && Distinct(Senders(msgs))
    && (forall i :: 0 <= i < |msgs| ==> msgs[i].viewID == viewID && msgs[i].sequenceID == id)
    && forall i :: 0 <= i < |msgs| ==> |ValidVotes(c, msgs[i].block.blockID, nodes, msgs[i].block.votes)| >= 2 * F
  }

  /** One execution more: that of the block of a commit message, where all prepare messages were on the block ID h. */
  ghost predicate ExecutesRound(before: seq<Execution>, after: seq<Execution>, msg: VoteMsg, h: Hash, nodes: set<NodeID>) {
    |after| == |before| + 1 && after[..|before|] == before
    && var e := after[|before|];
      e.sequenceID == msg.sequenceID && e.transactions == msg.block.transactions && e.prepared.Values == {h}
      && e.registered <= nodes && |e.signatures| > 2 * F && Distinct(e.signatures)
  }

  lemma OneBlockID(c: Crypto, log: Log, h: Hash)
    requires UniformWith(c, log, h) && |log| > 0
    ensures BlockIDs(log).Values == {h} && (|log| >= 2 * F ==> AlwaysCounted(c, log))
  {
    hide AlwaysCounted;
    assert Uniform(c, log);
    if |log| >= 2 * F { UniformIsCounted(c, log); }
    var n :| n in log;
    assert BlockIDs(log)[n] == h;
  }

  lemma RoundIsCertified(s: State, before: seq<Execution>, msg: VoteMsg, prepared: map<NodeID, Hash>, committers: set<NodeID>,
                         registered: set<NodeID>, nodes: set<NodeID>, h: Hash)
    requires s.Valid() && Executes(before, s.executed, msg, prepared, committers, registered) && prepared.Values == {h}
    requires registered <= nodes
    ensures ExecutesRound(before, s.executed, msg, h, nodes)
  {
    hide State.LogVouched;
    assert Certified(s.crypto, s.executed[|before|]);
  }

  lemma {:induction false} PreparesUniform(b: Batch, h: Hash, k: nat)
    requires k <= |b.msgs| && b.log == map[] && h != 0
    requires forall i :: 0 <= i < |b.msgs| ==> b.msgs[i].block.blockID == h == b.crypto.contentHash(b.msgs[i].block.transactions)
    ensures UniformWith(b.crypto, b.PreparesAfter(k), h) && Blocks(b.PreparesAfter(k)) <= BlocksOf(b.msgs)
  {
    var log := b.PreparesAfter(k);
    forall n | n in log
      ensures log[n].block.blockID == h == b.crypto.contentHash(log[n].block.transactions) && log[n].block in BlocksOf(b.msgs)
    {
      Entries(b, k, n);
      var j :| 0 <= j < k && b.Passes(b.msgs[j]) && log[n] == b.msgs[j];
      assert b.msgs[j] in b.msgs;
    }
  }

  lemma {:induction false} PreparesFiled(b: Batch, k: nat, n: NodeID)
    requires k <= |b.msgs| && b.log == map[] && n in b.PreparesAfter(k)
    ensures b.PreparesAfter(k)[n].nodeID == n
  {
    if k > 0 && !(b.Passes(b.msgs[k - 1]) && n == b.msgs[k - 1].nodeID) { PreparesFiled(b, k - 1, n); }
  }

  /** Messages of distinct senders are all logged. */
  lemma {:induction false} AllFiled(b: Batch, k: nat)
    requires k <= |b.msgs| && b.log == map[] && Distinct(Senders(b.msgs))
    ensures (forall i :: 0 <= i < k ==> b.Passes(b.msgs[i])) ==>
      |b.PreparesAfter(k)| == k && forall i :: 0 <= i < k ==>
        b.msgs[i].nodeID in b.PreparesAfter(k) && b.PreparesAfter(k)[b.msgs[i].nodeID] == b.msgs[i]
  {
    if k > 0 && forall i :: 0 <= i < k ==> b.Passes(b.msgs[i]) {
      hide Batch.PreparesAfter, Batch.Passes;
      AllFiled(b, k - 1);
      FiledNext(b, k - 1);
      var n, log := b.msgs[k - 1].nodeID, b.PreparesAfter(k - 1);
      assert Senders(b.msgs)[k - 1] == n;
      if n in log {
        Entries(b, k - 1, n);
        var j :| 0 <= j < k - 1 && b.Passes(b.msgs[j]) && log[n] == b.msgs[j];
        assert Senders(b.msgs)[j] == b.msgs[j].nodeID;
        PreparesFiled(b, k - 1, n);
        assert false;
      }
      OneMoreEntry(log, n, b.msgs[k - 1]);
      forall i | 0 <= i < k
        ensures b.msgs[i].nodeID in b.PreparesAfter(k) && b.PreparesAfter(k)[b.msgs[i].nodeID] == b.msgs[i]
      {
        assert i < k - 1 ==> Senders(b.msgs)[i] != Senders(b.msgs)[k - 1];
      }
    }
  }

  lemma OneMoreEntry(log: Log, n: NodeID, m: VoteMsg)
    requires n !in log
    ensures |log[n := m]| == |log| + 1
  {
    assert log[n := m].Keys == log.Keys + {n};
    assert |log| == |log.Keys| && |log[n := m]| == |log[n := m].Keys|;
  }

  /** Prepare messages that suffice complete the certificate, at the last one if not before. */
  lemma PreparesComplete(b: Batch, id: int64, h: Hash)
    requires b.log == map[] && b.votes == Snapshot(BlocksOf(b.msgs)) && Accepts(b.last, id)
    requires PreparesSuffice(b.crypto, b.nodes, b.viewID, id, h, b.msgs)
    ensures b.Misses(|b.msgs|) && |b.msgs| > 0 && h != 0
    ensures forall i :: 0 <= i < |b.msgs| ==> b.msgs[i].block.blockID == h == b.crypto.contentHash(b.msgs[i].block.transactions)
  {
    hide ValidVotes, Batch.PreparesAfter, Snapshot, Distinct, Batch.SignaturesAfter, SignaturesOf, UniformWith, AlwaysCounted;
    AllFiled(b, |b.msgs|);
    PreparesUniform(b, h, |b.msgs|);
    SameSignatures(b);
    OneBlockID(b.crypto, b.PreparesAfter(|b.msgs|), h);
  }

  /** When all messages are logged, the signatures in the log are those of the messages. */
  lemma SameSignatures(b: Batch)
    requires b.log == map[] && b.votes == Snapshot(BlocksOf(b.msgs)) && Distinct(Senders(b.msgs))
    requires forall i :: 0 <= i < |b.msgs| ==> b.Passes(b.msgs[i])
    ensures b.SignaturesAfter(|b.msgs|) == SignaturesOf(b.crypto, b.nodes, b.msgs)
  {
    hide ValidVotes, Batch.PreparesAfter, Snapshot, Distinct, Batch.Checked, Batch.VotesAfter, Batch.Passes;
    var k := |b.msgs|;
    var log := b.PreparesAfter(k);
    AllFiled(b, k);
    forall s | s in SignaturesOf(b.crypto, b.nodes, b.msgs) ensures s in b.SignaturesAfter(k) {
      var m :| m in b.msgs && s in ValidVotes(b.crypto, m.block.blockID, b.nodes, m.block.votes);
      CheckedMessage(b, m);
      VotesInTheEnd(b, m);
      assert log[m.nodeID] == m;
    }
    forall s | s in b.SignaturesAfter(k) ensures s in SignaturesOf(b.crypto, b.nodes, b.msgs) {
      var n :| n in log && s in b.VotesAfter(k, log[n].block);
      Entries(b, k, n);
      CheckedMessage(b, log[n]);
      VotesInTheEnd(b, log[n]);
    }
  }

  lemma CheckedMessage(b: Batch, m: VoteMsg)
    requires m in b.msgs && b.votes == Snapshot(BlocksOf(b.msgs))
    ensures b.Checked(m.block) == ValidVotes(b.crypto, m.block.blockID, b.nodes, m.block.votes)
  {
    hide ValidVotes;
    assert m.block in BlocksOf(b.msgs);
  }

  lemma VotesInTheEnd(b: Batch, m: VoteMsg)
    requires m in b.msgs && forall i :: 0 <= i < |b.msgs| ==> b.Passes(b.msgs[i])
    ensures b.VotesAfter(|b.msgs|, m.block) == b.Checked(m.block)
  {
    hide ValidVotes, Batch.Passes;
    var j :| 0 <= j < |b.msgs| && b.msgs[j] == m;
    assert b.Handled(|b.msgs|, m.block);
  }

  lemma {:induction false} CommitsAsPrepares(b: Batch, k: nat)
    requires forall i :: 0 <= i < |b.msgs| ==> b.Counts(b.msgs[i])
    ensures b.CommitsAfter(k) == b.PreparesAfter(k)
  {
    if k > 0 { CommitsAsPrepares(b, k - 1); }
  }

  /** Commit messages that suffice are all logged. */
  lemma CommitsComplete(b: Batch, id: int64)
    requires b.log == map[] && b.votes == Snapshot(BlocksOf(b.msgs)) && Accepts(b.last, id)
    requires CommitsSuffice(b.crypto, b.nodes, b.viewID, id, b.msgs)
    ensures |b.CommitsAfter(|b.msgs|)| >= 2 * F && |b.msgs| > 0 && b.Counts(b.msgs[|b.msgs| - 1])
    ensures forall i :: 0 <= i < |b.msgs| ==> b.msgs[i].sequenceID == id
  {
    hide ValidVotes, Batch.PreparesAfter;
    forall i | 0 <= i < |b.msgs| ensures b.Counts(b.msgs[i]) {
      CheckedMessage(b, b.msgs[i]);
    }
    CommitsAsPrepares(b, |b.msgs|);
    AllFiled(b, |b.msgs|);
  }

  /** A commit log of distinct signatures is larger than 2f in signatures, too, when a block of it has more. */
  lemma EnoughVotes(log: Log, msg: VoteMsg, sigs: seq<Signature>)
    requires msg.nodeID in log && log[msg.nodeID] == msg && Distinct(sigs)
    requires |sigs| <= |msg.block.votes| && msg.block.votes[..|sigs|] == sigs
    ensures |AllVotes(log)| >= |sigs|
  {
    DistinctCount(sigs);
    forall s | s in Elements(sigs) ensures s in AllVotes(log) {
      assert s in msg.block.votes;
    }
    Subset(Elements(sigs), AllVotes(log));
  }

  function Own(c: Crypto, blockID: Hash): seq<Signature> {
    match c.sign(blockID) case Some(s) => [s] case None => []
  }

  /** At least 2f + 1 distinct signatures, each vouched for, followed by the own one. */
  ghost predicate CarriesCertificate(state: State, block: Block)
    reads state, block
  {
    var n := |block.votes| - |Own(state.crypto, block.blockID)|;
    n >= 2 * F + 1 && Distinct(block.votes[..n]) && block.votes[n..] == Own(state.crypto, block.blockID)
    && AllVouched(state.crypto, state.accepted, state.registered, block.votes[..n])
  }

  ghost predicate Executes(before: seq<Execution>, after: seq<Execution>, msg: VoteMsg, prepared: map<NodeID, Hash>,
                           committers: set<NodeID>, registered: set<NodeID>) {
    |after| == |before| + 1 && after[..|before|] == before
    && var e := after[|before|];
      e.sequenceID == msg.sequenceID && e.transactions == msg.block.transactions && e.prepared == prepared
      && e.committers == committers && e.registered == registered
  }

  lemma OwnIsVouched(state: State, block: Block)
    requires state.LogVouched()
    ensures block in Blocks(state.prepareMsgs) ==>
      forall s :: s in Own(state.crypto, block.blockID) ==> Vouched(state.crypto, state.accepted, state.registered, s)
  {
    if block in Blocks(state.prepareMsgs) {
      var n :| n in state.prepareMsgs && state.prepareMsgs[n].block == block;
      forall s | s in Own(state.crypto, block.blockID) ensures Vouched(state.crypto, state.accepted, state.registered, s) {
        assert block.blockID in state.accepted && state.crypto.sign(block.blockID) == Some(s);
      }
    }
  }

  lemma ExtendsExecutes(s: State, msg: VoteMsg, before: seq<Execution>)
    requires s.Extends(msg, before)
    ensures Executes(before, s.executed, msg, BlockIDs(s.prepareMsgs), s.commitMsgs.Keys, s.registered)
  {
  }

  /** After a round the logs are emptied. */
  method EmptyLogs(s: State)
    requires s.Valid()
    modifies s`prepareMsgs, s`commitMsgs, s`accepted, s`registered, s`blocks
    ensures s.Valid() && s.Empty() && s.accepted == {} && s.blocks == {}
  {
    hide History;
    s.prepareMsgs, s.commitMsgs, s.accepted, s.registered, s.blocks := map[], map[], {}, {}, {};
  }

  /** And a replica waits for the next round. */
  method SetIdle(s: State)
    requires s.Valid()
    modifies s`stage
    ensures s.Valid() && s.stage == Idle
  {
    hide History, State.LogVouched;
    s.stage := Idle;
    s.LogKept();
  }

  // ------------------------------------------------------------- what a node can come to

  /** A hash that is never 0, and signatures that all verify under node 0. */
  function Lenient(): Crypto {
    Crypto((h, n, s) => n == 0, h => None, txs => |txs| + 1, req => 0)
  }

  method NewVote(msgType: MsgType, nodeID: NodeID, blockID: Hash, txs: seq<Transaction>, votes: seq<Signature>)
    returns (m: VoteMsg)
    ensures fresh(m.block) && m.block.blockID == blockID && m.block.transactions == txs && m.block.votes == votes
    ensures m == VoteMsg(msgType, 10_000_000_000, -1, "", nodeID, m.block)
  {
    var block := new Block(blockID, 0, txs);
    block.votes := votes;
    m := VoteMsg(msgType, 10_000_000_000, -1, "", nodeID, block);
  }

  /** The messages of a round on the ID -1: the prepare messages are on an empty block, the commit messages on another. */
  method RoundMessages(tx: Transaction) returns (prepareMsgs: seq<VoteMsg>, commitMsgs: seq<VoteMsg>)
    ensures fresh(BlocksOf(prepareMsgs) + BlocksOf(commitMsgs)) && BlocksOf(prepareMsgs) !! BlocksOf(commitMsgs)
    ensures PreparesSuffice(Lenient(), {0}, 10_000_000_000, -1, 1, prepareMsgs)
    ensures CommitsSuffice(Lenient(), {0}, 10_000_000_000, -1, commitMsgs)
    ensures forall m :: m in commitMsgs ==> m.block.transactions == [tx] && m.block.blockID == 2 && m.sequenceID == -1
  {
    hide PreparesSuffice, CommitsSuffice;
    var a := NewVote(PrepareMsg, 0, 1, [], [[1]]);
    var b := NewVote(PrepareMsg, 1, 1, [], [[2], [3]]);
    var x := NewVote(CommitMsg, 0, 2, [tx], [[1], [2]]);
    var y := NewVote(CommitMsg, 1, 2, [tx], [[1], [2]]);
    RoundPrepares(a, b);
    RoundCommits(x, y);
    prepareMsgs, commitMsgs := [a, b], [x, y];
    assert BlocksOf([a, b]) == {a.block, b.block} && BlocksOf([x, y]) == {x.block, y.block} by {
      assert [a, b][0] == a && [a, b][1] == b && [x, y][0] == x && [x, y][1] == y;
    }
  }

  lemma RoundPrepares(a: VoteMsg, b: VoteMsg)
    requires a.viewID == b.viewID == 10_000_000_000 && a.sequenceID == b.sequenceID == -1 && a.nodeID == 0 && b.nodeID == 1
    requires a.block.blockID == b.block.blockID == 1 && a.block.transactions == b.block.transactions == []
    requires a.block.votes == [[1]] && b.block.votes == [[2], [3]]
    ensures PreparesSuffice(Lenient(), {0}, 10_000_000_000, -1, 1, [a, b])
  {
    hide ValidVotes, SignaturesOf;
    ThreeSignatures(a, b);
  }

  lemma RoundCommits(x: VoteMsg, y: VoteMsg)
    requires x.viewID == y.viewID == 10_000_000_000 && x.sequenceID == y.sequenceID == -1 && x.nodeID == 0 && y.nodeID == 1
    requires x.block.blockID == y.block.blockID == 2 && x.block.votes == y.block.votes == [[1], [2]]
    ensures CommitsSuffice(Lenient(), {0}, 10_000_000_000, -1, [x, y])
  {
    hide ValidVotes;
    AllVerify();
  }

  lemma AllVerify()
    ensures forall h, votes {:trigger ValidVotes(Lenient(), h, {0}, votes)} :: ValidVotes(Lenient(), h, {0}, votes) == votes
  {
    forall h: Hash, votes: seq<Signature> ensures ValidVotes(Lenient(), h, {0}, votes) == votes {
      forall s: Signature ensures Verifies(Lenient(), h, {0}, s) {
        assert 0 in {0} && Lenient().valid(h, 0, s);
      }
      ValidVotesStay(Lenient(), h, {0}, votes);
    }
  }

  lemma ThreeSignatures(a: VoteMsg, b: VoteMsg)
    requires a.block.votes == [[1]] && b.block.votes == [[2], [3]]
    ensures |SignaturesOf(Lenient(), {0}, [a, b])| > 2 * F
  {
    hide ValidVotes;
    AllVerify();
    var sigs: seq<Signature> := [[1], [2], [3]];
    DistinctCount(sigs);
    forall s | s in Elements(sigs) ensures s in SignaturesOf(Lenient(), {0}, [a, b]) {
      assert sigs == a.block.votes + b.block.votes;
      assert [a, b][0] == a && [a, b][1] == b;
      var m := if s in a.block.votes then a else b;
      assert m in [a, b] && s in ValidVotes(Lenient(), m.block.blockID, {0}, m.block.votes);
    }
    Subset(Elements(sigs), SignaturesOf(Lenient(), {0}, [a, b]));
  }

  /** For every n, a new node can come to execute the same transaction n times under the ID -1. All signatures verify under
      one and the same node, and the executed block is never the one that the prepare messages are on. */
  method MinusOneRuns(n: nat, tx: Transaction) returns (node: Node)
    ensures node.Valid() && node.currentState != null && node.crypto == Lenient()
    ensures |node.currentState.executed| == n
    ensures forall i :: 0 <= i < n ==> RunOfMinusOne(node.currentState.executed[i], tx)
  {
    hide Node.Valid, PreparesSuffice, CommitsSuffice, RunOfMinusOne, ExecutesRound;
    node := new Node(Lenient(), "", 0, "");
    node.CreateState();
    for i := 0 to n
      invariant node.Valid() && node.currentState != null && fresh(node.currentState) && node.currentState.Empty()
      invariant node.currentState.lastSequenceID == -1 && node.currentState.viewID == 10_000_000_000
      invariant node.crypto == Lenient() && node.nodeInfo == {0} && |node.currentState.executed| == i
      invariant forall j :: 0 <= j < i ==> RunOfMinusOne(node.currentState.executed[j], tx)
      invariant fresh(node.prepares) && fresh(node.commits)
    {
      ghost var before := node.currentState.executed;
      var prepareMsgs, commitMsgs := RoundMessages(tx);
      ghost var k := node.Round(-1, 1, prepareMsgs, commitMsgs);
      RoundOfMinusOne(before, node.currentState.executed, commitMsgs[k], tx);
    }
  }

  lemma RoundOfMinusOne(before: seq<Execution>, after: seq<Execution>, msg: VoteMsg, tx: Transaction)
    requires ExecutesRound(before, after, msg, 1, {0}) && msg.block.transactions == [tx] && msg.sequenceID == -1
    ensures |after| == |before| + 1 && after[..|before|] == before && RunOfMinusOne(after[|before|], tx)
  {
  }

  /** The ID is -1, the block is another one than that of all prepare messages, and one node vouches for everything. */
  ghost predicate RunOfMinusOne(e: Execution, tx: Transaction) {
    e.sequenceID == -1 && e.transactions == [tx] && Lenient().contentHash(e.transactions) !in e.prepared.Values
    && e.prepared.Values == {1} && e.registered <= {0} && |e.signatures| > 2 * F && Distinct(e.signatures)
  }
}
