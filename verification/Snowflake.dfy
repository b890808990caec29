/** Snowflake ids: 41 bits of milliseconds since the epoch, 10 bits of node, 12 bits of sequence. */
module Snowflake {

  const EPOCH_MILLI: int := 1735689600000
  const MAX_NODE_ID: int := 1023
  const MAX_SEQ: int := 4095
  /** 2^12, 2^22, 2^41 and 2^63. */
  const NODE_UNIT: int := 4096
  const TIME_UNIT: int := 4194304
  const TIME_RANGE: int := 2199023255552
  const ID_RANGE: int := 9223372036854775808

  /** The id as a number: the three bit fields do not overlap, so the bitwise or is a sum. */
  function Pack(ts: int, node: int, seqNo: int): int {
    (ts - EPOCH_MILLI) * TIME_UNIT + node * NODE_UNIT + seqNo
  }

  function TimeOf(id: int): int { id / TIME_UNIT + EPOCH_MILLI }
  function NodeOf(id: int): int { (id / NODE_UNIT) % 1024 }
  function SeqOf(id: int): int { id % NODE_UNIT }

  predicate InRange(ts: int, node: int, seqNo: int) {
    EPOCH_MILLI <= ts < EPOCH_MILLI + TIME_RANGE && 0 <= node <= MAX_NODE_ID && 0 <= seqNo <= MAX_SEQ
  }

  /** On 64-bit words, the shifts and ors of the code compute that sum, and shifting back recovers the fields. */
  lemma FieldsDoNotOverlap(t: bv64, node: bv64, seqNo: bv64)
    requires t < 2199023255552 && node < 1024 && seqNo < 4096
    ensures var id := (t << 22) | (node << 12) | seqNo;
      && id == (t << 22) + (node << 12) + seqNo
      && id >> 22 == t && (id >> 12) & 1023 == node && id & 4095 == seqNo
      && id < 9223372036854775808
  {
  }

  /** Packing loses nothing and stays within a non-negative int64. */
  lemma UnpackPack(ts: int, node: int, seqNo: int)
    requires InRange(ts, node, seqNo)
    ensures var id := Pack(ts, node, seqNo);
      0 <= id < ID_RANGE && TimeOf(id) == ts && NodeOf(id) == node && SeqOf(id) == seqNo
  {
    var id := Pack(ts, node, seqNo);
    var high := (ts - EPOCH_MILLI) * 1024 + node;
    assert id == high * NODE_UNIT + seqNo;
    assert id / NODE_UNIT == high && id % NODE_UNIT == seqNo;
    assert high % 1024 == node;
    assert id / TIME_UNIT == ts - EPOCH_MILLI;
  }

  /** Later instants, and later sequence numbers within an instant, give larger ids. */
  lemma PackIncreases(ts: int, seqNo: int, ts': int, seqNo': int, node: int)
    requires InRange(ts, node, seqNo) && InRange(ts', node, seqNo')
    requires ts < ts' || (ts == ts' && seqNo < seqNo')
    ensures Pack(ts, node, seqNo) < Pack(ts', node, seqNo')
  {
  }

  datatype Result = Id(id: int) | ClockMovedBackwards(behind: int)

  class Node {
    const nodeId: int
    var lastTs: int
    var seqNo: int
    /** All ids this node has issued, in order. */
    ghost var issued: seq<int>

    ghost predicate Valid()
      reads this
    {
      && 0 <= nodeId <= MAX_NODE_ID && 0 <= seqNo <= MAX_SEQ
      && (if issued == [] then lastTs == -1 && seqNo == 0
          else InRange(lastTs, nodeId, seqNo) && issued[|issued| - 1] == Pack(lastTs, nodeId, seqNo))
      && (forall i, j :: 0 <= i < j < |issued| ==> issued[i] < issued[j])
      && (forall i :: 0 <= i < |issued| ==> 0 <= issued[i] < ID_RANGE && NodeOf(issued[i]) == nodeId)
    }

    constructor (nodeId: int)
      requires 0 <= nodeId <= MAX_NODE_ID
      ensures Valid() && this.nodeId == nodeId && issued == []
    {
      this.nodeId, lastTs, seqNo, issued := nodeId, -1, 0, [];
    }

    /**
     * `clock(i)` is the reading of the i-th look at the clock during the call; it may go backwards at any
     * look. Only a sequence that wraps waits, for a reading `clock(later)` past the last timestamp.
     */
    method NextID(clock: nat -> int, ghost later: nat) returns (r: Result)
      requires Valid()
      requires forall i :: EPOCH_MILLI <= clock(i) < EPOCH_MILLI + TIME_RANGE
      requires clock(0) == lastTs && seqNo == MAX_SEQ ==> clock(later) > lastTs
      modifies this
      ensures Valid()
      ensures r.ClockMovedBackwards? <==> clock(0) < old(lastTs)
      ensures r.ClockMovedBackwards? ==>
        r.behind == old(lastTs) - clock(0) && issued == old(issued) && lastTs == old(lastTs) && seqNo == old(seqNo)
      ensures r.Id? ==> issued == old(issued) + [r.id] && r.id == Pack(lastTs, nodeId, seqNo)
      ensures r.Id? && clock(0) > old(lastTs) ==> lastTs == clock(0) && seqNo == 0
      ensures r.Id? && clock(0) == old(lastTs) && old(seqNo) < MAX_SEQ ==> lastTs == clock(0) && seqNo == old(seqNo) + 1
      ensures r.Id? && clock(0) == old(lastTs) && old(seqNo) == MAX_SEQ ==> seqNo == 0 && exists k: nat ::
        lastTs == clock(k) > old(lastTs) && forall i :: 0 <= i < k ==> clock(i) <= old(lastTs)
      ensures r.Id? ==> forall i :: 0 <= i < |old(issued)| ==> old(issued)[i] < r.id
      ensures r.Id? ==> 0 <= r.id < ID_RANGE && TimeOf(r.id) == lastTs && NodeOf(r.id) == nodeId && SeqOf(r.id) == seqNo
    {
      var now := clock(0);
      if now < lastTs { return ClockMovedBackwards(lastTs - now); }
      ghost var before := issued;
      ghost var lastBefore, seqBefore := lastTs, seqNo;
      if now == lastTs {
        seqNo := if seqNo == MAX_SEQ then 0 else seqNo + 1;
        if seqNo == 0 {
          var looks := 0;
          while now <= lastTs
            invariant 0 <= looks <= later && now == clock(looks)
            invariant forall i :: 0 <= i < looks ==> clock(i) <= lastTs
            invariant lastTs == lastBefore && seqNo == 0 && issued == before
            decreases later - looks
          {
            looks := looks + 1;
            now := clock(looks);
          }
        }
      } else {
        seqNo := 0;
      }
      lastTs := now;
      var id := Pack(now, nodeId, seqNo);
      UnpackPack(now, nodeId, seqNo);
      if before != [] { PackIncreases(lastBefore, seqBefore, now, seqNo, nodeId); }
      issued := issued + [id];
      r := Id(id);
    }
  }

  /** `NewNode` */
  method NewNode(nodeId: int) returns (n: Node?)
    ensures n != null <==> 0 <= nodeId <= MAX_NODE_ID
    ensures n != null ==> fresh(n) && n.Valid() && n.nodeId == nodeId && n.issued == []
  {
    n := null;
    if 0 <= nodeId <= MAX_NODE_ID { n := new Node(nodeId); }
  }

  /** No two ids of nodes with distinct numbers, nor two ids of one node, are equal. */
  lemma IdsAreDistinct(m: Node, n: Node, i: nat, j: nat)
    requires m.Valid() && n.Valid() && i < |m.issued| && j < |n.issued|
    requires m != n ==> m.nodeId != n.nodeId
    requires m != n || i != j
    ensures m.issued[i] != n.issued[j]
  {
    assert NodeOf(m.issued[i]) == m.nodeId && NodeOf(n.issued[j]) == n.nodeId;
  }
}
