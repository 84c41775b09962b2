/**
 * Runs of one node: the callbacks and receptions the scheduler and the radio
 * deliver to it, one after another, and what the protocol guarantees over
 * such runs: the state invariant, the sink's depth, the one-pending-BUILD
 * latch, first-in first-out draining and the recency window of the ring.
 */
module Traces {
  import opened Packets
  import opened Protocol

  /**
   * What can happen to a node: a packet arrives (`rx`), or one of its
   * scheduled callbacks fires. `ok` is the link layer's answer to
   * `SET_HEADER`, `now` the clock and `pos` the node's position.
   */
  datatype Event =
    | Receive(h: Header)
    | FireBuild(ok: bool, now: nat, pos: Position)
    | FireData(ok: bool, now: nat, pos: Position)
    | FireForward(ok: bool)

  /** A node together with the DATA counter `packet_seq` shared by all nodes. */
  datatype World = World(node: NodeState, packetSeq: int)

  function Apply(w: World, e: Event): (r: World)
    requires Invariant(w.node)
    ensures Invariant(r.node)
    ensures r.node.id == w.node.id && r.node.role == w.node.role
  {
    match e
    case Receive(h) => World(Rx(w.node, h).node, w.packetSeq)
    case FireBuild(ok, now, pos) => World(TxBuild(w.node, ok, now, pos).node, w.packetSeq)
    case FireData(ok, now, pos) =>
      var t := TxData(w.node, w.packetSeq, ok, now, pos);
      World(t.0.node, t.1)
    case FireForward(ok) => World(TxForward(w.node, ok).node, w.packetSeq)
  }

  /**
   * The node after a whole run of events. Every state reached keeps the
   * buffer within BUFFER - 1 entries and the ring cursor inside the ring.
   */
  function Run(w: World, es: seq<Event>): (r: World)
    requires Invariant(w.node)
    ensures Invariant(r.node)
    ensures r.node.id == w.node.id && r.node.role == w.node.role
    decreases |es|
  {
    if es == [] then w else Run(Apply(w, es[0]), es[1..])
  }

  // ---------------------------------------------------------------------
  // The sink keeps depth 0
  // ---------------------------------------------------------------------

  /**
   * A BUILD the sink can receive in a network where every BUILD descends
   * from its own announcements: its generation is not newer than the sink's
   * and its sender's depth is known (at least -1).
   */
  predicate FromOwnGradient(n: NodeState, e: Event)
  {
    e.Receive? && e.h.ptype == Build ==> e.h.seqno <= n.seqno && e.h.depth >= -1
  }

  predicate AllFromOwnGradient(w: World, es: seq<Event>)
    requires Invariant(w.node)
    decreases |es|
  {
    es == [] || (FromOwnGradient(w.node, es[0]) && AllFromOwnGradient(Apply(w, es[0]), es[1..]))
  }

  /**
   * After `bootstrap` the sink is at depth 0, on, and its own parent. No run
   * of such BUILDs, DATA packets and callbacks moves it from there, and its
   * generation never goes back.
   */
  lemma {:induction false} SinkStaysAtDepthZero(w: World, es: seq<Event>)
    requires Invariant(w.node) && w.node.role == Sink
    requires w.node.depth == 0 && w.node.power == NodeOn && w.node.from == w.node.id
    requires AllFromOwnGradient(w, es)
    ensures Run(w, es).node.depth == 0
    ensures Run(w, es).node.power == NodeOn
    ensures Run(w, es).node.from == w.node.id
    ensures Run(w, es).node.seqno >= w.node.seqno
    decreases |es|
  {
    if es != [] {
      var w1 := Apply(w, es[0]);
      assert w1.node.depth == 0 && w1.node.power == NodeOn && w1.node.from == w.node.id;
      assert w1.node.seqno >= w.node.seqno;
      SinkStaysAtDepthZero(w1, es[1..]);
    }
  }

  // ---------------------------------------------------------------------
  // At most one re-announcement pending
  // ---------------------------------------------------------------------

  /** 1 while a reception may still schedule a `tx_build` (latch at MES_NO). */
  function Credit(n: NodeState): nat
  {
    if n.msgStatus == MesNo then 1 else 0
  }

  /** The number of `tx_build` callbacks that receptions schedule along a run. */
  function Announcements(w: World, es: seq<Event>): nat
    requires Invariant(w.node)
    decreases |es|
  {
    if es == [] then 0
    else (if es[0].Receive? && Rx(w.node, es[0].h).sched == Some(Announce) then 1 else 0)
         + Announcements(Apply(w, es[0]), es[1..])
  }

  /** The number of `tx_build` callbacks in a run that get their header out. */
  function Resets(es: seq<Event>): nat
  {
    if es == [] then 0 else (if es[0].FireBuild? && es[0].ok then 1 else 0) + Resets(es[1..])
  }

  /**
   * Receptions schedule at most one `tx_build` for each time the latch is
   * open: once at the start if it is, and once after every `tx_build` that
   * succeeds. A `tx_build` refused by the link layer does not reopen it.
   */
  lemma {:induction false} LatchBound(w: World, es: seq<Event>)
    requires Invariant(w.node)
    ensures Announcements(w, es) + Credit(Run(w, es).node) <= Credit(w.node) + Resets(es)
    decreases |es|
  {
    if es != [] {
      var w1 := Apply(w, es[0]);
      LatchBound(w1, es[1..]);
      match es[0]
      case Receive(h) =>
      case FireBuild(ok, now, pos) =>
      case FireData(ok, now, pos) =>
      case FireForward(ok) =>
    }
  }

  /**
   * Between two successful `tx_build` callbacks, receptions schedule at most
   * one more, and none at all while one is already pending.
   */
  lemma AtMostOnePending(w: World, es: seq<Event>)
    requires Invariant(w.node)
    requires Resets(es) == 0
    ensures Announcements(w, es) <= 1
    ensures w.node.msgStatus == MesBu ==> Announcements(w, es) == 0
  {
    LatchBound(w, es);
  }

  // ---------------------------------------------------------------------
  // The forward buffer drains first in, first out
  // ---------------------------------------------------------------------

  /** `k` successful `tx_forward` calls in a row, and the headers they send. */
  function Drain(n: NodeState, k: nat): (NodeState, seq<Header>)
    requires Invariant(n) && k <= |n.buffer|
    decreases k
  {
    if k == 0 then (n, [])
    else
      var t := TxForward(n, true);
      var rest := Drain(t.node, k - 1);
      (rest.0, [t.transmitted.value] + rest.1)
  }

  /**
   * Draining `k` entries sends exactly the first `k` buffered packets, in
   * the order they were buffered, each re-stamped with this node as source
   * and its depth; the other entries stay, in order, and nothing else in
   * the node changes.
   */
  lemma {:induction false} DrainIsFifo(n: NodeState, k: nat)
    requires Invariant(n) && k <= |n.buffer|
    ensures Drain(n, k).0 == n.(buffer := n.buffer[k..])
    ensures |Drain(n, k).1| == k
    ensures forall i :: 0 <= i < k ==> Drain(n, k).1[i] == Forwarded(n, n.buffer[i])
    decreases k
  {
    if k > 0 {
      var t := TxForward(n, true);
      assert t.node == n.(buffer := n.buffer[1..]);
      DrainIsFifo(t.node, k - 1);
      assert n.buffer[1..][k - 1..] == n.buffer[k..];
      var sent := Drain(n, k).1;
      assert sent[0] == Forwarded(n, n.buffer[0]);
      forall i | 1 <= i < k
        ensures sent[i] == Forwarded(n, n.buffer[i])
      {
        assert sent[i] == Drain(t.node, k - 1).1[i - 1];
        assert t.node.buffer[i - 1] == n.buffer[i];
      }
    }
  }

  // ---------------------------------------------------------------------
  // The sequence ring remembers the last SEQUENCE insertions
  // ---------------------------------------------------------------------

  /** `add_seq` applied to each of `ss` in turn. */
  function AddAll(c: SeqCache, ss: seq<int>): (r: SeqCache)
    requires CacheOk(c)
    ensures CacheOk(r)
    decreases |ss|
  {
    if ss == [] then c else AddAll(AddSeq(c, ss[0]), ss[1..])
  }

  /**
   * How many `add_seq` calls, from cursor `p`, until slot `q` is written
   * again: the cursor moves first, so slot `p` itself is the last one reached.
   */
  function Distance(p: int, q: int): nat
    requires 0 <= p < SEQUENCE && 0 <= q < SEQUENCE
  {
    if q > p then q - p else q - p + SEQUENCE
  }

  /** A slot keeps its value for as long as the cursor has not come round to it. */
  lemma {:induction false} SlotSurvives(c: SeqCache, later: seq<int>, q: int)
    requires CacheOk(c) && 0 <= q < SEQUENCE
    requires |later| < Distance(c.pointer, q)
    ensures AddAll(c, later).slots[q] == c.slots[q]
    decreases |later|
  {
    if later != [] {
      var c1 := AddSeq(c, later[0]);
      assert c1.pointer == if c.pointer + 1 == SEQUENCE then 0 else c.pointer + 1;
      assert q != c1.pointer;
      assert Distance(c1.pointer, q) == Distance(c.pointer, q) - 1;
      SlotSurvives(c1, later[1..], q);
    }
  }

  /**
   * A sequence number stays seen through the next SEQUENCE - 1 insertions,
   * whatever they are: a duplicate arriving within that window is dropped.
   */
  lemma RecentlyAddedIsSeen(c: SeqCache, s: int, later: seq<int>)
    requires CacheOk(c)
    requires |later| < SEQUENCE
    ensures CheckSeq(AddAll(AddSeq(c, s), later), s) == -1
  {
    var c1 := AddSeq(c, s);
    SlotSurvives(c1, later, c1.pointer);
    assert AddAll(c1, later).slots[c1.pointer] == s;
  }

  /** Within one turn of the ring, the `d`-th insertion lands in the slot at distance `d`. */
  lemma {:induction false} SlotWritten(c: SeqCache, ss: seq<int>, q: int)
    requires CacheOk(c) && 0 <= q < SEQUENCE
    requires |ss| <= SEQUENCE && Distance(c.pointer, q) <= |ss|
    ensures AddAll(c, ss).slots[q] == ss[Distance(c.pointer, q) - 1]
    decreases |ss|
  {
    var c1 := AddSeq(c, ss[0]);
    assert c1.pointer == if c.pointer + 1 == SEQUENCE then 0 else c.pointer + 1;
    if Distance(c.pointer, q) == 1 {
      assert q == c1.pointer;
      assert Distance(c1.pointer, q) == SEQUENCE;
      SlotSurvives(c1, ss[1..], q);
    } else {
      assert Distance(c1.pointer, q) == Distance(c.pointer, q) - 1;
      SlotWritten(c1, ss[1..], q);
    }
  }

  /**
   * After SEQUENCE insertions the ring holds only the values inserted: a
   * sequence number not among the last SEQUENCE ones is no longer seen.
   */
  lemma FullTurnForgets(c: SeqCache, ss: seq<int>, s: int)
    requires CacheOk(c)
    requires |ss| == SEQUENCE && s !in ss
    ensures forall q :: 0 <= q < SEQUENCE ==> AddAll(c, ss).slots[q] in ss
    ensures CheckSeq(AddAll(c, ss), s) == 1
  {
    forall q | 0 <= q < SEQUENCE
      ensures AddAll(c, ss).slots[q] in ss
    {
      SlotWritten(c, ss, q);
    }
  }
}
