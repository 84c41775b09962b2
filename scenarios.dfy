/**
 * Small networks worked through the protocol functions: a line of nodes
 * building its gradient, a DATA packet relayed to the sink, and a packet
 * arriving at a relay whose buffer is full.
 */
module Scenarios {
  import opened Packets
  import opened Protocol

  const ORIGIN := Position(0.0, 0.0)

  /** A node just set up, whose uninitialised ring happens to hold zeros. */
  function Fresh(id: int): (n: NodeState)
    ensures Invariant(n) && n.id == id && n.depth == -1 && n.power == NodeOff
  {
    Setnode(id, Sensor, seq(SEQUENCE, _ => 0), 0)
  }

  /**
   * Sink 0, node A = 1 within its range, node B = 2 within A's range only.
   * The first BUILD generation gives A depth 1 and B depth 2; the sink's next
   * heartbeat moves A to generation 1 without changing its depth.
   */
  lemma GradientOnALine()
    ensures var sink := Bootstrap(Fresh(0)).node;
      var b0 := TxBuild(sink, true, 0, ORIGIN);
      var a := RxBuild(Fresh(1), b0.transmitted.value);
      var a0 := TxBuild(a.node, true, 1, ORIGIN);
      var b := RxBuild(Fresh(2), a0.transmitted.value);
      var back := RxBuild(b0.node, a0.transmitted.value);
      var b1 := TxBuild(back.node, true, 10, ORIGIN);
      var a1 := RxBuild(a0.node, b1.transmitted.value);
      a.node.depth == 1 && a.node.from == 0 && a.sched == Some(Announce)
      && b.node.depth == 2 && b.node.from == 1
      && back.node.depth == 0 && back.sched == None
      && b1.transmitted.value.seqno == 1
      && a1.node.depth == 1 && a1.node.seqno == 1 && a1.sched == Some(Announce)
  {
  }

  /**
   * Node 3 at depth 3 originates DATA number 7; a relay at depth 2 buffers
   * and forwards it with only source and depth rewritten; the sink at depth
   * 0 delivers it with origin 3 and sequence number 7.
   */
  lemma RelayToSink(relay: NodeState, sink: NodeState, h: Header)
    requires Invariant(relay) && relay.role == Sensor && relay.power == NodeOn
    requires relay.depth == 2 && relay.buffer == [] && 7 !in relay.cache.slots
    requires Invariant(sink) && sink.role == Sink && sink.power == NodeOn && sink.depth == 0
    requires sink.buffer == [] && 7 !in sink.cache.slots
    requires h == Header(3, -1, Data, 7, 3, 3, STATIC, ORIGIN, 100)
    ensures var got := Rx(relay, h);
      var out := TxForward(got.node, true);
      var fwd := out.transmitted.value;
      got.sched == Some(Drain) && out.sched == None
      && fwd.origin == 3 && fwd.seqno == 7 && fwd.stamp == 100 && fwd.src == relay.id && fwd.depth == 2
      && Decide(sink, fwd) == Deliver
      && Rx(sink, fwd).node.packetsRecv == sink.packetsRecv + 1
  {
  }

  /**
   * A relay already holding BUFFER - 1 packets drops a new, unseen packet
   * from a deeper node, counts one drop, and keeps its entries.
   */
  lemma FullBufferDrops(relay: NodeState, h: Header)
    requires Invariant(relay) && relay.power == NodeOn
    requires |relay.buffer| == BUFFER - 1
    requires h.ptype == Data && h.depth > relay.depth && h.seqno !in relay.cache.slots
    ensures Rx(relay, h).node == relay.(packetsDropped := relay.packetsDropped + 1)
    ensures Rx(relay, h).sched == None
  {
  }
}
