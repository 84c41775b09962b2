/**
 * The per-node state of the gradient routing protocol (gr.c) as a value, and
 * one pure function per routine saying what that routine does to it. The
 * class in node.dfy, which keeps the same state in fields and arrays, is
 * proved to follow these functions; traces.dfy chains them.
 *
 * The node's state is `struct _node_private` without its link-layer and
 * mobility fields. The forward buffer is the occupied prefix
 * `p[0 .. buffer_pointer)`; the sequence cache is the whole ring `seq[]`
 * together with `seq_pointer`.
 */
module Protocol {
  import opened Packets

  /** `nodedata->type`: SENSOR or SINK. */
  datatype Role = Sensor | Sink
  /** `msg_status`: MES_NO (no re-announcement pending) or MES_BU (one pending). */
  datatype MsgStatus = MesNo | MesBu
  /** `node_status`: NODE_OFF until a BUILD has been received, then NODE_ON. */
  datatype Power = NodeOff | NodeOn

  /** The ring `seq[SEQUENCE]` and its cursor `seq_pointer`. */
  datatype SeqCache = SeqCache(slots: seq<int>, pointer: int)

  predicate CacheOk(c: SeqCache)
  {
    |c.slots| == SEQUENCE && 0 <= c.pointer < SEQUENCE
  }

  datatype NodeState = NodeState(
    id: int,               // c->node
    role: Role,            // type
    mobility: int,         // status (always STATIC)
    seqno: int,            // last accepted BUILD sequence number
    depth: int,            // hop count to the sink, -1 while unknown
    from: int,             // neighbour the depth was learned from
    msgStatus: MsgStatus,
    power: Power,          // node_status
    buffer: seq<Header>,   // p[0 .. buffer_pointer)
    cache: SeqCache,       // seq[] and seq_pointer
    packetsSent: int,      // no_packet_sent
    packetsRecv: int,      // no_packet_recv
    packetsDropped: int)   // no_packet_drop

  /**
   * What every reachable node state satisfies: the buffer never holds more
   * than BUFFER - 1 entries (the capacity test is `buffer_pointer < BUFFER - 1`)
   * and the ring cursor stays inside the ring.
   */
  predicate Invariant(n: NodeState)
  {
    |n.buffer| <= BUFFER - 1 && CacheOk(n.cache)
  }

  /** The new state after a receive or bootstrap, and the callback it schedules. */
  datatype Step = Step(node: NodeState, sched: Option<Callback>)

  /**
   * The new state after a transmit routine, the header it hands to the link
   * layer (None when nothing is sent), the callback it schedules and its
   * return code.
   */
  datatype Tx = Tx(node: NodeState, transmitted: Option<Header>, sched: Option<Callback>, ret: int)

  // ---------------------------------------------------------------------
  // Set-up
  // ---------------------------------------------------------------------

  /**
   * `setnode`. The routine never writes `seq[]` or `no_packet_drop`; whatever
   * the allocator left there is passed in as `slots0` and `dropped0`. Node 0
   * is always the sink; any other node takes the role read from its
   * configuration (`configured`, SENSOR by default).
   */
  function Setnode(id: int, configured: Role, slots0: seq<int>, dropped0: int): (n: NodeState)
    requires |slots0| == SEQUENCE
    ensures Invariant(n)
    ensures n.role == Sink <==> id == 0 || configured == Sink
    ensures n.seqno == -1 && n.depth == -1 && n.from == -1
    ensures n.msgStatus == MesNo && n.power == NodeOff && n.buffer == []
    ensures n.cache.slots == slots0 && n.packetsSent == 0 && n.packetsRecv == 0 && n.packetsDropped == dropped0
  {
    NodeState(id, if id == 0 then Sink else configured, STATIC, -1, -1, -1, MesNo, NodeOff,
              [], SeqCache(slots0, 0), 0, 0, dropped0)
  }

  /**
   * `bootstrap`, without the link-header overhead loop. The sink roots the
   * gradient at depth 0 with sequence number 0 and schedules its first BUILD;
   * node 1, the only data source, schedules its first origination.
   */
  function Bootstrap(n: NodeState): (r: Step)
    ensures n.role == Sink ==>
      r.node.depth == 0 && r.node.seqno == 0 && r.node.power == NodeOn && r.node.from == n.id
      && r.node == n.(seqno := 0, from := n.id, depth := 0, power := NodeOn)
      && r.sched == Some(Announce)
    ensures n.role == Sensor ==> r.node == n && (r.sched.Some? <==> n.id == 1)
    ensures r.sched.Some? ==> r.sched.value == (if n.role == Sink then Announce else Originate)
  {
    if n.role == Sink then
      Step(n.(seqno := 0, from := n.id, depth := 0, power := NodeOn), Some(Announce))
    else if n.id == 1 then
      Step(n, Some(Originate))
    else
      Step(n, None)
  }

  // ---------------------------------------------------------------------
  // Sequence cache
  // ---------------------------------------------------------------------

  /** Number of slots of `slots` that hold `s`: the `helper` counter of `check_seq`. */
  function Occurrences(slots: seq<int>, s: int): nat
  {
    if slots == [] then 0
    else Occurrences(slots[..|slots| - 1], s) + (if slots[|slots| - 1] == s then 1 else 0)
  }

  lemma {:induction false} OccurrencesPositive(slots: seq<int>, s: int)
    ensures Occurrences(slots, s) > 0 <==> s in slots
  {
    if slots != [] {
      var init := slots[..|slots| - 1];
      assert slots == init + [slots[|slots| - 1]];
      OccurrencesPositive(init, s);
    }
  }

  /** `check_seq`: -1 when `s` is in the ring, 1 when it is not. */
  function CheckSeq(c: SeqCache, s: int): (r: int)
    ensures r == -1 <==> s in c.slots
    ensures r == 1 <==> s !in c.slots
  {
    OccurrencesPositive(c.slots, s);
    if Occurrences(c.slots, s) > 0 then -1 else 1
  }

  /**
   * `add_seq`: advance the cursor, wrapping at SEQUENCE, and overwrite that
   * one slot. The value just added is then reported as seen.
   */
  function AddSeq(c: SeqCache, s: int): (r: SeqCache)
    requires CacheOk(c)
    ensures CacheOk(r)
    ensures r.pointer == (c.pointer + 1) % SEQUENCE
    ensures r.slots[r.pointer] == s
    ensures forall i :: 0 <= i < SEQUENCE && i != r.pointer ==> r.slots[i] == c.slots[i]
    ensures CheckSeq(r, s) == -1
  {
    var next := c.pointer + 1;
    var p := if next >= SEQUENCE then next % SEQUENCE else next;
    SeqCache(c.slots[p := s], p)
  }

  // ---------------------------------------------------------------------
  // Receiving (rx)
  // ---------------------------------------------------------------------

  /**
   * The BUILD acceptance rule of `rx`: a newer gradient generation, or a
   * strictly shorter path whatever its generation.
   */
  predicate Accepts(n: NodeState, h: Header)
  {
    n.seqno < h.seqno || n.depth > h.depth + 1
  }

  /**
   * The BUILD branch of `rx`. Two tests in a row, each adopting the sender's
   * depth + 1, its identity and its sequence number (even a lower one: the
   * shorter-path test does not look at the generation); then the latch: a
   * re-announcement is scheduled only when something was adopted and none
   * is pending already. The node is switched on whether or not it adopts.
   */
  function RxBuild(n: NodeState, h: Header): (r: Step)
    ensures r.node.power == NodeOn
    ensures Accepts(n, h) ==> r.node.depth == h.depth + 1 && r.node.from == h.src && r.node.seqno == h.seqno
    ensures !Accepts(n, h) ==> r.node.depth == n.depth && r.node.from == n.from && r.node.seqno == n.seqno
    ensures r.node.msgStatus == (if Accepts(n, h) then MesBu else n.msgStatus)
    ensures r.sched.Some? <==> Accepts(n, h) && n.msgStatus == MesNo
    ensures r.sched.Some? ==> r.sched.value == Announce
    ensures r.node == n.(power := NodeOn, seqno := r.node.seqno, depth := r.node.depth,
                         from := r.node.from, msgStatus := r.node.msgStatus)
  {
    var on := n.(power := NodeOn);
    var newer := on.seqno < h.seqno;
    var n1 := if newer then on.(seqno := h.seqno, depth := h.depth + 1, from := h.src) else on;
    var shorter := n1.depth > h.depth + 1;
    var n2 := if shorter then n1.(seqno := h.seqno, depth := h.depth + 1, from := h.src) else n1;
    var helper := (if newer then 1 else 0) + (if shorter then 1 else 0);
    assert helper > 0 <==> Accepts(n, h);
    if helper > 0 && n2.msgStatus == MesNo then Step(n2.(msgStatus := MesBu), Some(Announce))
    else
      assert Accepts(n, h) ==> n.msgStatus == MesBu;
      Step(n2, None)
  }

  /** The outcome of a received DATA packet: the `fwd` variable of `rx` (0, 1, 2, 3). */
  datatype Decision = Ignore | Forward | Deliver | Drop

  /**
   * The DATA decision of `rx`. Only a packet from a strictly deeper node,
   * received while switched on, is considered; it is dropped when the buffer
   * has no room below BUFFER - 1 or its sequence number is in the ring
   * (one outcome for both); otherwise a sensor forwards it and the sink
   * delivers it.
   */
  function Decide(n: NodeState, h: Header): (d: Decision)
    ensures d != Ignore <==> h.depth > n.depth && n.power == NodeOn
    ensures (d == Forward || d == Deliver) ==> h.depth > n.depth
    ensures (d == Forward || d == Deliver) <==>
              d != Ignore && |n.buffer| < BUFFER - 1 && h.seqno !in n.cache.slots
    ensures d == Drop <==>
              h.depth > n.depth && n.power == NodeOn && (|n.buffer| >= BUFFER - 1 || h.seqno in n.cache.slots)
    ensures d == Forward ==> n.role == Sensor
    ensures d == Deliver ==> n.role == Sink
  {
    if h.depth > n.depth && n.power == NodeOn then
      if |n.buffer| < BUFFER - 1 && CheckSeq(n.cache, h.seqno) == 1 then
        if n.role.Sensor? then Forward else Deliver
      else
        Drop
    else
      Ignore
  }

  /**
   * The DATA branch of `rx`. A forwarded packet is appended to the buffer
   * as received, counted, added to the ring, and a drain is scheduled (on
   * every enqueue, not only on the first). A delivery at the sink only
   * counts it and does not touch the ring. A drop only counts it.
   */
  function RxData(n: NodeState, h: Header): (r: Step)
    requires Invariant(n)
    ensures Invariant(r.node)
    ensures |r.node.buffer| == |n.buffer| + (if Decide(n, h) == Forward then 1 else 0)
    ensures r.node.buffer[..|n.buffer|] == n.buffer
    ensures Decide(n, h) == Forward ==> r.node.buffer[|n.buffer|] == h
    ensures r.node.cache == (if Decide(n, h) == Forward then AddSeq(n.cache, h.seqno) else n.cache)
    ensures r.node.packetsRecv == n.packetsRecv + (if Decide(n, h) in {Forward, Deliver} then 1 else 0)
    ensures r.node.packetsDropped == n.packetsDropped + (if Decide(n, h) == Drop then 1 else 0)
    ensures r.node == n.(buffer := r.node.buffer, cache := r.node.cache,
                         packetsRecv := r.node.packetsRecv, packetsDropped := r.node.packetsDropped)
    ensures r.sched.Some? <==> Decide(n, h) == Forward
    ensures r.sched.Some? ==> r.sched.value == Drain
  {
    match Decide(n, h)
    case Forward =>
      Step(n.(buffer := n.buffer + [h], packetsRecv := n.packetsRecv + 1,
              cache := AddSeq(n.cache, h.seqno)), Some(Drain))
    case Deliver => Step(n.(packetsRecv := n.packetsRecv + 1), None)
    case Drop => Step(n.(packetsDropped := n.packetsDropped + 1), None)
    case Ignore => Step(n, None)
  }

  /** `rx`: dispatch on the packet type; an unknown type changes nothing. */
  function Rx(n: NodeState, h: Header): (r: Step)
    requires Invariant(n)
    ensures Invariant(r.node)
    ensures r.node.id == n.id && r.node.role == n.role && r.node.mobility == n.mobility
    ensures h.ptype.Unknown? ==> r == Step(n, None)
    ensures r.sched == Some(Announce) <==> h.ptype == Build && Accepts(n, h) && n.msgStatus == MesNo
    ensures r.sched == Some(Announce) ==> r.node.msgStatus == MesBu
    ensures n.msgStatus == MesBu ==> r.node.msgStatus == MesBu
    ensures h.ptype != Build ==> r.node.msgStatus == n.msgStatus && r.node.seqno == n.seqno
                                 && r.node.depth == n.depth && r.node.power == n.power
    ensures h.ptype != Data ==> r.node.buffer == n.buffer && r.node.cache == n.cache
  {
    match h.ptype
    case Build => RxBuild(n, h)
    case Data => RxData(n, h)
    case Unknown(_) => Step(n, None)
  }

  // ---------------------------------------------------------------------
  // Transmitting
  // ---------------------------------------------------------------------

  /**
   * `tx_build`. When the link layer refuses the header the routine returns
   * at once: nothing is sent, nothing changes, and a pending latch stays set.
   * Otherwise the node announces its own depth and sequence number and
   * clears the latch; the sink then moves to the next generation and
   * schedules its next periodic BUILD.
   */
  function TxBuild(n: NodeState, ok: bool, now: nat, pos: Position): (r: Tx)
    ensures !ok ==> r == Tx(n, None, None, -1)
    ensures ok ==> r.ret == 1 && r.transmitted.Some?
    ensures ok ==> var h := r.transmitted.value;
      h.ptype == Build && h.src == n.id && h.origin == n.id && h.dst == -1
      && h.seqno == n.seqno && h.depth == n.depth && h.status == n.mobility
      && h.stamp == now && h.pos == pos
    ensures ok ==> r.node.msgStatus == MesNo && r.node.depth == n.depth
    ensures ok ==> r.node.seqno == n.seqno + (if n.role == Sink then 1 else 0)
    ensures ok ==> r.node == n.(msgStatus := MesNo, seqno := r.node.seqno)
    ensures ok ==> (r.sched.Some? <==> n.role == Sink)
    ensures r.sched.Some? ==> r.sched.value == Announce
  {
    if !ok then
      Tx(n, None, None, -1)
    else
      var h := Header(n.id, -1, Build, n.seqno, n.depth, n.id, n.mobility, pos, now);
      var cleared := n.(msgStatus := MesNo);
      if n.role == Sink then
        Tx(cleared.(seqno := cleared.seqno + 1), Some(h), Some(Announce), 1)
      else
        Tx(cleared, Some(h), None, 1)
  }

  /**
   * `tx_data`, with the shared counter `packet_seq` passed in and returned.
   * A node still off only reschedules itself. When the link layer refuses
   * the header the routine returns without rescheduling. Otherwise the
   * packet carries the incremented shared counter as its sequence number.
   */
  function TxData(n: NodeState, packetSeq: int, ok: bool, now: nat, pos: Position): (r: (Tx, int))
    ensures n.power == NodeOff ==> r.0 == Tx(n, None, Some(Originate), 1) && r.1 == packetSeq
    ensures n.power == NodeOn && !ok ==> r.0 == Tx(n, None, None, -1) && r.1 == packetSeq
    ensures n.power == NodeOn && ok ==>
      r.1 == packetSeq + 1 && r.0.node == n.(packetsSent := n.packetsSent + 1)
      && r.0.sched == Some(Originate) && r.0.ret == 1 && r.0.transmitted.Some?
    ensures n.power == NodeOn && ok ==> var h := r.0.transmitted.value;
      h.seqno == r.1 && h.ptype == Data && h.src == n.id && h.origin == n.id && h.dst == -1
      && h.depth == n.depth && h.status == n.mobility && h.stamp == now && h.pos == pos
  {
    if n.power != NodeOn then
      (Tx(n, None, Some(Originate), 1), packetSeq)
    else if !ok then
      (Tx(n, None, None, -1), packetSeq)
    else
      var seq' := packetSeq + 1;
      var h := Header(n.id, -1, Data, seq', n.depth, n.id, n.mobility, pos, now);
      (Tx(n.(packetsSent := n.packetsSent + 1), Some(h), Some(Originate), 1), seq')
  }

  /**
   * The header `tx_forward` builds from a buffered entry: the entry's
   * sequence number, origin, stamp and position, with the forwarding node
   * as source and its own depth.
   */
  function Forwarded(n: NodeState, e: Header): Header
  {
    Header(n.id, -1, Data, e.seqno, n.depth, e.origin, n.mobility, e.pos, e.stamp)
  }

  /**
   * `tx_forward`: pop the head of the FIFO. On an empty buffer it returns
   * -1 and changes nothing. When the link layer refuses the header the
   * pointer has already been decremented without the shift, so the NEWEST
   * entry is lost and nothing is sent. Otherwise the head is sent, the rest
   * moves up in order, and another drain is scheduled while entries remain.
   */
  function TxForward(n: NodeState, ok: bool): (r: Tx)
    requires Invariant(n)
    ensures Invariant(r.node)
    ensures r.node == n.(buffer := r.node.buffer)
    ensures n.buffer == [] ==> r == Tx(n, None, None, -1)
    ensures n.buffer != [] && !ok ==>
      r.ret == -1 && r.transmitted == None && r.sched == None
      && r.node.buffer + [n.buffer[|n.buffer| - 1]] == n.buffer
    ensures n.buffer != [] && ok ==>
      r.ret == 1 && [n.buffer[0]] + r.node.buffer == n.buffer && r.transmitted.Some?
      && (r.sched.Some? <==> r.node.buffer != [])
    ensures n.buffer != [] && ok ==> var h, e := r.transmitted.value, n.buffer[0];
      h.seqno == e.seqno && h.origin == e.origin && h.stamp == e.stamp && h.pos == e.pos
      && h.src == n.id && h.depth == n.depth && h.ptype == Data && h.dst == -1 && h.status == n.mobility
    ensures r.sched.Some? ==> r.sched.value == Drain
  {
    var bp := |n.buffer| - 1;
    if bp < 0 then
      Tx(n, None, None, -1)
    else if !ok then
      Tx(n.(buffer := n.buffer[..bp]), None, None, -1)
    else
      Tx(n.(buffer := n.buffer[1..]), Some(Forwarded(n, n.buffer[0])),
         if bp > 0 then Some(Drain) else None, 1)
  }
}
