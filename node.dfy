/**
 * The routines of gr.c as they run: a `Node` object holds the fields of
 * `struct _node_private` that the protocol uses, with the forward buffer
 * `p[BUFFER]` and the sequence ring `seq[SEQUENCE]` as arrays updated in
 * place. `State()` reads the object as a `Protocol.NodeState`, and every
 * routine is proved to move that state exactly as the function of the same
 * name in module Protocol says; the array-level facts (which slots are
 * written, which stay) are stated beside it.
 */
module GradientNode {
  import opened Packets
  import opened Protocol

  /**
   * Stands for whatever the allocator left in `p[]`: `setnode` never
   * initialises the buffer, and no slot is read before it is written.
   */
  const UNWRITTEN := Header(0, 0, Unknown(0), 0, 0, 0, 0, Position(0.0, 0.0), 0)

  /** `struct entitydata`, of which only the shared DATA counter is modelled. */
  class EntityData {
    var packetSeq: int

    /** `init`, with the default settings (no configuration parsing). */
    constructor ()
      ensures packetSeq == 0
    {
      packetSeq := 0;
    }
  }

  class Node {
    const id: int
    const role: Role
    const mobility: int
    var seqno: int
    var depth: int
    var from: int
    var msgStatus: MsgStatus
    var power: Power
    const p: array<Header>
    const seqTable: array<int>
    var bufferPointer: int
    var seqPointer: int
    var packetsSent: int
    var packetsRecv: int
    var packetsDropped: int

    ghost predicate Valid()
      reads this
    {
      p.Length == BUFFER && seqTable.Length == SEQUENCE
      && 0 <= bufferPointer <= BUFFER - 1 && 0 <= seqPointer < SEQUENCE
    }

    /** The node as a protocol state: the buffer is the occupied prefix of `p`. */
    ghost function State(): (n: NodeState)
      reads this, p, seqTable
      requires Valid()
      ensures Invariant(n)
    {
      NodeState(id, role, mobility, seqno, depth, from, msgStatus, power,
                p[..bufferPointer], SeqCache(seqTable[..], seqPointer),
                packetsSent, packetsRecv, packetsDropped)
    }

    /** `setnode`; `slots0` and `dropped0` are the contents it leaves uninitialised. */
    constructor (id: int, configured: Role, slots0: seq<int>, dropped0: int)
      requires |slots0| == SEQUENCE
      ensures Valid() && fresh(p) && fresh(seqTable)
      ensures State() == Setnode(id, configured, slots0, dropped0)
    {
      this.id := id;
      seqno, depth, from := -1, -1, -1;
      mobility := STATIC;
      msgStatus := MesNo;
      role := if id == 0 then Sink else configured;
      power := NodeOff;
      bufferPointer, seqPointer := 0, 0;
      packetsSent, packetsRecv := 0, 0;
      packetsDropped := dropped0;
      p := new Header[BUFFER](_ => UNWRITTEN);
      seqTable := new int[SEQUENCE](i => if 0 <= i < |slots0| then slots0[i] else 0);
      new;
      assert seqTable[..] == slots0;
    }

    /** `bootstrap`: the sink takes depth 0, sequence number 0 and is switched on. */
    method Bootstrap() returns (sched: Option<Callback>)
      requires Valid()
      modifies this
      ensures Valid()
      ensures State() == Protocol.Bootstrap(old(State())).node
      ensures sched == Protocol.Bootstrap(old(State())).sched
    {
      if role == Sink {
        seqno := 0;
        from := id;
        depth := 0;
        power := NodeOn;
        sched := Some(Announce);
      } else if id == 1 {
        sched := Some(Originate);
      } else {
        sched := None;
      }
    }

    /** `add_seq`: one slot of the ring is overwritten, the others are kept. */
    method AddSeq(s: int)
      requires Valid()
      modifies this`seqPointer, seqTable
      ensures Valid()
      ensures State() == old(State()).(cache := Protocol.AddSeq(old(State()).cache, s))
      ensures seqTable[seqPointer] == s
      ensures forall i :: 0 <= i < SEQUENCE && i != seqPointer ==> seqTable[i] == old(seqTable[i])
    {
      seqPointer := seqPointer + 1;
      if seqPointer >= SEQUENCE {
        seqPointer := seqPointer % SEQUENCE;
      }
      seqTable[seqPointer] := s;
    }

    /** `check_seq`: count the slots holding `s`; -1 if there is one, 1 otherwise. */
    method CheckSeq(s: int) returns (r: int)
      requires Valid()
      ensures r == -1 <==> s in seqTable[..]
      ensures r == 1 <==> s !in seqTable[..]
    {
      var helper := 0;
      for i := 0 to SEQUENCE
        invariant helper == Occurrences(seqTable[..i], s)
      {
        assert seqTable[..i + 1][..i] == seqTable[..i];
        if seqTable[i] == s {
          helper := helper + 1;
        }
      }
      assert seqTable[..SEQUENCE] == seqTable[..];
      OccurrencesPositive(seqTable[..], s);
      if helper > 0 {
        r := -1;
      } else {
        r := 1;
      }
    }

    /** `rx`: dispatch on the packet type; an unknown type changes nothing. */
    method Rx(h: Header) returns (sched: Option<Callback>)
      requires Valid()
      modifies this, p, seqTable
      ensures Valid()
      ensures State() == Protocol.Rx(old(State()), h).node
      ensures sched == Protocol.Rx(old(State()), h).sched
      ensures forall i :: 0 <= i < old(bufferPointer) ==> p[i] == old(p[i])
      ensures bufferPointer == old(bufferPointer) + 1 ==> p[old(bufferPointer)] == h
    {
      match h.ptype
      case Build =>
        sched := ReceiveBuild(h);
      case Data =>
        sched := ReceiveData(h);
      case Unknown(_) =>
        sched := None;
    }

    /** The BUILD branch of `rx`. */
    method ReceiveBuild(h: Header) returns (sched: Option<Callback>)
      requires Valid()
      modifies this
      ensures Valid()
      ensures State() == RxBuild(old(State()), h).node
      ensures sched == RxBuild(old(State()), h).sched
      ensures bufferPointer == old(bufferPointer)
    {
      power := NodeOn;
      var helper := 0;
      if seqno < h.seqno {
        seqno := h.seqno;
        depth := h.depth + 1;
        from := h.src;
        helper := helper + 1;
      }
      if depth > h.depth + 1 {
        seqno := h.seqno;
        depth := h.depth + 1;
        from := h.src;
        helper := helper + 1;
      }
      sched := None;
      if helper > 0 && msgStatus == MesNo {
        msgStatus := MesBu;
        sched := Some(Announce);
      }
    }

    /**
     * The DATA branch of `rx`. A forwarded packet is copied into
     * `p[buffer_pointer]`; the slots below it are never touched.
     */
    method ReceiveData(h: Header) returns (sched: Option<Callback>)
      requires Valid()
      modifies this, p, seqTable
      ensures Valid()
      ensures State() == RxData(old(State()), h).node
      ensures sched == RxData(old(State()), h).sched
      ensures forall i :: 0 <= i < old(bufferPointer) ==> p[i] == old(p[i])
      ensures bufferPointer == old(bufferPointer) + 1 ==> p[old(bufferPointer)] == h
    {
      var fwd := Ignore;
      if h.depth > depth && power == NodeOn {
        var accept := false;
        if bufferPointer < BUFFER - 1 {
          var seen := CheckSeq(h.seqno);
          accept := seen == 1;
        }
        if accept {
          fwd := if role == Sensor then Forward else Deliver;
        } else {
          fwd := Drop;
        }
      }
      sched := None;
      if fwd == Forward {
        p[bufferPointer] := h;
        bufferPointer := bufferPointer + 1;
        packetsRecv := packetsRecv + 1;
        AddSeq(h.seqno);
        sched := Some(Drain);
      }
      if fwd == Deliver {
        packetsRecv := packetsRecv + 1;
      }
      if fwd == Drop {
        packetsDropped := packetsDropped + 1;
      }
    }

    /**
     * `tx_build`. `ok` is whether the link layer accepted the header
     * (`SET_HEADER`); the sent header is returned instead of transmitted.
     */
    method TxBuild(ok: bool, now: nat, pos: Position)
      returns (sent: Option<Header>, sched: Option<Callback>, ret: int)
      requires Valid()
      modifies this
      ensures Valid()
      ensures State() == Protocol.TxBuild(old(State()), ok, now, pos).node
      ensures sent == Protocol.TxBuild(old(State()), ok, now, pos).transmitted
      ensures sched == Protocol.TxBuild(old(State()), ok, now, pos).sched
      ensures ret == Protocol.TxBuild(old(State()), ok, now, pos).ret
    {
      if !ok {
        return None, None, -1;
      }
      var header := Header(id, -1, Build, seqno, depth, id, mobility, pos, now);
      msgStatus := MesNo;
      sent, sched := Some(header), None;
      if role == Sink {
        seqno := seqno + 1;
        sched := Some(Announce);
      }
      ret := 1;
    }

    /** `tx_data`, incrementing the counter shared through `entity`. */
    method TxData(entity: EntityData, ok: bool, now: nat, pos: Position)
      returns (sent: Option<Header>, sched: Option<Callback>, ret: int)
      requires Valid()
      modifies this, entity
      ensures Valid()
      ensures State() == Protocol.TxData(old(State()), old(entity.packetSeq), ok, now, pos).0.node
      ensures entity.packetSeq == Protocol.TxData(old(State()), old(entity.packetSeq), ok, now, pos).1
      ensures sent == Protocol.TxData(old(State()), old(entity.packetSeq), ok, now, pos).0.transmitted
      ensures sched == Protocol.TxData(old(State()), old(entity.packetSeq), ok, now, pos).0.sched
      ensures ret == Protocol.TxData(old(State()), old(entity.packetSeq), ok, now, pos).0.ret
    {
      if power != NodeOn {
        return None, Some(Originate), 1;
      }
      if !ok {
        return None, None, -1;
      }
      packetsSent := packetsSent + 1;
      entity.packetSeq := entity.packetSeq + 1;
      var header := Header(id, -1, Data, entity.packetSeq, depth, id, mobility, pos, now);
      sent, sched, ret := Some(header), Some(Originate), 1;
    }

    /**
     * `tx_forward`: decrement the pointer, send the head and shift the
     * remaining entries down one slot.
     */
    method TxForward(ok: bool) returns (sent: Option<Header>, sched: Option<Callback>, ret: int)
      requires Valid()
      modifies this, p
      ensures Valid()
      ensures State() == Protocol.TxForward(old(State()), ok).node
      ensures sent == Protocol.TxForward(old(State()), ok).transmitted
      ensures sched == Protocol.TxForward(old(State()), ok).sched
      ensures ret == Protocol.TxForward(old(State()), ok).ret
      ensures ok && old(bufferPointer) > 0 ==> forall i :: 0 <= i < bufferPointer ==> p[i] == old(p[i + 1])
      ensures !(ok && old(bufferPointer) > 0) ==> p[..] == old(p[..])
    {
      ghost var before := State();
      bufferPointer := bufferPointer - 1;
      if bufferPointer < 0 {
        bufferPointer := 0;
        assert State() == before;
        return None, None, -1;
      }
      if !ok {
        assert p[..bufferPointer] == before.buffer[..|before.buffer| - 1];
        assert State() == before.(buffer := before.buffer[..|before.buffer| - 1]);
        return None, None, -1;
      }
      var header := Header(id, -1, Data, p[0].seqno, depth, p[0].origin, mobility, p[0].pos, p[0].stamp);
      assert header == Forwarded(before, before.buffer[0]);
      if bufferPointer > 0 {
        for i := 0 to bufferPointer
          modifies p
          invariant forall k :: 0 <= k < i ==> p[k] == old(p[k + 1])
          invariant forall k :: i <= k < BUFFER ==> p[k] == old(p[k])
        {
          p[i] := p[i + 1];
        }
      }
      assert p[..bufferPointer] == before.buffer[1..];
      assert State() == before.(buffer := before.buffer[1..]);
      sched := None;
      if bufferPointer > 0 {
        sched := Some(Drain);
      }
      sent, ret := Some(header), 1;
    }
  }
}
