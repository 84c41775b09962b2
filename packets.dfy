/**
 * Constants and the packet header shared by every part of the gradient
 * routing protocol (gr.c). A header is a plain value: the protocol copies it
 * field by field into and out of a node's forward buffer.
 */
module Packets {

  /** Number of slots of a node's forward buffer `p[]`. */
  const BUFFER := 10
  /** Number of slots of a node's sequence cache `seq[]`. */
  const SEQUENCE := 10
  /** Mobility status of a node; every node is set up as STATIC and never moves. */
  const STATIC := 0

  /** `p_type`: the protocol dispatches on BUILD and DATA and ignores any other code. */
  datatype PacketType = Build | Data | Unknown(code: int)

  /**
   * A node position as stamped into packets. The protocol only copies it,
   * so it stays an opaque pair of coordinates here.
   */
  datatype Position = Position(x: real, y: real)

  /** `struct packet_header`; `p_pos_x`/`p_pos_y` are kept together as `pos`. */
  datatype Header = Header(
    src: int,
    dst: int,
    ptype: PacketType,
    seqno: int,
    depth: int,
    origin: int,
    status: int,
    pos: Position,
    stamp: nat)

  datatype Option<T> = None | Some(value: T)

  /**
   * The callbacks a node hands to the discrete-event scheduler: `tx_build`
   * (Announce), `tx_data` (Originate) and `tx_forward` (Drain). Only which
   * callback is scheduled is recorded; the delay drawn for it is not.
   */
  datatype Callback = Announce | Originate | Drain
}
