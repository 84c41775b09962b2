# Gradient routing: a verified model of one node

This project models the per-node state machine of a gradient routing protocol for
wireless sensor networks (`gr.c`, a module for a discrete-event network simulator).
One node, the sink (node 0), floods BUILD packets. Each node records its hop count
(`depth`) to the sink, the neighbour it learned it from (`from`) and the BUILD
generation (`seqno`). DATA packets are relayed only from deeper to shallower nodes
until the sink delivers them. Each relay holds a bounded FIFO forward buffer
(`p[BUFFER]`, `buffer_pointer`) and a ring of recently seen DATA sequence numbers
(`seq[SEQUENCE]`, `seq_pointer`) that suppresses duplicates.

The project has five files:

- `packets.dfy` (module `Packets`): the constants `BUFFER = 10`, `SEQUENCE = 10` and `STATIC`; the packet header; the three scheduler callbacks (`tx_build` = `Announce`, `tx_data` = `Originate`, `tx_forward` = `Drain`).
- `protocol.dfy` (module `Protocol`): a node's state as a value (`NodeState`), and one pure function per routine. Each function's contract states what the routine guarantees.
- `node.dfy` (module `GradientNode`): the routines as imperative code on a `Node` object. The buffer and the ring are arrays updated in place, and the buffer is shifted down by a loop. Each method is proved to move `State()` exactly as the matching `Protocol` function does. The shared counter `entitydata.packet_seq` is the field of an `EntityData` object.
- `traces.dfy` (module `Traces`): runs of events at one node, and what holds over them. The buffer and ring bounds hold in every reachable state. The sink stays at depth 0. Receptions schedule at most one pending re-announcement. The buffer drains first in, first out. A sequence number stays in the ring for exactly the next `SEQUENCE - 1` insertions.
- `scenarios.dfy` (module `Scenarios`): a gradient built over a line of nodes, a packet relayed to the sink, and a drop at a full buffer.

The environment's effects are inputs and outputs of the model:

- A scheduled callback is returned as `Option<Callback>`.
- A transmitted packet is returned as a header.
- Whether the link layer accepted the header (`SET_HEADER`) is a boolean input `ok`.
- The clock (`get_time`) and the node's position are inputs.

Behaviour kept as `gr.c` has it, even where a reader might expect otherwise:

- The capacity test is `buffer_pointer < BUFFER - 1`, so a buffer never holds more than 9 packets (`Protocol.Invariant`).
- The shorter-path rule adopts the header's `seqno` even when it is lower than the node's. A stale generation with a shorter path can therefore roll the generation back (`Protocol.RxBuild`).
- Any BUILD switches the node on, even one it rejects.
- A forward (`tx_forward`) is scheduled on every enqueue, not only when the buffer was empty. A surplus forward finds the buffer empty and returns -1.
- Duplicates and a full buffer share one drop counter. The sink never adds to its ring, so it delivers a repeated packet each time it arrives.
- When `SET_HEADER` fails:
  - `tx_build` returns before clearing `msg_status`, so the latch stays set and the sink's heartbeat stops.
  - `tx_data` returns without rescheduling itself, so origination stops.
  - `tx_forward` has already decremented `buffer_pointer` without shifting, so the newest buffered packet is lost and the head stays.
- `setnode` never writes `seq[]`, `p[]` or `no_packet_drop`. The model takes the leftover ring contents and drop count as constructor inputs (any values). The buffer slots are filled with a placeholder header that is never read before it is overwritten.

## Model

| member | source | states |
|---|---|---|
| `GradientNode.EntityData.constructor` | gr.c:180-188 | the shared DATA counter `packet_seq` starts at 0 |
| `Protocol.Setnode` | gr.c:239-273 | a new node has seqno, depth and from at -1, is off, has no pending announcement and an empty buffer, satisfies the buffer/ring invariant, and is the sink exactly when it is node 0 or configured as sink |
| `GradientNode.Node.constructor` | gr.c:234-279 | the object starts in the state `Setnode` describes, with fresh arrays of sizes BUFFER and SEQUENCE |
| `Protocol.Bootstrap` | gr.c:333-349 | the sink gets depth 0, seqno 0, itself as parent, is switched on and schedules its first BUILD; a sensor is unchanged, and only node 1 schedules an origination |
| `GradientNode.Node.Bootstrap` | gr.c:315-351 | updates the object's fields as `Protocol.Bootstrap` says and returns the callback it schedules |
| `Protocol.OccurrencesPositive` | gr.c:555-563 | the number of slots holding `s` is positive exactly when `s` is in the ring |
| `Protocol.CheckSeq` | gr.c:551-566 | returns -1 exactly when `s` is in one of the SEQUENCE slots, and 1 exactly when it is not |
| `GradientNode.Node.CheckSeq` | gr.c:551-566 | the counting loop over the array returns -1 exactly when `s` is in `seq[]`, and 1 otherwise |
| `Protocol.AddSeq` | gr.c:539-549 | the cursor moves to (old + 1) mod SEQUENCE and stays in range; only that slot is overwritten, with `s`; `check_seq(s)` is -1 afterwards |
| `GradientNode.Node.AddSeq` | gr.c:539-549 | the array slot at the new cursor holds `s`, every other slot keeps its value, and the node state changes only in its ring |
| `Protocol.RxBuild` | gr.c:583-601 | the node is on afterwards; it adopts depth = sender depth + 1, the sender as parent and the header's seqno exactly when the header is of a newer generation or offers a strictly shorter path, and otherwise keeps all three; the latch is set after an adoption, and a `tx_build` is scheduled exactly when it adopted and the latch was clear; nothing else changes |
| `GradientNode.Node.ReceiveBuild` | gr.c:583-601 | the two successive tests on the object's fields have the effect `Protocol.RxBuild` states |
| `Protocol.Decide` | gr.c:602-614 | a DATA packet is considered exactly when it comes from a strictly deeper node while this node is on; a considered packet is accepted exactly when fewer than BUFFER - 1 are buffered and its seqno is not in the ring, and dropped otherwise; a sensor forwards what it accepts and the sink delivers it |
| `Protocol.RxData` | gr.c:602-654 | on forward, the packet is appended behind the unchanged entries, `no_packet_recv` rises by 1, the seqno is added to the ring and a `tx_forward` is scheduled; on delivery only `no_packet_recv` rises by 1; on drop only `no_packet_drop` rises by 1; an ignored packet changes nothing; the invariant is kept |
| `GradientNode.Node.ReceiveData` | gr.c:602-654 | as `Protocol.RxData`; in the array, the header is copied into `p[old buffer_pointer]` and the slots below it are untouched |
| `Protocol.Rx` | gr.c:571-660 | keeps the invariant; only BUILD packets touch the gradient fields and the latch, and one schedules a `tx_build` exactly under the acceptance rule with the latch clear; a pending latch is never cleared by a reception; only DATA packets touch the buffer and ring; an unknown type changes nothing |
| `GradientNode.Node.Rx` | gr.c:571-660 | dispatches on the packet type with the effect `Protocol.Rx` states, writing at most the slot `p[old buffer_pointer]` |
| `Protocol.TxBuild` | gr.c:366-405 | if the header is refused nothing changes and nothing is sent or scheduled; otherwise a BUILD with the node's own id, seqno and depth is sent and the latch is cleared; the sink also raises its seqno by exactly 1, keeps its depth and schedules its next BUILD |
| `GradientNode.Node.TxBuild` | gr.c:366-405 | updates the object as `Protocol.TxBuild` says and returns the header sent, the callback scheduled and the return code |
| `Protocol.TxData` | gr.c:407-455 | a node that is off only reschedules itself, with no counter change; a refused header changes nothing and schedules nothing; otherwise `no_packet_sent` and `packet_seq` each rise by 1, the DATA packet carries the new `packet_seq` as its seqno and this node as source and origin, and the next origination is scheduled |
| `GradientNode.Node.TxData` | gr.c:407-455 | updates the object and the shared `EntityData` counter as `Protocol.TxData` says |
| `Protocol.TxForward` | gr.c:457-519 | on an empty buffer returns -1 and changes nothing; on a refused header loses the newest entry and sends nothing; otherwise sends the head entry's seqno, origin, stamp and position with this node's id and depth, the remaining entries keep their order, and another `tx_forward` is scheduled exactly when entries remain |
| `GradientNode.Node.TxForward` | gr.c:457-519 | the shift loop leaves `p[i] = old p[i+1]` below the new pointer, and the object moves as `Protocol.TxForward` says |
| `Traces.Apply` | gr.c:571-660 | one reception or callback keeps the buffer within BUFFER - 1 entries and the ring cursor in range, and never changes the node's id or role |
| `Traces.Run` | gr.c:605-627 | every state reached by any run of receptions and callbacks satisfies `0 <= buffer_pointer <= BUFFER - 1` and `0 <= seq_pointer < SEQUENCE` |
| `Traces.SinkStaysAtDepthZero` | gr.c:583-596 | a bootstrapped sink that only hears BUILDs of its own or older generations, from senders of depth at least -1, stays at depth 0, on, and its own parent, and its seqno never decreases |
| `Traces.LatchBound` | gr.c:597-600 | along any run, the `tx_build` callbacks scheduled by receptions number at most one for the initially clear latch plus one per successful `tx_build`; a failed `tx_build` does not reopen the latch |
| `Traces.AtMostOnePending` | gr.c:377-392 | with no successful `tx_build` in between, receptions schedule at most one `tx_build`, and none while one is already pending |
| `Traces.DrainIsFifo` | gr.c:478-506 | `k` successful `tx_forward` calls send the first `k` buffered packets in buffer order, each re-stamped with this node's id and depth, and leave exactly the remaining entries |
| `Traces.AddAll` | gr.c:539-549 | repeated `add_seq` keeps the ring well-formed |
| `Traces.SlotSurvives` | gr.c:539-549 | a ring slot keeps its value until the cursor comes round to it |
| `Traces.RecentlyAddedIsSeen` | gr.c:539-566 | a sequence number just added is still reported as seen after any `SEQUENCE - 1` further insertions |
| `Traces.SlotWritten` | gr.c:539-549 | within one turn of the ring, the d-th insertion is the value of the slot at distance d from the cursor |
| `Traces.FullTurnForgets` | gr.c:539-566 | after SEQUENCE insertions the ring holds only those values, so an earlier sequence number not among them is reported unseen |
| `Scenarios.GradientOnALine` | gr.c:583-601 | with sink, A and B on a line, the first generation gives A depth 1 and B depth 2; the sink rejects A's echo; the next heartbeat moves A to generation 1 at the same depth |
| `Scenarios.RelayToSink` | gr.c:602-631 | a relay at depth 2 buffers DATA number 7 from depth 3 and forwards it with origin, seqno and stamp intact; the sink at depth 0 delivers it |
| `Scenarios.FullBufferDrops` | gr.c:605-613 | with BUFFER - 1 packets buffered, a new packet from a deeper node only raises the drop counter by 1 |

## Left out

- Configuration parsing in `init` and `setnode` (`das_traverse`, `get_param_time`, `get_param_integer`) is left out; the role read from the configuration is a constructor input, and a configured `type` other than SENSOR or SINK is not modelled.
- Timing is left out: the `Delay`, `Period`, `Jitter` and `TimeSpace` settings, `get_random_time_range`, and the delay of each scheduled callback. Only which callback is scheduled is recorded, so the bounds of the random delays are not stated.
- Link-layer plumbing (`packet_alloc`, `packet_dealloc`, `TX`, `GET_HEADER_SIZE`, the `overhead` array and its loop in `bootstrap`) is foreign code. A transmit is a returned header, and `SET_HEADER` is the input `ok`.
- The distance helpers `d` and `dpos` use floating-point `sqrt` and no routine calls them. Positions are copied as opaque values.
- Energy (`my_energy`, `IOCTL`), the empty `move`, `updateposition`, `ioctl` and `destroy`, the `printf` statistics, and the `free` calls in `unsetnode` are left out. The latency printed on delivery is not computed.
- The interaction between nodes is left out: each node is modelled alone. The BUILDs a sink can receive in a network are a hypothesis of `Traces.SinkStaysAtDepthZero`, not a theorem.
- Protocol.TxData: `no_packet_sent` and the shared `packet_seq` are unbounded integers, so C `int` overflow (undefined behaviour) is not modelled.
- Protocol.TxBuild: the sink's `seqno` is an unbounded integer, so its overflow is not modelled.
- Protocol.RxData: `no_packet_recv` and `no_packet_drop` are unbounded integers, and `p_depth + 1` in the comparisons cannot overflow.
- Protocol.RxBuild: `p_depth + 1` is computed without 32-bit overflow.
