/** Lock packets as they are on the wire, and how a host reads them
    (lib/post.h, switch/p4/headers.p4). */
module Wire {
  import opened Messages

  const ACQUIRE := 0x01
  const GRANT_W_AGENT := 0x02
  const GRANT_WO_AGENT := 0x03
  const RELEASE := 0x04
  const TRANSFER := 0x05
  const FREE := 0x06

  const UDP_PORT_SERVER := 20001
  const UDP_PORT_CLIENT := 20002

  /** `lock_hdr_t` with the UDP port before it and the wait queue behind it. */
  datatype Packet = Packet(
    kind: nat,
    multicasted: bool,
    granted: bool,
    transferred: bool,
    oldMode: Mode,
    mode: Mode,
    lockId: nat,
    machineId: nat,
    taskId: nat,
    agent: nat,
    ncnt: nat,
    wq: seq<Wqe>,
    dstPort: nat)
  {
    function Requester(): Id {
      Id(machineId, taskId)
    }
  }

  /** A packet that a replica of the multicast engine sends to a host. */
  datatype Copy = Copy(host: nat, packet: Packet)

  /** The message a host takes a packet for. */
  function Decode(p: Packet): Msg
    requires ACQUIRE <= p.kind <= FREE
  {
    var id := p.Requester();
    if p.kind == ACQUIRE then
      if p.granted && p.mode == Shared then Notify(id) else Acquire(id, p.mode)
    else if p.kind == GRANT_W_AGENT then GrantWithAgent(id, p.mode, p.transferred, p.wq)
    else if p.kind == GRANT_WO_AGENT then GrantWithoutAgent(id)
    else if p.kind == RELEASE then Release(id)
    else if p.kind == TRANSFER then Transfer(Wqe(id, p.mode), p.wq, p.oldMode, p.agent, p.ncnt)
    else Free(p.oldMode, p.agent, p.ncnt)
  }

  /** What a host builds for the switch: `send_post_lock_generic` fills the header, and a
      packet that is turned round keeps the server port. */
  predicate FromHost(p: Packet, lockId: nat, m: Msg) {
    && p.lockId == lockId && p.dstPort == UDP_PORT_SERVER && ACQUIRE <= p.kind <= FREE
    && Decode(p) == m
    && (m.Acquire? || m.Release? || m.GivesUp() || m.GrantWithoutAgent?)
    && (m.Acquire? ==> p.wq == [])
    && (m.Release? ==> p.agent == p.machineId && p.mode == Shared)
    && (m.Free? ==> p.mode == Shared)
  }

  // ---- The mode_old_mode byte ---------------------------------------------------------

  function ModeBit(m: Mode): bv8 {
    if m == Shared then 0 else 1
  }

  function Flag(b: bool): bv8 {
    if b then 1 else 0
  }

  /** The second header byte, as the P4 header lays its bits out. */
  function ModesByte(p: Packet, reserved: bv8): bv8 {
    (Flag(p.multicasted) << 7) | (Flag(p.granted) << 6) | (Flag(p.transferred) << 5)
    | ((reserved & 0x7) << 2) | (ModeBit(p.oldMode) << 1) | ModeBit(p.mode)
  }

  /** The macros MODE, OLD_MODE, GRANTED and TRANSFERRED of lib/post.h. */
  function ModeOf(b: bv8): Mode {
    if b & 0x1 == 0 then Shared else Exclusive
  }

  function OldModeOf(b: bv8): Mode {
    if (b >> 1) & 0x1 == 0 then Shared else Exclusive
  }

  predicate GrantedIn(b: bv8) {
    (b >> 6) & 0x1 == 1
  }

  predicate TransferredIn(b: bv8) {
    (b >> 5) & 0x1 == 1
  }

  /** Host macros read back what the P4 header holds. */
  lemma HostReadsModes(p: Packet, reserved: bv8)
    ensures var b := ModesByte(p, reserved);
            && ModeOf(b) == p.mode && OldModeOf(b) == p.oldMode
            && GrantedIn(b) == p.granted && TransferredIn(b) == p.transferred
  {
  }
}
