/** The Tofino program: match-action tables over registers (switch/p4). The program on the
    registers of one lock is `Ingress`; class `Tofino` runs it on the sliced register files. */
module TofinoSwitch {
  import opened Messages
  import opened Deciders
  import opened Wire

  // ---- Tables -------------------------------------------------------------------------

  datatype CounterAction = NewNotification | GetNotificationCnt | ResetNotificationCnt | CounterNop
  datatype RwAction = LockShared | LockExcl | LockModeGet | RwNop
  datatype LockAction = NewAgent | McastToAgent | FwdToAgent | TransferAgent | ResetAgent | LockNop

  function CounterTable(kind: nat, mode: Mode, oldMode: Mode): CounterAction {
    if kind == ACQUIRE && mode == Shared then NewNotification
    else if kind == TRANSFER || kind == FREE then
      if oldMode == Shared then GetNotificationCnt else ResetNotificationCnt
    else CounterNop
  }

  /** `acquired` is what the free register held before this packet. */
  function RwTable(kind: nat, acquired: bool, mode: Mode): RwAction {
    if ((kind == TRANSFER || kind == FREE) && acquired) || (kind == ACQUIRE && !acquired) then
      if mode == Shared then LockShared else LockExcl
    else if kind == ACQUIRE then LockModeGet
    else RwNop
  }

  function LockOperation(kind: nat, mode: Mode, acquired: bool, rw: Mode): LockAction {
    if kind == ACQUIRE then
      if !acquired then NewAgent
      else if mode == Shared && rw == Shared then McastToAgent
      else FwdToAgent
    else if !acquired then LockNop
    else if kind == RELEASE && mode == Shared then FwdToAgent
    else if kind == TRANSFER then TransferAgent
    else if kind == FREE then ResetAgent
    else LockNop
  }

  // ---- One packet of one lock ---------------------------------------------------------

  /** Registers, header and second multicast target after ingress. */
  datatype Outcome = Outcome(regs: Decider, packet: Packet, dest2: nat)

  /** The counter stage: new count and `agent_changed`. */
  function CounterStage(count: nat, p: Packet): (r: (nat, bool)) {
    match CounterTable(p.kind, p.mode, p.oldMode)
    case NewNotification => ((count + 1) % 256, false)
    case GetNotificationCnt => if count == p.ncnt then (0, true) else (count, false)
    case ResetNotificationCnt => (0, false)
    case CounterNop => (count, false)
  }

  /** The rw register after its table, and the mode read out; `uninit` is what the metadata
      holds when no action writes it. */
  function RwStage(rw: Mode, p: Packet, acquired: bool, uninit: Mode): (r: (Mode, Mode)) {
    match RwTable(p.kind, acquired, p.mode)
    case LockShared => (Shared, rw)
    case LockExcl => (Exclusive, rw)
    case LockModeGet => (rw, rw)
    case RwNop => (rw, uninit)
  }

  /** The fission state table: agent register, header and second target. */
  function LockStage(agent: nat, p: Packet, action: LockAction): (r: (nat, Packet, nat)) {
    match action
    case NewAgent =>
      (p.machineId, p.(agent := p.machineId, kind := GRANT_W_AGENT, dstPort := UDP_PORT_CLIENT, transferred := false), 0)
    case McastToAgent => (agent, p.(agent := agent, kind := GRANT_WO_AGENT, multicasted := true), p.machineId)
    case FwdToAgent => (agent, p.(agent := agent, dstPort := UDP_PORT_SERVER), 0)
    case TransferAgent =>
      (p.machineId, p.(agent := p.machineId, kind := GRANT_W_AGENT, dstPort := UDP_PORT_CLIENT, transferred := true), 0)
    case ResetAgent => (0, p.(agent := 0), 0)
    case LockNop => (agent, p, 0)
  }

  predicate Stale(p: Packet, changed: bool) {
    (p.kind == TRANSFER || p.kind == FREE) && p.oldMode == Shared && !changed
  }

  function Ingress(d: Decider, p: Packet, uninit: Mode): Outcome {
    var p := p.(multicasted := false, granted := false);
    var (count, changed) := CounterStage(d.count, p);
    if Stale(p, changed) then Outcome(d.(count := count), p, 0)
    else if p.kind == GRANT_WO_AGENT then Outcome(d.(count := count), p.(agent := p.machineId), 0)
    else
      var (rw, rwRead) := RwStage(d.rw, p, d.acquired, uninit);
      var (agent, q, dest2) := LockStage(d.agent, p, LockOperation(p.kind, p.mode, d.acquired, rwRead));
      Outcome(Decider(p.kind != FREE, rw, agent, count), q, dest2)
  }

  /** The replicas' rewriting: 1 is the agent's copy, 2 the client's. */
  function Egress(p: Packet, rid: nat): Packet {
    if p.multicasted && rid == 2 then
      p.(kind := GRANT_WO_AGENT, dstPort := UDP_PORT_CLIENT, multicasted := false)
    else if p.multicasted && rid == 1 then
      p.(kind := ACQUIRE, dstPort := UDP_PORT_SERVER, multicasted := false, granted := true)
    else p
  }

  /** Multicast group 0 and group 128 are empty. */
  function Replicate(o: Outcome): seq<Copy> {
    (if o.packet.agent == 0 then [] else [Copy(o.packet.agent, Egress(o.packet, 1))])
    + (if o.dest2 == 0 then [] else [Copy(o.dest2, Egress(o.packet, 2))])
  }

  // ---- The program computes the decider -----------------------------------------------

  /** How hosts see a copy: by the port it arrives on and what it decodes to. */
  predicate Shows(c: Copy, d: Delivery) {
    && ACQUIRE <= c.packet.kind <= FREE && Decode(c.packet) == d.msg
    && match d
       case ToServer(h, m) => c.host == h && c.packet.dstPort == UDP_PORT_SERVER
       case ToClient(m) => c.packet.dstPort == UDP_PORT_CLIENT && (m.GrantWithAgent? || m.GrantWithoutAgent?)
                           && c.host == m.id.host && (m.GrantWithAgent? ==> c.packet.agent == c.host)
  }

  predicate ShowsAll(cs: seq<Copy>, ds: seq<Delivery>) {
    |cs| == |ds| && forall i :: 0 <= i < |cs| ==> Shows(cs[i], ds[i])
  }

  ghost predicate Decides(d: Decider, p: Packet, m: Msg, uninit: Mode) {
    var o := Ingress(d, p, uninit);
    o.regs == Decide(d, m).decider && ShowsAll(Replicate(o), Decide(d, m).out)
  }

  lemma AcquireDecides(d: Decider, p: Packet, lockId: nat, m: Msg, uninit: Mode)
    requires FromHost(p, lockId, m) && p.machineId != 0 && p.kind == ACQUIRE
    requires d.acquired <==> d.agent != 0
    ensures Decides(d, p, m, uninit)
  {
  }

  lemma ReleaseDecides(d: Decider, p: Packet, lockId: nat, m: Msg, uninit: Mode)
    requires FromHost(p, lockId, m) && p.machineId != 0 && p.agent != 0 && p.kind in {RELEASE, GRANT_WO_AGENT}
    requires d.acquired <==> d.agent != 0
    ensures Decides(d, p, m, uninit)
  {
  }

  lemma TransferDecides(d: Decider, p: Packet, lockId: nat, m: Msg, uninit: Mode)
    requires FromHost(p, lockId, m) && p.machineId != 0 && p.agent != 0 && p.kind == TRANSFER
    requires d.acquired <==> d.agent != 0
    ensures Decides(d, p, m, uninit)
  {
  }

  lemma FreeDecides(d: Decider, p: Packet, lockId: nat, m: Msg, uninit: Mode)
    requires FromHost(p, lockId, m) && p.machineId != 0 && p.agent != 0 && p.kind == FREE
    requires d.acquired <==> d.agent != 0
    ensures Decides(d, p, m, uninit)
  {
  }

  /** For a packet that a host sends, whatever the uninitialised metadata holds, the register
      program leaves exactly the decider's registers and sends exactly its deliveries. */
  lemma IngressDecides(d: Decider, p: Packet, lockId: nat, m: Msg, uninit: Mode)
    requires FromHost(p, lockId, m) && p.machineId != 0 && p.agent != 0
    requires d.acquired <==> d.agent != 0
    ensures var o := Ingress(d, p, uninit);
            o.regs == Decide(d, m).decider && ShowsAll(Replicate(o), Decide(d, m).out)
  {
    hide Ingress, Decide, ShowsAll, Replicate;
    if p.kind == ACQUIRE {
      AcquireDecides(d, p, lockId, m, uninit);
    } else if p.kind in {RELEASE, GRANT_WO_AGENT} {
      ReleaseDecides(d, p, lockId, m, uninit);
    } else if p.kind == TRANSFER {
      TransferDecides(d, p, lockId, m, uninit);
    } else {
      FreeDecides(d, p, lockId, m, uninit);
    }
  }

  /** No table outcome depends on metadata that no action wrote. */
  lemma UninitIrrelevant(d: Decider, p: Packet, u: Mode, v: Mode)
    ensures Ingress(d, p, u) == Ingress(d, p, v)
  {
  }

  /** A packet with what the metadata happens to hold when it arrives. */
  datatype Arrival = Arrival(packet: Packet, uninit: Mode)

  /** The registers of lock `id` after a packet sequence: only its own packets count. */
  function RunLock(d: Decider, ps: seq<Arrival>, id: nat): Decider {
    if ps == [] then d
    else
      var d := RunLock(d, ps[..|ps| - 1], id);
      var a := ps[|ps| - 1];
      if a.packet.lockId == id then Ingress(d, a.packet, a.uninit).regs else d
  }

  // ---- The register files -------------------------------------------------------------

  const SLICE_SIZE := 0x80000
  const SLICE_NUM := 8
  const SWITCH_LOCK_NUM := 524288 * 3

  /** Stage number of a lock id and its index within the stage. */
  function Stage(id: nat): nat {
    id / SLICE_SIZE
  }

  function Index(id: nat): (i: nat)
    ensures i < SLICE_SIZE
  {
    id % SLICE_SIZE
  }

  /** The host's out-of-range test is the switch's. */
  lemma SameRange(id: nat)
    ensures id >= SWITCH_LOCK_NUM <==> Stage(id) !in {0, 1, 2}
  {
  }

  /** Two ids of one stage do not share an index. */
  lemma NoSharing(a: nat, b: nat)
    requires Stage(a) == Stage(b) && Index(a) == Index(b)
    ensures a == b
  {
  }

  /** What leaves an out-of-range lock's packet: only a forwarded grant changes port. */
  function PassThrough(p: Packet): Packet {
    var p := p.(multicasted := false, granted := false);
    if p.kind == GRANT_WO_AGENT then p.(dstPort := UDP_PORT_CLIENT) else p
  }

  /** Where a host's packet for an out-of-range lock must arrive: a grant at the client port of
      its requester, anything else at the server port of the host named in its agent field. */
  function PassedOn(p: Packet, m: Msg): Delivery {
    if m.GrantWithoutAgent? then ToClient(m) else ToServer(p.agent, m)
  }

  /** The switch passes such a packet on: one copy, which decodes to the same message. A host
      that sends a grant names the requester's host as agent. */
  lemma OutOfRangeShows(p: Packet, lockId: nat, m: Msg)
    requires FromHost(p, lockId, m) && p.agent != 0 && (m.GrantWithoutAgent? ==> p.agent == p.machineId)
    ensures ShowsAll(Replicate(Outcome(INITIAL, PassThrough(p), 0)), [PassedOn(p, m)])
  {
  }

  class Tofino {
    const free: array<bool>
    const rw: array<Mode>
    const agents: seq<array<nat>>
    const counts: seq<array<nat>>

    ghost predicate Valid() {
      && free.Length == rw.Length == SLICE_SIZE * SLICE_NUM
      && |agents| == |counts| == 3
      && (forall k :: 0 <= k < 3 ==> agents[k].Length == SLICE_SIZE && counts[k].Length == SLICE_SIZE)
      && (forall k, l :: 0 <= k < l < 3 ==> agents[k] != agents[l] && counts[k] != counts[l])
      && (forall k, l :: 0 <= k < 3 && 0 <= l < 3 ==> agents[k] != counts[l])
    }

    /** The registers of one lock, as one record. */
    ghost function Regs(id: nat): Decider
      requires Valid() && id < SWITCH_LOCK_NUM
      reads free, rw, agents, counts
    {
      Decider(free[id], rw[id], agents[Stage(id)][Index(id)], counts[Stage(id)][Index(id)])
    }

    constructor ()
      ensures Valid()
      ensures forall id :: 0 <= id < SWITCH_LOCK_NUM ==> Regs(id) == INITIAL
    {
      free := new bool[SLICE_SIZE * SLICE_NUM](_ => false);
      rw := new Mode[SLICE_SIZE * SLICE_NUM](_ => Shared);
      var a1 := new nat[SLICE_SIZE](_ => 0);
      var a2 := new nat[SLICE_SIZE](_ => 0);
      var a3 := new nat[SLICE_SIZE](_ => 0);
      var c1 := new nat[SLICE_SIZE](_ => 0);
      var c2 := new nat[SLICE_SIZE](_ => 0);
      var c3 := new nat[SLICE_SIZE](_ => 0);
      agents := [a1, a2, a3];
      counts := [c1, c2, c3];
    }

    /** `CounterTable_k.apply` on the register file of one stage. */
    static method ApplyCounter(cnt: array<nat>, i: nat, p: Packet) returns (changed: bool)
      requires i < cnt.Length
      modifies cnt
      ensures (cnt[i], changed) == CounterStage(old(cnt[i]), p)
      ensures forall j :: 0 <= j < cnt.Length && j != i ==> cnt[j] == old(cnt[j])
    {
      changed := false;
      match CounterTable(p.kind, p.mode, p.oldMode) {
        case NewNotification => cnt[i] := (cnt[i] + 1) % 256;
        case GetNotificationCnt =>
          if cnt[i] == p.ncnt {
            cnt[i] := 0;
            changed := true;
          }
        case ResetNotificationCnt => cnt[i] := 0;
        case CounterNop =>
      }
    }

    /** `LockOperation_k.apply` on the register file of one stage. */
    static method ApplyLock(agent: array<nat>, i: nat, p: Packet, action: LockAction)
      returns (q: Packet, dest2: nat)
      requires i < agent.Length
      modifies agent
      ensures (agent[i], q, dest2) == LockStage(old(agent[i]), p, action)
      ensures forall j :: 0 <= j < agent.Length && j != i ==> agent[j] == old(agent[j])
    {
      q, dest2 := p, 0;
      match action {
        case NewAgent =>
          agent[i] := p.machineId;
          q := q.(agent := p.machineId, kind := GRANT_W_AGENT, dstPort := UDP_PORT_CLIENT, transferred := false);
        case McastToAgent =>
          dest2 := p.machineId;
          q := q.(multicasted := true, agent := agent[i], kind := GRANT_WO_AGENT);
        case FwdToAgent =>
          q := q.(agent := agent[i], dstPort := UDP_PORT_SERVER);
        case TransferAgent =>
          agent[i] := p.machineId;
          q := q.(agent := p.machineId, kind := GRANT_W_AGENT, dstPort := UDP_PORT_CLIENT, transferred := true);
        case ResetAgent =>
          agent[i] := 0;
          q := q.(agent := 0);
        case LockNop =>
      }
    }

    /** Free and rw register actions of a packet that is not skipped; returns what they read. */
    method ApplyModes(p: Packet, uninit: Mode) returns (wasAcquired: bool, read: Mode)
      requires Valid() && p.lockId < SWITCH_LOCK_NUM
      modifies free, rw
      ensures wasAcquired == old(free[p.lockId]) && free[p.lockId] == (p.kind != FREE)
      ensures (rw[p.lockId], read) == RwStage(old(rw[p.lockId]), p, wasAcquired, uninit)
      ensures forall j :: 0 <= j < free.Length && j != p.lockId ==> free[j] == old(free[j]) && rw[j] == old(rw[j])
    {
      wasAcquired, read := free[p.lockId], uninit;
      free[p.lockId] := p.kind != FREE;
      match RwTable(p.kind, wasAcquired, p.mode) {
        case LockShared =>
          read := rw[p.lockId];
          rw[p.lockId] := Shared;
        case LockExcl =>
          read := rw[p.lockId];
          rw[p.lockId] := Exclusive;
        case LockModeGet =>
          read := rw[p.lockId];
        case RwNop =>
      }
    }

    /** The ingress pipeline and the replication behind it. The sliced files act as one
        record per lock, and no packet touches another lock's. */
    method Process(packet: Packet, uninit: Mode) returns (out: seq<Copy>)
      requires Valid()
      modifies free, rw, agents, counts
      ensures packet.lockId < SWITCH_LOCK_NUM ==>
                var o := Ingress(old(Regs(packet.lockId)), packet, uninit);
                Regs(packet.lockId) == o.regs && out == Replicate(o)
      ensures packet.lockId >= SWITCH_LOCK_NUM ==>
                && free[..] == old(free[..]) && rw[..] == old(rw[..])
                && (forall k :: 0 <= k < 3 ==> agents[k][..] == old(agents[k][..]) && counts[k][..] == old(counts[k][..]))
                && out == Replicate(Outcome(INITIAL, PassThrough(packet), 0))
      ensures forall m :: (packet.lockId >= SWITCH_LOCK_NUM && FromHost(packet, packet.lockId, m) && packet.agent != 0
                           && (m.GrantWithoutAgent? ==> packet.agent == packet.machineId))
                ==> ShowsAll(out, [PassedOn(packet, m)])
      ensures forall id :: 0 <= id < SWITCH_LOCK_NUM && id != packet.lockId ==> Regs(id) == old(Regs(id))
    {
      var p := packet.(multicasted := false, granted := false);
      var dest2 := 0;
      var stage, i := Stage(p.lockId), Index(p.lockId);
      if stage < 3 {
        var changed := ApplyCounter(counts[stage], i, p);
        if Stale(p, changed) {
        } else if p.kind == GRANT_WO_AGENT {
          p := p.(agent := p.machineId);
        } else {
          var wasAcquired, read := ApplyModes(p, uninit);
          p, dest2 := ApplyLock(agents[stage], i, p, LockOperation(p.kind, p.mode, wasAcquired, read));
        }
      } else if p.kind == GRANT_WO_AGENT {
        p := p.(dstPort := UDP_PORT_CLIENT);
      }
      out := Replicate(Outcome(INITIAL, p, dest2));
      forall m | packet.lockId >= SWITCH_LOCK_NUM && FromHost(packet, packet.lockId, m) && packet.agent != 0
                 && (m.GrantWithoutAgent? ==> packet.agent == packet.machineId)
        ensures ShowsAll(out, [PassedOn(packet, m)])
      {
        OutOfRangeShows(packet, packet.lockId, m);
      }
    }

    /** Any packet sequence: the three stages behave as one flat map from ids to registers. */
    method ProcessAll(ps: seq<Arrival>)
      requires Valid()
      modifies free, rw, agents, counts
      ensures forall id :: 0 <= id < SWITCH_LOCK_NUM ==> Regs(id) == RunLock(old(Regs(id)), ps, id)
    {
      for n := 0 to |ps|
        invariant forall id :: 0 <= id < SWITCH_LOCK_NUM ==> Regs(id) == RunLock(old(Regs(id)), ps[..n], id)
      {
        var _ := Process(ps[n].packet, ps[n].uninit);
        assert ps[..n + 1][..n] == ps[..n];
      }
      assert ps[..|ps|] == ps;
    }
  }
}
