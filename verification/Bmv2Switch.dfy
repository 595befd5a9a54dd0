/** The BMv2 program (switch/p4_bmv2): one packed mode byte, 1024 locks, and a compare that is
    split over two tables because a BMv2 action may not write a register conditionally. */
module Bmv2Switch {
  import opened Messages
  import opened Deciders
  import opened Wire
  import opened TofinoSwitch

  const LOCKS := 1024

  datatype BmPacket = BmPacket(
    kind: nat,
    modes: bv8,
    lockId: nat,
    machineId: nat,
    taskId: nat,
    agent: nat,
    ncnt: nat,
    dstPort: nat)

  /** Registers, header and multicast metadata after ingress. */
  datatype BmOutcome = BmOutcome(regs: Decider, packet: BmPacket, multicasted: bool, dest2: nat)

  // ---- Tables -------------------------------------------------------------------------

  datatype BmCounterAction = CntNew | CntCmpEval | CntReset | CntNop
  datatype BmRwAction = RwSetShared | RwSetExcl | RwGetMode | RwOpNop
  datatype BmLockAction = OpNewAgent | OpMcastToAgent | OpFwdToAgent | OpTransferAgent | OpResetAgent | OpNop

  /** `counter_table`, entry by entry. */
  function BmCounterTable(kind: nat, mode: Mode, oldMode: Mode): BmCounterAction {
    var key := (kind, mode, oldMode);
    if key == (ACQUIRE, Shared, Shared) then CntNew
    else if key == (ACQUIRE, Shared, Exclusive) then CntNew
    else if key == (TRANSFER, Shared, Shared) then CntCmpEval
    else if key == (TRANSFER, Shared, Exclusive) then CntReset
    else if key == (TRANSFER, Exclusive, Shared) then CntCmpEval
    else if key == (TRANSFER, Exclusive, Exclusive) then CntReset
    else if key == (FREE, Shared, Shared) then CntCmpEval
    else if key == (FREE, Shared, Exclusive) then CntReset
    else if key == (FREE, Exclusive, Shared) then CntCmpEval
    else if key == (FREE, Exclusive, Exclusive) then CntReset
    else CntNop
  }

  /** `rw_table`, entry by entry. */
  function BmRwTable(kind: nat, acquired: bool, mode: Mode): BmRwAction {
    var key := (kind, acquired, mode);
    if key == (TRANSFER, true, Shared) then RwSetShared
    else if key == (TRANSFER, true, Exclusive) then RwSetExcl
    else if key == (FREE, true, Shared) then RwSetShared
    else if key == (FREE, true, Exclusive) then RwSetExcl
    else if key == (ACQUIRE, false, Shared) then RwSetShared
    else if key == (ACQUIRE, false, Exclusive) then RwSetExcl
    else if key == (ACQUIRE, true, Shared) then RwGetMode
    else if key == (ACQUIRE, true, Exclusive) then RwGetMode
    else RwOpNop
  }

  /** `lock_op_table`, entry by entry. */
  function BmLockOpTable(kind: nat, mode: Mode, acquired: bool, rw: Mode): BmLockAction {
    var key := (kind, mode, acquired, rw);
    if key == (ACQUIRE, Shared, false, Shared) then OpNewAgent
    else if key == (ACQUIRE, Shared, false, Exclusive) then OpNewAgent
    else if key == (ACQUIRE, Exclusive, false, Shared) then OpNewAgent
    else if key == (ACQUIRE, Exclusive, false, Exclusive) then OpNewAgent
    else if key == (ACQUIRE, Shared, true, Shared) then OpMcastToAgent
    else if key == (ACQUIRE, Shared, true, Exclusive) then OpFwdToAgent
    else if key == (ACQUIRE, Exclusive, true, Shared) then OpFwdToAgent
    else if key == (ACQUIRE, Exclusive, true, Exclusive) then OpFwdToAgent
    else if key == (RELEASE, Shared, true, Shared) then OpFwdToAgent
    else if key == (RELEASE, Shared, true, Exclusive) then OpFwdToAgent
    else if key == (TRANSFER, Shared, true, Shared) then OpTransferAgent
    else if key == (TRANSFER, Shared, true, Exclusive) then OpTransferAgent
    else if key == (TRANSFER, Exclusive, true, Shared) then OpTransferAgent
    else if key == (TRANSFER, Exclusive, true, Exclusive) then OpTransferAgent
    else if key == (FREE, Shared, true, Shared) then OpResetAgent
    else if key == (FREE, Shared, true, Exclusive) then OpResetAgent
    else if key == (FREE, Exclusive, true, Shared) then OpResetAgent
    else if key == (FREE, Exclusive, true, Exclusive) then OpResetAgent
    else OpNop
  }

  /** The Tofino actions of the same name. */
  function CounterOf(a: BmCounterAction): CounterAction {
    match a
    case CntNew => NewNotification
    case CntCmpEval => GetNotificationCnt
    case CntReset => ResetNotificationCnt
    case CntNop => CounterNop
  }

  function RwOf(a: BmRwAction): RwAction {
    match a
    case RwSetShared => LockShared
    case RwSetExcl => LockExcl
    case RwGetMode => LockModeGet
    case RwOpNop => RwNop
  }

  function LockOf(a: BmLockAction): LockAction {
    match a
    case OpNewAgent => NewAgent
    case OpMcastToAgent => McastToAgent
    case OpFwdToAgent => FwdToAgent
    case OpTransferAgent => TransferAgent
    case OpResetAgent => ResetAgent
    case OpNop => LockNop
  }

  /** The two programs' tables select the same actions for every key. */
  lemma TablesAgree(kind: nat, mode: Mode, oldMode: Mode, acquired: bool, rw: Mode)
    ensures CounterOf(BmCounterTable(kind, mode, oldMode)) == CounterTable(kind, mode, oldMode)
    ensures RwOf(BmRwTable(kind, acquired, mode)) == RwTable(kind, acquired, mode)
    ensures LockOf(BmLockOpTable(kind, mode, acquired, rw)) == LockOperation(kind, mode, acquired, rw)
  {
  }

  // ---- One packet of one lock ---------------------------------------------------------

  /** `counter_table` compares without clearing, `counter_clear_table` clears. */
  function EvalCounter(count: nat, b: BmPacket): (r: (nat, bool)) {
    match BmCounterTable(b.kind, ModeOf(b.modes), OldModeOf(b.modes))
    case CntNew => ((count + 1) % 256, false)
    case CntCmpEval => (count, count == b.ncnt)
    case CntReset => (0, false)
    case CntNop => (count, false)
  }

  function ClearCounter(count: nat, changed: bool): nat {
    if changed then 0 else count
  }

  function BmRwStage(rw: Mode, b: BmPacket, acquired: bool, uninit: Mode): (r: (Mode, Mode)) {
    match BmRwTable(b.kind, acquired, ModeOf(b.modes))
    case RwSetShared => (Shared, rw)
    case RwSetExcl => (Exclusive, rw)
    case RwGetMode => (rw, rw)
    case RwOpNop => (rw, uninit)
  }

  function ClearTransferred(modes: bv8): bv8 {
    modes & 0xDF
  }

  function SetTransferred(modes: bv8): bv8 {
    modes | 0x20
  }

  /** `lock_op_table`: agent register, header, multicast flag and second target. */
  function BmLockStage(agent: nat, b: BmPacket, action: BmLockAction): (r: (nat, BmPacket, bool, nat)) {
    match action
    case OpNewAgent =>
      (b.machineId, b.(agent := b.machineId, kind := GRANT_W_AGENT, dstPort := UDP_PORT_CLIENT, modes := ClearTransferred(b.modes)), false, 0)
    case OpMcastToAgent => (agent, b.(agent := agent, kind := GRANT_WO_AGENT), true, b.machineId)
    case OpFwdToAgent => (agent, b.(agent := agent, dstPort := UDP_PORT_SERVER), false, 0)
    case OpTransferAgent =>
      (b.machineId, b.(agent := b.machineId, kind := GRANT_W_AGENT, dstPort := UDP_PORT_CLIENT, modes := SetTransferred(b.modes)), false, 0)
    case OpResetAgent => (0, b.(agent := 0), false, 0)
    case OpNop => (agent, b, false, 0)
  }

  predicate BmStale(b: BmPacket, changed: bool) {
    (b.kind == TRANSFER || b.kind == FREE) && OldModeOf(b.modes) == Shared && !changed
  }

  function BmIngress(d: Decider, b: BmPacket, uninit: Mode): BmOutcome {
    var (evaluated, changed) := EvalCounter(d.count, b);
    var count := ClearCounter(evaluated, changed);
    if BmStale(b, changed) then BmOutcome(d.(count := count), b, false, 0)
    else if b.kind == GRANT_WO_AGENT then BmOutcome(d.(count := count), b.(agent := b.machineId), false, 0)
    else
      var (rw, read) := BmRwStage(d.rw, b, d.acquired, uninit);
      var (agent, c, multicasted, dest2) :=
        BmLockStage(d.agent, b, BmLockOpTable(b.kind, ModeOf(b.modes), d.acquired, read));
      BmOutcome(Decider(b.kind != FREE, rw, agent, count), c, multicasted, dest2)
  }

  // ---- Agreement with the Tofino program ----------------------------------------------

  /** The same header in the two programs. The granted and multicast bits are left out: the
      Tofino program clears them on entry, the BMv2 program does not. */
  predicate Alike(b: BmPacket, p: Packet) {
    && b.kind == p.kind && b.lockId == p.lockId && b.machineId == p.machineId && b.taskId == p.taskId
    && b.agent == p.agent && b.ncnt == p.ncnt && b.dstPort == p.dstPort
    && ModeOf(b.modes) == p.mode && OldModeOf(b.modes) == p.oldMode
    && TransferredIn(b.modes) == p.transferred
  }

  lemma TransferredBit(b: bv8)
    ensures !TransferredIn(ClearTransferred(b)) && TransferredIn(SetTransferred(b))
    ensures ModeOf(ClearTransferred(b)) == ModeOf(b) == ModeOf(SetTransferred(b))
    ensures OldModeOf(ClearTransferred(b)) == OldModeOf(b) == OldModeOf(SetTransferred(b))
    ensures GrantedIn(ClearTransferred(b)) == GrantedIn(b) == GrantedIn(SetTransferred(b))
  {
  }

  predicate StagesAgree(agent: nat, b: BmPacket, p: Packet, action: BmLockAction) {
    var (a1, q1, m1, t1) := BmLockStage(agent, b, action);
    var (a2, q2, t2) := LockStage(agent, p, LockOf(action));
    && a1 == a2 && Alike(q1, q2) && m1 == q2.multicasted && t1 == t2
    && GrantedIn(q1.modes) == GrantedIn(b.modes) && q2.granted == p.granted
  }

  lemma GrantStagesAgree(agent: nat, b: BmPacket, p: Packet, action: BmLockAction)
    requires Alike(b, p) && !p.multicasted && action in {OpNewAgent, OpTransferAgent}
    ensures StagesAgree(agent, b, p, action)
  {
    hide ModeOf, OldModeOf, TransferredIn, GrantedIn, ClearTransferred, SetTransferred;
    TransferredBit(b.modes);
  }

  lemma OtherStagesAgree(agent: nat, b: BmPacket, p: Packet, action: BmLockAction)
    requires Alike(b, p) && !p.multicasted && action !in {OpNewAgent, OpTransferAgent}
    ensures StagesAgree(agent, b, p, action)
  {
    hide ModeOf, OldModeOf, TransferredIn, GrantedIn, ClearTransferred, SetTransferred;
  }

  lemma LockStagesAgree(agent: nat, b: BmPacket, p: Packet, action: BmLockAction)
    requires Alike(b, p) && !p.multicasted
    ensures StagesAgree(agent, b, p, action)
  {
    hide StagesAgree, Alike;
    if action in {OpNewAgent, OpTransferAgent} {
      GrantStagesAgree(agent, b, p, action);
    } else {
      OtherStagesAgree(agent, b, p, action);
    }
  }

  /** The same outcome: registers, header rewriting and multicast. */
  predicate SameOutcome(x: BmOutcome, y: Outcome) {
    && x.regs == y.regs && Alike(x.packet, y.packet)
    && x.multicasted == y.packet.multicasted && x.dest2 == y.dest2
  }

  /** One packet has the same outcome in both programs. The granted bit agrees as well exactly
      if the packet came without it: BMv2 does not clear it. */
  lemma IngressAgrees(d: Decider, b: BmPacket, p: Packet, u: Mode, v: Mode)
    requires Alike(b, p)
    ensures SameOutcome(BmIngress(d, b, u), Ingress(d, p, v))
    ensures GrantedIn(BmIngress(d, b, u).packet.modes) == Ingress(d, p, v).packet.granted <==> !GrantedIn(b.modes)
  {
    hide BmCounterTable, BmRwTable, BmLockOpTable, CounterTable, RwTable, LockOperation, BmLockStage, LockStage;
    hide ModeOf, OldModeOf, TransferredIn, GrantedIn, ClearTransferred, SetTransferred;
    assert Ingress(d, p, u) == Ingress(d, p, v) by { UninitIrrelevant(d, p, u, v); }
    var p' := p.(multicasted := false, granted := false);
    TablesAgree(p.kind, p.mode, p.oldMode, d.acquired, d.rw);
    var (count, changed) := CounterStage(d.count, p');
    if !Stale(p', changed) && p.kind != GRANT_WO_AGENT {
      var (rw, read) := RwStage(d.rw, p', d.acquired, u);
      TablesAgree(p.kind, p.mode, p.oldMode, d.acquired, read);
      LockStagesAgree(d.agent, b, p', BmLockOpTable(b.kind, p.mode, d.acquired, read));
    }
  }

  datatype BmArrival = BmArrival(packet: BmPacket, uninit: Mode)

  function BmRunLock(d: Decider, bs: seq<BmArrival>, id: nat): Decider {
    if bs == [] then d
    else
      var d := BmRunLock(d, bs[..|bs| - 1], id);
      var a := bs[|bs| - 1];
      if a.packet.lockId == id then BmIngress(d, a.packet, a.uninit).regs else d
  }

  /** Any packet sequence leaves the same registers of every BMv2 lock in both programs, and
      each of its packets has the same outcome. */
  lemma {:induction false} RunsAgree(d: Decider, bs: seq<BmArrival>, ps: seq<Arrival>, id: nat)
    requires id < LOCKS
    requires |bs| == |ps| && forall i :: 0 <= i < |bs| ==> Alike(bs[i].packet, ps[i].packet)
    ensures BmRunLock(d, bs, id) == RunLock(d, ps, id)
    ensures forall i :: 0 <= i < |bs| && bs[i].packet.lockId == id ==> SameAt(d, bs, ps, id, i)
    decreases |bs|
  {
    hide BmIngress, Ingress;
    if bs != [] {
      var n := |bs| - 1;
      RunsAgree(d, bs[..n], ps[..n], id);
      IngressAgrees(RunLock(d, ps[..n], id), bs[n].packet, ps[n].packet, bs[n].uninit, ps[n].uninit);
      forall i | 0 <= i < n && bs[i].packet.lockId == id ensures SameAt(d, bs, ps, id, i) {
        assert bs[..n][..i] == bs[..i] && ps[..n][..i] == ps[..i];
        assert bs[..n][i] == bs[i];
        assert SameAt(d, bs[..n], ps[..n], id, i);
      }
    }
  }

  /** Packet `i` of the sequence, which is for lock `id`, has the same outcome in both programs. */
  ghost predicate SameAt(d: Decider, bs: seq<BmArrival>, ps: seq<Arrival>, id: nat, i: nat)
    requires i < |bs| == |ps|
  {
    SameOutcome(BmIngress(BmRunLock(d, bs[..i], id), bs[i].packet, bs[i].uninit),
                Ingress(RunLock(d, ps[..i], id), ps[i].packet, ps[i].uninit))
  }

  // ---- The register files -------------------------------------------------------------

  class Bmv2 {
    const freeReg: array<bool>
    const rwReg: array<Mode>
    const agentReg: array<nat>
    const countReg: array<nat>

    ghost predicate Valid() {
      && freeReg.Length == rwReg.Length == agentReg.Length == countReg.Length == LOCKS
      && agentReg != countReg
    }

    ghost function Regs(id: nat): Decider
      requires Valid() && id < LOCKS
      reads freeReg, rwReg, agentReg, countReg
    {
      Decider(freeReg[id], rwReg[id], agentReg[id], countReg[id])
    }

    constructor ()
      ensures Valid()
      ensures forall id :: 0 <= id < LOCKS ==> Regs(id) == INITIAL
    {
      freeReg := new bool[LOCKS](_ => false);
      rwReg := new Mode[LOCKS](_ => Shared);
      agentReg := new nat[LOCKS](_ => 0);
      countReg := new nat[LOCKS](_ => 0);
    }

    /** `counter_table` and then `counter_clear_table`. */
    method ApplyCounters(b: BmPacket) returns (changed: bool)
      requires Valid() && b.lockId < LOCKS
      modifies countReg
      ensures var r := EvalCounter(old(countReg[b.lockId]), b);
              changed == r.1 && countReg[b.lockId] == ClearCounter(r.0, r.1)
      ensures forall j :: 0 <= j < LOCKS && j != b.lockId ==> countReg[j] == old(countReg[j])
    {
      var idx := b.lockId % LOCKS;
      changed := false;
      match BmCounterTable(b.kind, ModeOf(b.modes), OldModeOf(b.modes)) {
        case CntNew =>
          var val := countReg[idx];
          countReg[idx] := (val + 1) % 256;
        case CntCmpEval =>
          var val := countReg[idx];
          changed := val == b.ncnt;
        case CntReset => countReg[idx] := 0;
        case CntNop =>
      }
      if changed {
        countReg[idx] := 0;
      }
    }

    /** `do_acquire` or `do_release`, and `rw_table`. */
    method ApplyModes(b: BmPacket, uninit: Mode) returns (wasAcquired: bool, read: Mode)
      requires Valid() && b.lockId < LOCKS
      modifies freeReg, rwReg
      ensures wasAcquired == old(freeReg[b.lockId]) && freeReg[b.lockId] == (b.kind != FREE)
      ensures (rwReg[b.lockId], read) == BmRwStage(old(rwReg[b.lockId]), b, wasAcquired, uninit)
      ensures forall j :: 0 <= j < LOCKS && j != b.lockId ==> freeReg[j] == old(freeReg[j]) && rwReg[j] == old(rwReg[j])
    {
      var idx := b.lockId % LOCKS;
      wasAcquired, read := freeReg[idx], uninit;
      freeReg[idx] := b.kind != FREE;
      match BmRwTable(b.kind, wasAcquired, ModeOf(b.modes)) {
        case RwSetShared =>
          read := rwReg[idx];
          rwReg[idx] := Shared;
        case RwSetExcl =>
          read := rwReg[idx];
          rwReg[idx] := Exclusive;
        case RwGetMode => read := rwReg[idx];
        case RwOpNop =>
      }
    }

    /** `lock_op_table`. */
    method ApplyLock(b: BmPacket, action: BmLockAction) returns (c: BmPacket, multicasted: bool, dest2: nat)
      requires Valid() && b.lockId < LOCKS
      modifies agentReg
      ensures (agentReg[b.lockId], c, multicasted, dest2) == BmLockStage(old(agentReg[b.lockId]), b, action)
      ensures forall j :: 0 <= j < LOCKS && j != b.lockId ==> agentReg[j] == old(agentReg[j])
    {
      var idx := b.lockId % LOCKS;
      c, multicasted, dest2 := b, false, 0;
      match action {
        case OpNewAgent =>
          agentReg[idx] := b.machineId;
          c := c.(agent := b.machineId, kind := GRANT_W_AGENT, dstPort := UDP_PORT_CLIENT, modes := ClearTransferred(b.modes));
        case OpMcastToAgent =>
          dest2, multicasted := b.machineId, true;
          c := c.(agent := agentReg[idx], kind := GRANT_WO_AGENT);
        case OpFwdToAgent =>
          c := c.(agent := agentReg[idx], dstPort := UDP_PORT_SERVER);
        case OpTransferAgent =>
          agentReg[idx] := b.machineId;
          c := c.(agent := b.machineId, kind := GRANT_W_AGENT, dstPort := UDP_PORT_CLIENT, modes := SetTransferred(b.modes));
        case OpResetAgent =>
          agentReg[idx] := 0;
          c := c.(agent := 0);
        case OpNop =>
      }
    }

    /** The ingress control, in program order. */
    method Process(packet: BmPacket, uninit: Mode) returns (b: BmPacket, multicasted: bool, dest2: nat)
      requires Valid()
      modifies freeReg, rwReg, agentReg, countReg
      ensures packet.lockId < LOCKS ==>
                BmOutcome(Regs(packet.lockId), b, multicasted, dest2)
                == BmIngress(old(Regs(packet.lockId)), packet, uninit)
      ensures packet.lockId >= LOCKS ==> b == packet && !multicasted && dest2 == 0
      ensures forall id :: 0 <= id < LOCKS && id != packet.lockId ==> Regs(id) == old(Regs(id))
    {
      b, multicasted, dest2 := packet, false, 0;
      if packet.lockId / LOCKS == 0 {
        var changed := ApplyCounters(b);
        if BmStale(b, changed) {
        } else if b.kind == GRANT_WO_AGENT {
          b := b.(agent := b.machineId);
        } else {
          var wasAcquired, read := ApplyModes(b, uninit);
          b, multicasted, dest2 := ApplyLock(b, BmLockOpTable(b.kind, ModeOf(b.modes), wasAcquired, read));
        }
      }
    }

    method ProcessAll(bs: seq<BmArrival>)
      requires Valid()
      modifies freeReg, rwReg, agentReg, countReg
      ensures forall id :: 0 <= id < LOCKS ==> Regs(id) == BmRunLock(old(Regs(id)), bs, id)
    {
      for n := 0 to |bs|
        invariant forall id :: 0 <= id < LOCKS ==> Regs(id) == BmRunLock(old(Regs(id)), bs[..n], id)
      {
        var _, _, _ := Process(bs[n].packet, bs[n].uninit);
        assert bs[..n + 1][..n] == bs[..n];
      }
      assert bs[..|bs|] == bs;
    }
  }
}
