/** The lock decider: what the switch program does with one packet of one lock, at the
    level of messages. Modules `TofinoSwitch` and `Bmv2Switch` show that the register
    programs compute exactly this. */
module Deciders {
  import opened Messages

  /** The four registers of one lock. `agent` 0 names no host. */
  datatype Decider = Decider(acquired: bool, rw: Mode, agent: nat, count: nat)

  const INITIAL := Decider(false, Shared, 0, 0)

  datatype Decision = Decision(decider: Decider, out: seq<Delivery>)

  function CountUp(n: nat): nat {
    (n + 1) % 256
  }

  /** ACQUIRE: a shared request bumps the 8-bit notification count whatever happens to it. */
  function DecideAcquire(d: Decider, id: Id, op: Mode): Decision {
    var d := if op == Shared then d.(count := CountUp(d.count)) else d;
    if !d.acquired then
      Decision(d.(acquired := true, rw := op, agent := id.host),
               [ToClient(GrantWithAgent(id, op, false, []))])
    else if op == Shared && d.rw == Shared then
      Decision(d, [ToServer(d.agent, Notify(id)), ToClient(GrantWithoutAgent(id))])
    else
      Decision(d, [ToServer(d.agent, Acquire(id, op))])
  }

  /** RELEASE runs the acquire register action, then goes to the agent; when the lock was
      free it bounces to its sender. */
  function DecideRelease(d: Decider, id: Id): Decision {
    Decision(d.(acquired := true),
             [ToServer(if d.acquired then d.agent else id.host, Release(id))])
  }

  /** TRANSFER and FREE: a lock given up in shared mode must carry the switch's count. */
  predicate Refused(d: Decider, m: Msg)
    requires m.GivesUp()
  {
    m.oldMode == Shared && m.ncnt != d.count
  }

  function DecideGiveUp(d: Decider, m: Msg): Decision
    requires m.GivesUp()
  {
    if Refused(d, m) then
      Decision(d, [ToServer(m.from, m)])
    else match m
      case Free(_, _, _) =>
        if d.acquired then Decision(Decider(false, Shared, 0, 0), [])
        else Decision(d.(count := 0), [ToServer(m.from, m)])
      case Transfer(next, wq, _, _, _) =>
        if d.acquired then
          Decision(Decider(true, next.op, next.id.host, 0),
                   [ToClient(GrantWithAgent(next.id, next.op, true, wq))])
        else Decision(d.(acquired := true, count := 0), [ToServer(m.from, m)])
  }

  function Decide(d: Decider, m: Msg): Decision {
    match m
    case Acquire(id, op) => DecideAcquire(d, id, op)
    case Release(id) => DecideRelease(d, id)
    case Transfer(_, _, _, _, _) => DecideGiveUp(d, m)
    case Free(_, _, _) => DecideGiveUp(d, m)
    case GrantWithoutAgent(id) => Decision(d, [ToServer(id.host, m)])
    case _ => Decision(d, [])   // never sent to the switch
  }
}
