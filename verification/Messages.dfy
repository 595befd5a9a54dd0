/** The packets of the FissLock protocol, one constructor per packet kind a host or the
    switch can put on the wire (lib/post.h, switch/p4/headers.p4). The header bits behind
    each constructor are in module `Wire`. */
module Messages {

  /** LOCK_SHARED / LOCK_EXCL, as a request operator and as the mode of a held lock. */
  datatype Mode = Shared | Exclusive

  /** `LOCK_HOLDER(host, task)`: the identity of one acquisition. */
  datatype Id = Id(host: nat, task: nat)

  /** A wait queue entry. */
  datatype Wqe = Wqe(id: Id, op: Mode)

  /** The shared entries of a wait queue, in order. */
  function Readers(wq: seq<Wqe>): seq<Wqe> {
    if wq == [] then []
    else (if wq[0].op == Shared then [wq[0]] else []) + Readers(wq[1..])
  }

  /** The exclusive entries of a wait queue, in order. */
  function Writers(wq: seq<Wqe>): seq<Wqe> {
    if wq == [] then []
    else (if wq[0].op == Shared then [] else [wq[0]]) + Writers(wq[1..])
  }

  datatype Msg =
    | Acquire(id: Id, op: Mode)      // an ungranted request
    | Notify(id: Id)                 // ACQUIRE with the granted bit: the agent's multicast copy
    | GrantWithAgent(id: Id, mode: Mode, transferred: bool, wq: seq<Wqe>)
    | GrantWithoutAgent(id: Id)
    | Release(id: Id)
    | Transfer(next: Wqe, wq: seq<Wqe>, oldMode: Mode, from: nat, ncnt: nat)
    | Free(oldMode: Mode, from: nat, ncnt: nat)
  {
    /** The packets by which an agent gives the lock up. */
    predicate GivesUp() {
      Transfer? || Free?
    }
  }

  /** Where the switch sends a packet: the FIFO server port of a host, or the client port
      of the host that issued the request. */
  datatype Delivery =
    | ToServer(host: nat, msg: Msg)
    | ToClient(msg: Msg)
}
