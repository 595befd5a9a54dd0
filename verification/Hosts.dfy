/** The host half of one lock: what the handlers of lib/lock.cc compute on the fields of
    `innet_lock`. Class `InnetLock` runs the handlers in place and is proved against these
    functions. */
module Hosts {
  import opened Messages

  /** FREE, or locked in a mode. */
  datatype HostMode = Unlocked | Locked(mode: Mode)

  datatype Host = Host(
    mode: HostMode,
    isAgent: bool,
    ncnt: nat,
    holders: set<Id>,
    wqueue: seq<Wqe>,
    early: set<Id>,
    delayedFree: bool,
    fwdBack: map<Id, nat>)

  const IDLE := Host(Unlocked, false, 0, {}, [], {}, false, map[])

  /** A handler leaves a new host state, packets for the switch and tasks told of a grant. */
  datatype Reaction = Reaction(host: Host, send: seq<Msg>, notified: set<Id>)

  /** The old-mode bit of a header: FREE and LOCK_SHARED both encode to 0. */
  function OldModeBit(m: HostMode): Mode {
    if m == Locked(Exclusive) then Exclusive else Shared
  }

  function FwdBack(h: Host, id: Id): nat {
    if id in h.fwdBack then h.fwdBack[id] else 0
  }

  /** Change the current packet into a FREE, or a TRANSFER to the first waiter. */
  function GiveUp(h: Host, self: nat): Reaction {
    var empty := h.(mode := Unlocked, isAgent := false, ncnt := 0, wqueue := []);
    if h.wqueue == [] then
      Reaction(empty, [Free(OldModeBit(h.mode), self, h.ncnt % 256)], {})
    else
      Reaction(empty,
               [Transfer(h.wqueue[0], h.wqueue[1..], OldModeBit(h.mode), self, h.ncnt % 256)], {})
  }

  function GiveUpIfIdle(h: Host, self: nat): Reaction {
    if h.holders == {} then GiveUp(h, self) else Reaction(h, [], {})
  }

  /** An ungranted ACQUIRE that the switch delegated to this host. */
  function OnAcquire(h: Host, id: Id, op: Mode): Reaction {
    if id in h.early then
      Reaction(h.(early := h.early - {id}), [], {})
    else if h.isAgent then
      Reaction(h.(wqueue := h.wqueue + [Wqe(id, op)]), [], {})
    else if op == Shared then
      Reaction(h, [Acquire(id, op)], {})
    else if FwdBack(h, id) > 2 then
      Reaction(h.(wqueue := h.wqueue + [Wqe(id, op)], fwdBack := h.fwdBack - {id}), [], {})
    else
      Reaction(h.(fwdBack := h.fwdBack[id := FwdBack(h, id) + 1]), [Acquire(id, op)], {})
  }

  /** The notification that the switch granted a shared request. */
  function OnNotify(h: Host, id: Id): Reaction {
    var h := h.(ncnt := h.ncnt + 1);
    if id in h.early then Reaction(h.(early := h.early - {id}), [], {})
    else Reaction(h.(holders := h.holders + {id}), [], {})
  }

  function SharedIds(wq: seq<Wqe>): set<Id> {
    set w | w in wq && w.op == Shared :: w.id
  }

  function Grants(wq: seq<Wqe>): seq<Msg> {
    if wq == [] then []
    else (if wq[0].op == Shared then [GrantWithoutAgent(wq[0].id)] else []) + Grants(wq[1..])
  }

  /** `lock_digest_wq`: readers of a transferred queue are granted, writers queue up. */
  function Digest(h: Host, wq: seq<Wqe>): Host {
    h.(holders := h.holders + SharedIds(wq), wqueue := h.wqueue + Writers(wq))
  }

  function OnGrantWithAgent(h: Host, id: Id, mode: Mode, transferred: bool, wq: seq<Wqe>): Reaction {
    var h := h.(isAgent := true, mode := Locked(mode), holders := h.holders + {id});
    if !transferred then
      Reaction(h.(ncnt := if mode == Shared then h.ncnt + 1 else 0), [], {id})
    else if mode == Shared then
      Reaction(Digest(h, wq), Grants(wq), {id})
    else
      Reaction(h.(wqueue := h.wqueue + wq), [], {id})
  }

  /** Remove the first wait queue entry of `id`. */
  function Dequeue(wq: seq<Wqe>, id: Id): seq<Wqe> {
    if wq == [] then []
    else if wq[0].id == id then wq[1..]
    else [wq[0]] + Dequeue(wq[1..], id)
  }

  predicate Queued(wq: seq<Wqe>, id: Id) {
    exists i :: 0 <= i < |wq| && wq[i].id == id
  }

  /** A RELEASE packet. */
  function OnRelease(h: Host, self: nat, id: Id): Reaction {
    if id !in h.holders then
      if Queued(h.wqueue, id) then Reaction(h.(wqueue := Dequeue(h.wqueue, id)), [], {})
      else GiveUpIfIdle(h.(early := h.early + {id}), self)
    else if !h.isAgent then
      Reaction(h.(holders := h.holders - {id}, delayedFree := true), [], {})
    else
      GiveUpIfIdle(h.(holders := h.holders - {id}), self)
  }

  /** A TRANSFER or FREE that the switch refused. */
  function OnPushBack(h: Host, m: Msg): Reaction
    requires m.GivesUp()
  {
    if h.delayedFree && h.holders == {} then
      Reaction(h.(ncnt := 0, delayedFree := false), [m.(ncnt := (m.ncnt + h.ncnt) % 256)], {})
    else
      var h := h.(mode := Locked(m.oldMode), isAgent := true, ncnt := h.ncnt + m.ncnt);
      Reaction(if m.Transfer? then h.(wqueue := h.wqueue + [m.next] + m.wq) else h, [], {})
  }

  /** `lock_packet_process` for one in-range lock at host `self`. */
  function OnPacket(h: Host, self: nat, m: Msg): Reaction {
    match m
    case Acquire(id, op) => OnAcquire(h, id, op)
    case Notify(id) => OnNotify(h, id)
    case GrantWithAgent(id, mode, transferred, wq) => OnGrantWithAgent(h, id, mode, transferred, wq)
    case GrantWithoutAgent(id) => Reaction(h, [], {id})
    case Release(id) => OnRelease(h, self, id)
    case Transfer(_, _, _, _, _) => OnPushBack(h, m)
    case Free(_, _, _) => OnPushBack(h, m)
  }

  /** `lock_acquire_async`: `notified` holds `id` when the lock is granted on the spot. */
  function AcquireAsync(h: Host, id: Id, op: Mode): Reaction {
    if !h.isAgent then Reaction(h, [Acquire(id, op)], {})
    else if h.mode == Locked(Shared) && op == Shared then
      Reaction(h.(holders := h.holders + {id}), [], {id})
    else Reaction(h.(wqueue := h.wqueue + [Wqe(id, op)]), [], {})
  }

  /** `lock_release`. */
  function ReleaseLock(h: Host, self: nat, id: Id): Reaction {
    if !h.isAgent then Reaction(h, [Release(id)], {})
    else if id in h.holders then GiveUpIfIdle(h.(holders := h.holders - {id}), self)
    else GiveUpIfIdle(h.(early := h.early + {id}), self)
  }

  /** The debug assertions of the handlers: redundant agent, mode not free, releasing a
      free lock. */
  predicate AssertionsHold(h: Host, m: Msg) {
    match m
    case GrantWithAgent(_, _, _, _) => !h.isAgent
    case Release(id) => id in h.holders && h.isAgent ==> h.mode != Unlocked
    case Transfer(_, _, _, _, _) => !(h.delayedFree && h.holders == {}) ==> h.mode == Unlocked
    case Free(_, _, _) => !(h.delayedFree && h.holders == {}) ==> h.mode == Unlocked
    case _ => true
  }
}
