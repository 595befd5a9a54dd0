/** What each host handler does to the items of its host: `Worth` is what the host and the
    packets it sends are worth together. */
module Weights {
  import opened Messages
  import opened Hosts
  import opened Inventory

  function Worth(r: Reaction, it: Item): nat {
    HostWeight(r.host, it) + Bag(r.send, it)
  }

  lemma AcquireAsyncWorth(h: Host, id: Id, op: Mode, it: Item)
    requires id !in h.holders
    ensures var r := AcquireAsync(h, id, op);
            Worth(r, it) == HostWeight(h, it)
                            + One(it == if id in r.notified then Hold(id) else Want(Wqe(id, op)))
  {
    BagSingle(Acquire(id, op), it);
  }

  /** Giving up moves the agent role and the wait queue into one packet, and the count
      modulo 256. */
  function GaveUp(h: Host, it: Item): nat {
    match it
    case HostToken => 0
    case GiveUpToken => 1
    case Tick => h.ncnt % 256
    case _ => HostWeight(h, it)
  }

  lemma FreeWorth(h: Host, self: nat, it: Item)
    requires h.wqueue == []
    ensures Worth(GiveUp(h, self), it) == GaveUp(h, it)
  {
    BagSingle(GiveUp(h, self).send[0], it);
  }

  lemma TransferWorth(h: Host, self: nat, it: Item)
    requires h.wqueue != []
    ensures Worth(GiveUp(h, self), it) == GaveUp(h, it)
  {
    BagSingle(GiveUp(h, self).send[0], it);
    assert h.wqueue == [h.wqueue[0]] + h.wqueue[1..];
  }

  function IdleWorth(h: Host, it: Item): nat {
    if h.holders == {} then GaveUp(h, it) else HostWeight(h, it)
  }

  lemma GiveUpIfIdleWorth(h: Host, self: nat, it: Item)
    ensures Worth(GiveUpIfIdle(h, self), it) == IdleWorth(h, it)
  {
    if h.holders == {} {
      if h.wqueue == [] {
        FreeWorth(h, self, it);
      } else {
        TransferWorth(h, self, it);
      }
    }
  }

  /** Giving up or not, an agent's host and packet are worth one token; the count stays the
      same modulo 256, and all of it leaves with the token. */
  lemma IdleTokenWorth(h: Host)
    requires h.isAgent
    ensures IdleWorth(h, GrantToken) == 0
    ensures IdleWorth(h, HostToken) == One(h.holders != {}) && IdleWorth(h, GiveUpToken) == One(h.holders == {})
    ensures IdleWorth(h, Tick) == if h.holders == {} then h.ncnt % 256 else h.ncnt
  {
  }

  lemma HostTokenWorth(h: Host)
    requires h.isAgent
    ensures HostWeight(h, GrantToken) == HostWeight(h, GiveUpToken) == 0
    ensures HostWeight(h, HostToken) == 1 && HostWeight(h, Tick) == h.ncnt
  {
  }

  /** Items that giving up does not touch. */
  predicate Plain(it: Item) {
    !it.HostToken? && !it.GiveUpToken? && !it.Tick?
  }

  lemma ReleaseLockWorth(h: Host, self: nat, id: Id, it: Item)
    ensures Worth(ReleaseLock(h, self, id), it)
            == if !h.isAgent then HostWeight(h, it) + One(it == Rel(id))
               else if id in h.holders then IdleWorth(h.(holders := h.holders - {id}), it)
               else IdleWorth(h.(early := h.early + {id}), it)
  {
    if !h.isAgent {
      BagSingle(Release(id), it);
    } else if id in h.holders {
      GiveUpIfIdleWorth(h.(holders := h.holders - {id}), self, it);
    } else {
      GiveUpIfIdleWorth(h.(early := h.early + {id}), self, it);
    }
  }

  lemma OnAcquireWorth(h: Host, id: Id, op: Mode, it: Item)
    requires id !in h.early
    ensures Worth(OnAcquire(h, id, op), it) == HostWeight(h, it) + MsgWeight(Acquire(id, op), it)
  {
    BagSingle(Acquire(id, op), it);
  }

  lemma OnNotifyWorth(h: Host, id: Id, it: Item)
    requires id !in h.holders
    ensures var n := Worth(OnNotify(h, id), it);
            if id in h.early then n + One(it == Early(id)) == HostWeight(h, it) + One(it == Tick)
            else n == HostWeight(h, it) + One(it == Tick) + One(it == Hold(id))
  {
  }

  lemma RemoveHolderWeight(h: Host, id: Id, it: Item)
    requires id in h.holders
    ensures HostWeight(h.(holders := h.holders - {id}), it) + One(it == Hold(id)) == HostWeight(h, it)
  {
  }

  lemma OnReleaseWorth(h: Host, self: nat, id: Id, it: Item)
    requires id in h.holders
    ensures Worth(OnRelease(h, self, id), it)
            == if h.isAgent then IdleWorth(h.(holders := h.holders - {id}), it)
               else HostWeight(h.(holders := h.holders - {id}), it)
  {
    if h.isAgent {
      GiveUpIfIdleWorth(h.(holders := h.holders - {id}), self, it);
    }
  }

  /** A refused packet goes back with what was counted meanwhile, modulo 256. */
  lemma RetryWorth(h: Host, m: Msg, it: Item)
    requires m.GivesUp() && h.delayedFree && h.holders == {}
    ensures Worth(OnPushBack(h, m), it)
            == if it == Tick then (h.ncnt + m.ncnt) % 256 else HostWeight(h, it) + MsgWeight(m, it)
  {
    BagSingle(OnPushBack(h, m).send[0], it);
  }

  function Restored(h: Host, m: Msg, it: Item): nat {
    match it
    case HostToken => 1
    case GiveUpToken => 0
    case _ => HostWeight(h, it) + MsgWeight(m, it)
  }

  lemma RestoreWorth(h: Host, m: Msg, it: Item)
    requires m.GivesUp() && !(h.delayedFree && h.holders == {})
    ensures Worth(OnPushBack(h, m), it) == Restored(h, m, it)
  {
    if m.Transfer? {
      assert h.wqueue + [m.next] + m.wq == h.wqueue + ([m.next] + m.wq);
    }
  }

  /** The new agent before it looks at the packet's count and queue. */
  function Promoted(h: Host, id: Id, mode: Mode): Host {
    h.(isAgent := true, mode := Locked(mode), holders := h.holders + {id})
  }

  lemma PromotedWeight(h: Host, id: Id, mode: Mode, it: Item)
    requires !h.isAgent && id !in h.holders
    ensures HostWeight(Promoted(h, id, mode), it)
            == HostWeight(h, it) + One(it == Hold(id)) + One(it == HostToken)
  {
  }

  lemma FirstGrantWorth(h: Host, id: Id, mode: Mode, it: Item)
    requires mode == Exclusive ==> h.ncnt == 0
    ensures Worth(OnGrantWithAgent(h, id, mode, false, []), it)
            == HostWeight(Promoted(h, id, mode), it) + One(it == Tick && mode == Shared)
  {
  }

  lemma WriterTransferWorth(h: Host, id: Id, wq: seq<Wqe>, it: Item)
    ensures Worth(OnGrantWithAgent(h, id, Exclusive, true, wq), it)
            == HostWeight(Promoted(h, id, Exclusive), it) + if it.Want? then multiset(wq)[it.w] else 0
  {
  }

  // ---- Digesting a transferred queue --------------------------------------------------

  function ReaderCount(wq: seq<Wqe>, id: Id): nat {
    multiset(wq)[Wqe(id, Shared)]
  }

  lemma ReaderCountCons(e: Wqe, wq: seq<Wqe>, id: Id)
    ensures ReaderCount([e] + wq, id) == One(e == Wqe(id, Shared)) + ReaderCount(wq, id)
  {
  }

  lemma GrantsCons(e: Wqe, wq: seq<Wqe>, it: Item)
    ensures Bag(Grants([e] + wq), it)
            == One(e.op == Shared && it == Grant(e.id)) + Bag(Grants(wq), it)
  {
    assert ([e] + wq)[1..] == wq;
    if e.op == Shared {
      BagConcat([GrantWithoutAgent(e.id)], Grants(wq), it);
      BagSingle(GrantWithoutAgent(e.id), it);
    } else {
      assert [] + Grants(wq) == Grants(wq);
    }
  }

  lemma {:induction false} GrantsBag(wq: seq<Wqe>, it: Item)
    ensures Bag(Grants(wq), it) == if it.Grant? then ReaderCount(wq, it.id) else 0
  {
    if wq != [] {
      hide Bag, Grants, ReaderCount;
      assert wq == [wq[0]] + wq[1..];
      GrantsCons(wq[0], wq[1..], it);
      GrantsBag(wq[1..], it);
      if it.Grant? {
        ReaderCountCons(wq[0], wq[1..], it.id);
      }
    }
  }

  lemma {:induction false} WritersCount(wq: seq<Wqe>, e: Wqe)
    ensures multiset(Writers(wq))[e] == if e.op == Shared then 0 else multiset(wq)[e]
  {
    if wq != [] {
      WritersCount(wq[1..], e);
      assert wq == [wq[0]] + wq[1..];
    }
  }

  function Digested(h: Host, wq: seq<Wqe>, it: Item): nat {
    match it
    case Want(e) => multiset(h.wqueue)[e] + if e.op == Shared then 0 else multiset(wq)[e]
    case Hold(id) => One(id in h.holders || ReaderCount(wq, id) > 0)
    case Grant(id) => ReaderCount(wq, id)
    case _ => HostWeight(h, it)
  }

  lemma DigestWorth(h: Host, wq: seq<Wqe>, it: Item)
    ensures HostWeight(Digest(h, wq), it) + Bag(Grants(wq), it) == Digested(h, wq, it)
  {
    GrantsBag(wq, it);
    if it.Want? {
      WritersCount(wq, it.w);
    } else if it.Hold? {
      assert it.id in SharedIds(wq) <==> Wqe(it.id, Shared) in wq;
    }
  }

  lemma ReaderTransferWorth(h: Host, id: Id, wq: seq<Wqe>, it: Item)
    ensures Worth(OnGrantWithAgent(h, id, Shared, true, wq), it)
            == Digested(Promoted(h, id, Shared), wq, it)
  {
    DigestWorth(Promoted(h, id, Shared), wq, it);
  }
}
