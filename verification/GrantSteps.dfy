/** Steps in which a host receives a grant on its client port. */
module GrantSteps {
  import opened Messages
  import opened Deciders
  import opened Hosts
  import opened Protocol
  import opened Inventory
  import opened Weights
  import opened Invariant
  import opened HostSteps

  /** Packet `i` of the client ports is `m`, and its host exists. */
  ghost predicate Comes(w: World, i: nat, m: Msg) {
    i < |w.client| && w.client[i] == m && ClientHost(m, w)
  }

  lemma ComingTotal(w: World, i: nat, m: Msg, it: Item)
    requires Comes(w, i, m)
    ensures Total(w, it) >= MsgWeight(m, it)
  {
    BagHas(w.client, m, it);
  }

  lemma AfterClientStructure(w: World, i: nat, m: Msg)
    requires Structured(w) && Comes(w, i, m)
    requires Fitting(OnPacket(w.hosts[m.id.host], m.id.host, m), m.id.host, w.decider)
    ensures Structured(AfterClient(w, i))
  {
    hide OnPacket;
    PopClientStructure(w, i);
    AbsorbStructure(PopClient(w, i).(reqs := Mark(w.reqs, HostGrants(m), Granted)), m.id.host,
                    OnPacket(w.hosts[m.id.host], m.id.host, m));
  }

  lemma GrantAtClientKeeps(w: World, i: nat, id: Id)
    requires Inv(w) && Comes(w, i, GrantWithoutAgent(id))
    ensures Inv(AfterClient(w, i))
  {
    hide Total, Worth;
    var w' := AfterClient(w, i);
    ComingTotal(w, i, GrantWithoutAgent(id), Grant(id));
    forall it ensures Total(w', it) + One(it == Grant(id)) == Total(w, it) {
      AfterClientTotal(w, i, it);
      NotifiedWorth(w.hosts[id.host], id, it);
    }
    assert w'.reqs == w.reqs;
    GrantedCounts(w, w', id);
    assert HostFits(w.hosts[id.host], id.host, w.decider);
    AfterClientStructure(w, i, GrantWithoutAgent(id));
    SameModes(w, w');
  }

  // ---- Grants with agent --------------------------------------------------------------

  /** A grant with agent finds its host without the agent role. */
  lemma PromotionFinds(w: World, i: nat, m: Msg)
    requires Structured(w) && Counted(w) && OneToken(w) && TicksCounted(w)
    requires Comes(w, i, m) && m.GrantWithAgent?
    ensures var h := w.hosts[m.id.host];
            && m.id.host == w.decider.agent && w.decider.acquired && m.mode == w.decider.rw
            && (m.transferred || m.wq == [])
            && !h.isAgent && m.id !in h.holders && (m.mode == Exclusive ==> h.ncnt == 0)
    ensures Total(w, GrantToken) == 1 && Total(w, HostToken) == Total(w, GiveUpToken) == 0
    ensures Total(w, Grant(m.id)) == Total(w, Seed(m.id)) == 1
    ensures w.InPhase(m.id, Granted) && Total(w, Hold(m.id)) == 0 && m.id !in w.held
  {
    var id := m.id;
    PopClientStructure(w, i);
    ComingTotal(w, i, m, GrantToken);
    ComingTotal(w, i, m, Grant(id));
    ComingTotal(w, i, m, Seed(id));
    HostsHas(w.hosts, id.host, HostToken);
    HostsHas(w.hosts, id.host, Hold(id));
    TickHas(w, id.host);
    hide Total;
    assert GrantCounted(w, id) && HolderCounted(w, id);
    TotalPaired(w, Seed(id), Grant(id));
  }

  /** Without readers in the packet's queue, only the new agent's items move. */
  ghost predicate Promotes(w: World, w': World, id: Id, it: Item) {
    Total(w', it) + One(it == Grant(id)) + One(it == Seed(id)) + One(it == GrantToken)
    == Total(w, it) + One(it == Hold(id)) + One(it == HostToken)
  }

  lemma PromotionTotal(w: World, i: nat, m: Msg, it: Item)
    requires Comes(w, i, m) && m.GrantWithAgent?
    requires var h := w.hosts[m.id.host];
             !h.isAgent && m.id !in h.holders && (m.mode == Exclusive ==> h.ncnt == 0)
    requires if m.transferred then m.mode == Exclusive else m.wq == []
    ensures Promotes(w, AfterClient(w, i), m.id, it)
  {
    hide Total, Worth, HostWeight, OnGrantWithAgent;
    AfterClientTotal(w, i, it);
    PromotedWeight(w.hosts[m.id.host], m.id, m.mode, it);
    if m.transferred {
      WriterTransferWorth(w.hosts[m.id.host], m.id, m.wq, it);
    } else {
      FirstGrantWorth(w.hosts[m.id.host], m.id, m.mode, it);
    }
  }

  lemma PromotionCounts(w: World, w': World, id: Id)
    requires Counted(w) && Total(w, Grant(id)) == 1
    requires w'.reqs == w.reqs && w'.held == w.held + {id}
    requires forall it :: Promotes(w, w', id, it)
    ensures Counted(w')
  {
    hide Total;
    forall e ensures WantCounted(w', e) {
      assert WantCounted(w, e) && Promotes(w, w', id, Want(e));
    }
    forall a ensures GrantCounted(w', a) {
      assert GrantCounted(w, a) && Promotes(w, w', id, Grant(a)) && Promotes(w, w', id, Rel(a));
    }
    forall a ensures HolderCounted(w', a) {
      assert HolderCounted(w, a) && Promotes(w, w', id, Hold(a)) && Promotes(w, w', id, Note(a));
      assert Promotes(w, w', id, Seed(a)) && Promotes(w, w', id, Early(a));
    }
  }

  lemma PromotionKeeps(w: World, i: nat, m: Msg)
    requires Inv(w) && Comes(w, i, m) && m.GrantWithAgent?
    requires !m.transferred || m.mode == Exclusive
    ensures Inv(AfterClient(w, i))
  {
    hide Total, Worth;
    var w' := AfterClient(w, i);
    PromotionFinds(w, i, m);
    forall it ensures Promotes(w, w', m.id, it) {
      PromotionTotal(w, i, m, it);
    }
    assert w'.reqs == w.reqs;
    PromotionCounts(w, w', m.id);
    assert HostFits(w.hosts[m.id.host], m.id.host, w.decider);
    AfterClientStructure(w, i, m);
    SameModes(w, w');
    assert Promotes(w, w', m.id, GrantToken) && Promotes(w, w', m.id, HostToken);
    assert Promotes(w, w', m.id, GiveUpToken) && Promotes(w, w', m.id, Tick);
  }

  // ---- A transfer in shared mode grants the readers of its queue ----------------------

  /** The readers of the queue turn from waiting into granted holders. */
  ghost predicate Digests(w: World, w': World, id: Id, wq: seq<Wqe>, it: Item) {
    match it
    case Want(e) => Total(w', it) + (if e.op == Shared then multiset(wq)[e] else 0) == Total(w, it)
    case Grant(a) => Total(w', it) + One(a == id) == Total(w, it) + ReaderCount(wq, a)
    case Hold(a) => Total(w', it) == Total(w, it) + One(a == id) + ReaderCount(wq, a)
    case _ => Promotes(w, w', id, it)
  }

  /** Readers in a packet's queue are waiting, so none of them is a holder yet. */
  lemma ReadersWait(w: World, i: nat, m: Msg, a: Id)
    requires Counted(w) && Comes(w, i, m) && m.GrantWithAgent? && ReaderCount(m.wq, a) > 0
    ensures a in w.reqs && w.reqs[a] == Request(Shared, Waiting) && ReaderCount(m.wq, a) == 1
    ensures a !in w.hosts[m.id.host].holders
  {
    hide Total;
    ComingTotal(w, i, m, Want(Wqe(a, Shared)));
    AcquireWaits(w, a, Shared, m.id.host);
    assert WantCounted(w, Wqe(a, Shared));
  }

  lemma DigestTotal(w: World, i: nat, m: Msg, it: Item)
    requires Comes(w, i, m) && m.GrantWithAgent? && m.transferred && m.mode == Shared
    requires !w.hosts[m.id.host].isAgent && m.id !in w.hosts[m.id.host].holders
    requires it.Hold? && ReaderCount(m.wq, it.id) > 0 ==>
               ReaderCount(m.wq, it.id) == 1 && it.id !in w.hosts[m.id.host].holders && it.id != m.id
    ensures Digests(w, AfterClient(w, i), m.id, m.wq, it)
  {
    hide Total, Worth, OnGrantWithAgent;
    AfterClientTotal(w, i, it);
    PromotedWeight(w.hosts[m.id.host], m.id, Shared, it);
    ReaderTransferWorth(w.hosts[m.id.host], m.id, m.wq, it);
  }

  lemma DigestWants(w: World, w': World, id: Id, wq: seq<Wqe>, e: Wqe)
    requires WantCounted(w, e) && Digests(w, w', id, wq, Want(e))
    requires w'.reqs == Mark(w.reqs, SharedIds(wq), Granted)
    requires ReaderCount(wq, e.id) > 0 ==>
               e.id in w.reqs && w.reqs[e.id] == Request(Shared, Waiting) && ReaderCount(wq, e.id) == 1
    ensures WantCounted(w', e)
  {
    hide Total;
    assert e.id in SharedIds(wq) <==> Wqe(e.id, Shared) in wq;
  }

  lemma DigestGrants(w: World, w': World, id: Id, wq: seq<Wqe>, a: Id)
    requires GrantCounted(w, a) && GrantCounted(w, id) && Total(w, Grant(id)) == 1
    requires Digests(w, w', id, wq, Grant(a)) && Digests(w, w', id, wq, Rel(a))
    requires w'.reqs == Mark(w.reqs, SharedIds(wq), Granted) && w'.held == w.held + {id}
    requires ReaderCount(wq, a) > 0 ==> w.InPhase(a, Waiting) && ReaderCount(wq, a) == 1
    ensures GrantCounted(w', a)
  {
    hide Total;
    assert a in SharedIds(wq) <==> Wqe(a, Shared) in wq;
  }

  lemma DigestHolders(w: World, w': World, id: Id, wq: seq<Wqe>, a: Id)
    requires HolderCounted(w, a) && Total(w, Seed(id)) == 1 && Total(w, Hold(id)) == 0
    requires Digests(w, w', id, wq, Hold(a)) && Digests(w, w', id, wq, Note(a))
    requires Digests(w, w', id, wq, Seed(a)) && Digests(w, w', id, wq, Early(a))
    requires w'.reqs == Mark(w.reqs, SharedIds(wq), Granted)
    requires ReaderCount(wq, a) > 0 ==> w.InPhase(a, Waiting) && ReaderCount(wq, a) == 1 && a != id
    ensures HolderCounted(w', a)
  {
    hide Total;
    assert a in SharedIds(wq) <==> Wqe(a, Shared) in wq;
  }

  lemma DigestCounts(w: World, i: nat, m: Msg)
    requires Structured(w) && Counted(w) && OneToken(w) && TicksCounted(w)
    requires Comes(w, i, m) && m.GrantWithAgent? && m.transferred && m.mode == Shared
    requires forall it :: Digests(w, AfterClient(w, i), m.id, m.wq, it)
    ensures Counted(AfterClient(w, i))
  {
    var w' := AfterClient(w, i);
    assert w'.reqs == Mark(w.reqs, SharedIds(m.wq), Granted) && w'.held == w.held + {m.id};
    hide Total, AfterClient;
    PromotionFinds(w, i, m);
    forall a | ReaderCount(m.wq, a) > 0
      ensures a in w.reqs && w.reqs[a] == Request(Shared, Waiting) && ReaderCount(m.wq, a) == 1 && a != m.id
    {
      ReadersWait(w, i, m, a);
    }
    forall e ensures WantCounted(w', e) {
      DigestWants(w, w', m.id, m.wq, e);
    }
    forall a ensures GrantCounted(w', a) {
      assert GrantCounted(w, m.id);
      DigestGrants(w, w', m.id, m.wq, a);
    }
    forall a ensures HolderCounted(w', a) {
      DigestHolders(w, w', m.id, m.wq, a);
    }
  }

  lemma DigestModes(w: World, i: nat, m: Msg)
    requires Modes(w) && Counted(w) && w.decider.acquired && w.decider.rw == Shared
    requires Comes(w, i, m) && m.GrantWithAgent? && m.transferred && m.mode == Shared
    ensures Modes(AfterClient(w, i))
  {
    var w' := AfterClient(w, i);
    forall a ensures ModeFits(w', a) {
      assert ModeFits(w, a);
      if a in SharedIds(m.wq) {
        assert Wqe(a, Shared) in m.wq;
        ReadersWait(w, i, m, a);
      }
    }
  }

  lemma {:induction false} GrantsOnly(wq: seq<Wqe>)
    ensures forall m :: m in Grants(wq) ==> m.GrantWithoutAgent?
  {
    if wq != [] {
      GrantsOnly(wq[1..]);
    }
  }

  lemma AllDigests(w: World, i: nat, m: Msg)
    requires Inv(w) && Comes(w, i, m) && m.GrantWithAgent? && m.transferred && m.mode == Shared
    ensures forall it :: Digests(w, AfterClient(w, i), m.id, m.wq, it)
  {
    hide Total, AfterClient, Digests;
    PromotionFinds(w, i, m);
    forall it ensures Digests(w, AfterClient(w, i), m.id, m.wq, it) {
      if it.Hold? && ReaderCount(m.wq, it.id) > 0 {
        ReadersWait(w, i, m, it.id);
      }
      DigestTotal(w, i, m, it);
    }
  }

  lemma DigestStructure(w: World, i: nat, m: Msg)
    requires Inv(w) && Comes(w, i, m) && m.GrantWithAgent? && m.transferred && m.mode == Shared
    ensures Structured(AfterClient(w, i))
  {
    hide Total, Counted, Modes;
    PromotionFinds(w, i, m);
    assert HostFits(w.hosts[m.id.host], m.id.host, w.decider);
    GrantsOnly(m.wq);
    AfterClientStructure(w, i, m);
  }

  lemma DigestTokens(w: World, i: nat, m: Msg)
    requires Inv(w) && Comes(w, i, m) && m.GrantWithAgent? && m.transferred && m.mode == Shared
    requires Structured(AfterClient(w, i))
    ensures var w' := AfterClient(w, i); OneToken(w') && TicksCounted(w') && GivingUp(w')
  {
    hide Total, Counted, Modes, Channels, Fifo;
    var w' := AfterClient(w, i);
    PromotionFinds(w, i, m);
    DigestTotal(w, i, m, GrantToken);
    DigestTotal(w, i, m, HostToken);
    DigestTotal(w, i, m, GiveUpToken);
    DigestTotal(w, i, m, Tick);
  }

  lemma DigestKeeps(w: World, i: nat, m: Msg)
    requires Inv(w) && Comes(w, i, m) && m.GrantWithAgent? && m.transferred && m.mode == Shared
    ensures Inv(AfterClient(w, i))
  {
    hide AfterClient, Counted, Structured, OneToken, TicksCounted, GivingUp, Modes, Digests;
    PromotionFinds(w, i, m);
    AllDigests(w, i, m);
    DigestStructure(w, i, m);
    DigestCounts(w, i, m);
    DigestTokens(w, i, m);
    DigestModes(w, i, m);
  }
}
