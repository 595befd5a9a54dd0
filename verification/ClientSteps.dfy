/** Steps that a task starts: `lock_acquire_async` and `lock_release`. */
module ClientSteps {
  import opened Messages
  import opened Deciders
  import opened Hosts
  import opened Protocol
  import opened Inventory
  import opened Weights
  import opened Invariant

  // ---- lock_acquire_async -------------------------------------------------------------

  /** The item a request adds: a holder when granted on the spot, else a waiting entry. */
  function NewItem(id: Id, op: Mode, granted: bool): Item {
    if granted then Hold(id) else Want(Wqe(id, op))
  }

  lemma RequestCounts(w: World, w': World, id: Id, op: Mode, granted: bool)
    requires Counted(w) && id !in w.reqs
    requires w'.reqs == w.reqs[id := Request(op, if granted then Granted else Waiting)]
    requires w'.held == if granted then w.held + {id} else w.held
    requires forall it :: Total(w', it) == Total(w, it) + One(it == NewItem(id, op, granted))
    ensures Counted(w')
  {
    hide Total;
    forall e ensures WantCounted(w', e) {
      assert WantCounted(w, e);
    }
    forall a ensures GrantCounted(w', a) {
      assert GrantCounted(w, a);
    }
    forall a ensures HolderCounted(w', a) {
      assert HolderCounted(w, a);
    }
  }

  lemma RequestStructure(w: World, id: Id, op: Mode)
    requires Structured(w) && w.IsHost(id.host)
    ensures Structured(AfterRequest(w, id, op))
  {
    var r := AcquireAsync(w.hosts[id.host], id, op);
    assert HostFits(w.hosts[id.host], id.host, w.decider);
    AbsorbStructure(w.(reqs := w.reqs[id := Request(op, if id in r.notified then Granted else Waiting)]),
                    id.host, r);
  }

  lemma RequestModes(w: World, id: Id, op: Mode)
    requires Structured(w) && Modes(w) && w.IsHost(id.host) && id !in w.reqs
    ensures Modes(AfterRequest(w, id, op))
  {
    var w' := AfterRequest(w, id, op);
    assert HostFits(w.hosts[id.host], id.host, w.decider);
    forall a ensures ModeFits(w', a) {
      assert ModeFits(w, a);
    }
    forall a, b ensures w.decider.rw == Exclusive ==> Alone(w', a, b) {
      assert w.decider.rw == Exclusive ==> Alone(w, a, b);
    }
  }

  lemma RequestKeeps(w: World, id: Id, op: Mode)
    requires Inv(w) && w.IsHost(id.host) && id !in w.reqs
    ensures Inv(AfterRequest(w, id, op))
  {
    hide Total, Worth, AcquireAsync;
    var w' := AfterRequest(w, id, op);
    var h := w.hosts[id.host];
    var r := AcquireAsync(h, id, op);
    assert HolderCounted(w, id);
    if id in h.holders {
      HolderKnown(w, id.host, id);
    }
    forall it ensures Total(w', it) == Total(w, it) + One(it == NewItem(id, op, id in r.notified)) {
      AfterRequestTotal(w, id, op, it);
      AcquireAsyncWorth(h, id, op, it);
    }
    RequestFacts(h, id, op);
    RequestCounts(w, w', id, op, id in r.notified);
    RequestStructure(w, id, op);
    RequestModes(w, id, op);
    if h.isAgent {
      AgentHasToken(w, id.host);
    }
  }

  lemma RequestFacts(h: Host, id: Id, op: Mode)
    ensures var r := AcquireAsync(h, id, op);
            && r.notified <= {id}
            && (!h.isAgent ==> r.host == h)
  {
  }

  // ---- lock_release -------------------------------------------------------------------

  lemma RemoteUnlockKeeps(w: World, id: Id)
    requires Inv(w) && w.IsHost(id.host) && id in w.held && !w.hosts[id.host].isAgent
    ensures Inv(AfterUnlock(w, id))
  {
    hide Total, Worth;
    var w' := AfterUnlock(w, id);
    assert GrantCounted(w, id);
    assert w'.reqs == w.reqs;
    forall it ensures Total(w', it) == Total(w, it) + One(it == Rel(id)) {
      AfterUnlockTotal(w, id, it);
      ReleaseLockWorth(w.hosts[id.host], id.host, id, it);
    }
    RemoteUnlockCounts(w, w', id);
    assert HostFits(w.hosts[id.host], id.host, w.decider);
    AbsorbStructure(w.(held := w.held - {id}), id.host, ReleaseLock(w.hosts[id.host], id.host, id));
    SameModes(w, w');
  }

  lemma RemoteUnlockCounts(w: World, w': World, id: Id)
    requires Counted(w) && id in w.held
    requires w'.reqs == w.reqs && w'.held == w.held - {id}
    requires forall it :: Total(w', it) == Total(w, it) + One(it == Rel(id))
    ensures Counted(w')
  {
    hide Total;
    forall e ensures WantCounted(w', e) {
      assert WantCounted(w, e);
    }
    forall a ensures GrantCounted(w', a) {
      assert GrantCounted(w, a);
    }
    forall a ensures HolderCounted(w', a) {
      assert HolderCounted(w, a);
    }
  }

  /** The agent's copy of the host after it has taken note of the release, before it gives up. */
  function Noted(h: Host, id: Id): Host {
    if id in h.holders then h.(holders := h.holders - {id}) else h.(early := h.early + {id})
  }

  function NotedPhase(h: Host, id: Id): Phase {
    if id in h.holders then Done else EarlyReleased
  }

  lemma LocalUnlockTotal(w: World, id: Id, it: Item)
    requires w.IsHost(id.host) && w.hosts[id.host].isAgent && id !in w.hosts[id.host].early
    ensures var h := w.hosts[id.host];
            var w' := AfterUnlock(w, id);
            && Total(w', it) + HostWeight(h, it) == Total(w, it) + IdleWorth(Noted(h, id), it)
            && (Plain(it) ==> if id in h.holders then Total(w', it) + One(it == Hold(id)) == Total(w, it)
                              else Total(w', it) == Total(w, it) + One(it == Early(id)))
  {
    hide Total, Worth, AfterUnlock, ReleaseLock;
    var h := w.hosts[id.host];
    AfterUnlockTotal(w, id, it);
    ReleaseLockWorth(h, id.host, id, it);
    if id in h.holders {
      RemoveHolderWeight(h, id, it);
    }
  }

  lemma EarlyCounts(w: World, w': World, id: Id)
    requires Counted(w) && id in w.held && w.InPhase(id, Granted) && Total(w, Hold(id)) == 0
    requires w'.reqs == Mark(w.reqs, {id}, EarlyReleased) && w'.held == w.held - {id}
    requires forall it :: Plain(it) ==> Total(w', it) == Total(w, it) + One(it == Early(id))
    ensures Counted(w')
  {
    hide Total;
    assert GrantCounted(w, id);
    TotalPaired(w, Seed(id), Grant(id));
    forall e ensures WantCounted(w', e) {
      assert WantCounted(w, e) && Plain(Want(e));
    }
    forall a ensures GrantCounted(w', a) {
      assert GrantCounted(w, a) && Plain(Grant(a)) && Plain(Rel(a));
    }
    forall a ensures HolderCounted(w', a) {
      assert HolderCounted(w, a) && Plain(Hold(a)) && Plain(Note(a)) && Plain(Seed(a)) && Plain(Early(a));
    }
  }

  lemma LocalUnlockCounts(w: World, id: Id)
    requires Structured(w) && Counted(w) && w.decider.acquired && w.decider.agent == id.host
    requires w.IsHost(id.host) && id in w.held && w.hosts[id.host].isAgent
    ensures Counted(AfterUnlock(w, id))
    ensures id !in w.hosts[id.host].early
  {
    hide Total, Worth, IdleWorth;
    var w' := AfterUnlock(w, id);
    assert GrantCounted(w, id) && HolderCounted(w, id);
    AtAgent(w, id);
    forall it ensures Plain(it) ==>
        if id in w.hosts[id.host].holders then Total(w', it) + One(it == Hold(id)) == Total(w, it)
        else Total(w', it) == Total(w, it) + One(it == Early(id))
    {
      LocalUnlockTotal(w, id, it);
    }
    UnlockFacts(w, id);
    if id in w.hosts[id.host].holders {
      assert Plain(Rel(id));
      DropHolderCounts(w, w', id);
    } else {
      EarlyCounts(w, w', id);
    }
  }

  lemma UnlockFacts(w: World, id: Id)
    requires w.IsHost(id.host) && w.hosts[id.host].isAgent
    ensures var w' := AfterUnlock(w, id);
            && w'.held == w.held - {id} && w'.decider == w.decider
            && w'.reqs == Mark(w.reqs, {id}, NotedPhase(w.hosts[id.host], id))
            && |w'.hosts| == |w.hosts|
            && w'.hosts[id.host] == GiveUpIfIdle(Noted(w.hosts[id.host], id), id.host).host
  {
  }

  lemma LocalUnlockStructure(w: World, id: Id)
    requires Structured(w) && w.decider.acquired && w.decider.agent == id.host
    requires w.IsHost(id.host) && w.hosts[id.host].isAgent
    ensures Structured(AfterUnlock(w, id))
  {
    var h := w.hosts[id.host];
    assert HostFits(h, id.host, w.decider);
    AbsorbStructure(w.(held := w.held - {id}, reqs := Mark(w.reqs, {id}, NotedPhase(h, id))),
                    id.host, ReleaseLock(h, id.host, id));
  }

  lemma LocalUnlockKeeps(w: World, id: Id)
    requires Inv(w) && w.IsHost(id.host) && id in w.held && w.hosts[id.host].isAgent
    ensures Inv(AfterUnlock(w, id))
  {
    hide Total, Worth, AfterUnlock, IdleWorth;
    var h := w.hosts[id.host];
    var w' := AfterUnlock(w, id);
    AgentHasToken(w, id.host);
    LocalUnlockCounts(w, id);
    LocalUnlockStructure(w, id);
    UnlockFacts(w, id);
    assert GrantCounted(w, id);
    MarkModes(w, w', id, NotedPhase(h, id));
    forall it ensures Total(w', it) + HostWeight(h, it) == Total(w, it) + IdleWorth(Noted(h, id), it) {
      LocalUnlockTotal(w, id, it);
    }
    IdleTokens(w, w', Noted(h, id));
  }
}
