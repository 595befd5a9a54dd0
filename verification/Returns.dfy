/** Packets that come back: requests that a host without the agent role sends back to the
    switch, and FREE and TRANSFER packets that the switch refuses. What a host does with them
    depends on its past, which is counted here along the run. */
module Returns {
  import opened Messages
  import opened Deciders
  import opened Hosts
  import opened Protocol
  import opened Inventory
  import opened Invariant
  import opened HostSteps
  import opened GrantSteps
  import opened SwitchSteps
  import opened Safety
  import opened Outcomes

  // ---- The past -----------------------------------------------------------------------

  /** What happened to host `h` and request `id`. */
  datatype Send = Send(host: nat, id: Id)

  /** The exclusive requests that hosts without the role sent back, and the hosts that crossed
      off a holder without the role and have not tried to give the lock up again since. */
  datatype Past = Past(sentBack: seq<Send>, late: set<nat>)

  const NOTHING := Past([], {})

  /** The packet that step `s` delivers at a server port came back to the switch. */
  predicate CameBack(w: World, h: nat)
    requires w.IsHost(h) && w.server[h] != []
  {
    AfterServer(w, h).toSwitch == w.toSwitch + [w.server[h][0]]
  }

  /** The past after step `s`. */
  function Later(p: Past, w: World, s: Step): Past
    requires Enabled(w, s)
  {
    if !s.ServerReceives? || w.hosts[s.h].isAgent then p
    else
      var m := w.server[s.h][0];
      if m.Acquire? && m.op == Exclusive && CameBack(w, s.h) then p.(sentBack := p.sentBack + [Send(s.h, m.id)])
      else if m.Release? then p.(late := p.late + {s.h})
      else if m.GivesUp() && AfterServer(w, s.h).toSwitch != w.toSwitch then p.(late := p.late - {s.h})
      else p
  }

  ghost function PastOf(p: Past, w: World, steps: seq<Step>): Past
    requires Runs(w, steps)
    decreases |steps|
  {
    if steps == [] then p else PastOf(Later(p, w, steps[0]), Next(w, steps[0]), steps[1..])
  }

  function TimesSentBack(p: Past, h: nat, id: Id): nat {
    multiset(p.sentBack)[Send(h, id)]
  }

  // ---- The invariant ------------------------------------------------------------------

  ghost predicate Asking(w: World, id: Id) {
    exists op :: InFlight(w, Acquire(id, op))
  }

  /** The host's counter is the number of times it sent the request back. */
  ghost predicate CounterFits(w: World, p: Past, h: nat, id: Id) {
    h < |w.hosts| ==>
      && (id !in w.reqs ==> FwdBack(w.hosts[h], id) == TimesSentBack(p, h, id) == 0)
      && (Asking(w, id) ==> FwdBack(w.hosts[h], id) == TimesSentBack(p, h, id) <= 3)
  }

  /** A host without the role queues only writers that it sent back three times. */
  ghost predicate QueueFits(w: World, p: Past, h: nat, e: Wqe) {
    h < |w.hosts| && !w.hosts[h].isAgent && e in w.hosts[h].wqueue ==>
      e.op == Exclusive && TimesSentBack(p, h, e.id) == 3
  }

  ghost predicate LateFits(w: World, p: Past, h: nat) {
    h < |w.hosts| ==> (w.hosts[h].delayedFree <==> h in p.late)
  }

  ghost predicate Remembers(w: World, p: Past) {
    && (forall h: nat, id :: CounterFits(w, p, h, id))
    && (forall h: nat, e :: QueueFits(w, p, h, e))
    && (forall h: nat :: LateFits(w, p, h))
  }

  /** A queued request is in no ACQUIRE packet. */
  lemma QueuedAsksNot(w: World, h: nat, e: Wqe)
    requires Inv(w) && h < |w.hosts| && e in w.hosts[h].wqueue
    ensures !Asking(w, e.id)
  {
    HostsHas(w.hosts, h, Want(e));
    assert WantCounted(w, e);
    forall op ensures !InFlight(w, Acquire(e.id, op)) {
      AskingCounts(w, h, e, op);
    }
  }

  lemma AskingCounts(w: World, h: nat, e: Wqe, op: Mode)
    requires WantCounted(w, e) && WantCounted(w, Wqe(e.id, op)) && h < |w.hosts| && e in w.hosts[h].wqueue
    ensures !InFlight(w, Acquire(e.id, op))
  {
    var m := Acquire(e.id, op);
    HostsHas(w.hosts, h, Want(e));
    if m in w.toSwitch {
      BagHas(w.toSwitch, m, Want(Wqe(e.id, op)));
    }
    if m in w.client {
      BagHas(w.client, m, Want(Wqe(e.id, op)));
    }
    forall k | 0 <= k < |w.server| && m in w.server[k] ensures false {
      QueuesHas(w.server, k, Want(Wqe(e.id, op)));
      BagHas(w.server[k], m, Want(Wqe(e.id, op)));
    }
  }

  // ---- Steps --------------------------------------------------------------------------

  /** A host that keeps its counters and mark; without the role it queues nothing new. */
  predicate Unmarked(x: Host, y: Host) {
    && y.fwdBack == x.fwdBack && y.delayedFree == x.delayedFree
    && (!y.isAgent ==> y.wqueue == [] || (!x.isAgent && y.wqueue == x.wqueue))
  }

  /** A step that puts no ACQUIRE on the way and leaves counters and marks alone. */
  ghost predicate Unmarking(w: World, w': World) {
    && |w'.hosts| == |w.hosts| && w'.reqs.Keys == w.reqs.Keys
    && (forall h :: 0 <= h < |w.hosts| ==> Unmarked(w.hosts[h], w'.hosts[h]))
    && (forall id, op :: InFlight(w', Acquire(id, op)) ==> InFlight(w, Acquire(id, op)))
  }

  lemma UnmarkingRemembers(w: World, w': World, p: Past)
    requires Remembers(w, p) && Unmarking(w, w')
    ensures Remembers(w', p)
  {
    hide InFlight;
    forall h: nat, id ensures CounterFits(w', p, h, id) {
      assert CounterFits(w, p, h, id);
      assert h < |w.hosts| ==> Unmarked(w.hosts[h], w'.hosts[h]);
    }
    forall h: nat, e ensures QueueFits(w', p, h, e) {
      assert QueueFits(w, p, h, e);
      assert h < |w.hosts| ==> Unmarked(w.hosts[h], w'.hosts[h]);
    }
    forall h: nat ensures LateFits(w', p, h) {
      assert LateFits(w, p, h);
      assert h < |w.hosts| ==> Unmarked(w.hosts[h], w'.hosts[h]);
    }
  }

  lemma RequestRemembers(w: World, p: Past, r: Id, op: Mode)
    requires Remembers(w, p) && Enabled(w, RequestLock(r, op))
    ensures Remembers(AfterRequest(w, r, op), p)
  {
    var w' := AfterRequest(w, r, op);
    forall h: nat, id ensures CounterFits(w', p, h, id) {
      assert CounterFits(w, p, h, id);
      if id != r && Asking(w', id) {
        var o :| InFlight(w', Acquire(id, o));
        assert InFlight(w, Acquire(id, o));
      }
    }
    forall h: nat, e ensures QueueFits(w', p, h, e) {
      assert QueueFits(w, p, h, e);
    }
    forall h: nat ensures LateFits(w', p, h) {
      assert LateFits(w, p, h);
    }
  }

  lemma UnlockRemembers(w: World, p: Past, r: Id)
    requires Remembers(w, p) && Enabled(w, Unlock(r))
    ensures Remembers(AfterUnlock(w, r), p)
  {
    hide Remembers;
    assert Unmarking(w, AfterUnlock(w, r));
    UnmarkingRemembers(w, AfterUnlock(w, r), p);
  }

  /** The switch sends an ACQUIRE only if it received it. */
  lemma SwitchRemembers(w: World, p: Past, i: nat)
    requires Remembers(w, p) && i < |w.toSwitch|
    ensures Remembers(AfterSwitch(w, i), p)
  {
    hide Remembers, PostAll;
    Posted(w, i);
    assert Unmarking(w, AfterSwitch(w, i));
    UnmarkingRemembers(w, AfterSwitch(w, i), p);
  }

  lemma ClientRemembers(w: World, p: Past, i: nat)
    requires Remembers(w, p) && Enabled(w, ClientReceives(i))
    ensures Remembers(AfterClient(w, i), p)
  {
    hide Remembers;
    if w.client[i].GrantWithAgent? {
      GrantsOnly(w.client[i].wq);
    }
    assert Unmarking(w, AfterClient(w, i));
    UnmarkingRemembers(w, AfterClient(w, i), p);
  }

  /** Packets at a server port that leave the past alone. */
  lemma OtherServerRemembers(w: World, p: Past, h: nat)
    requires Remembers(w, p) && Enabled(w, ServerReceives(h))
    requires var m := w.server[h][0];
             || (m.Acquire? && (w.hosts[h].isAgent || m.op == Shared)) || m.Notify? || m.GrantWithoutAgent?
             || (m.Release? && w.hosts[h].isAgent && m.id in w.hosts[h].holders)
             || (m.GivesUp() && !(w.hosts[h].delayedFree && w.hosts[h].holders == {}))
    ensures Remembers(AfterServer(w, h), p) && Later(p, w, ServerReceives(h)) == p
  {
    hide Remembers;
    assert Unmarking(w, AfterServer(w, h));
    UnmarkingRemembers(w, AfterServer(w, h), p);
  }

  /** A RELEASE without the role marks the host. */
  lemma LateRemembers(w: World, p: Past, h: nat, id: Id)
    requires Remembers(w, p) && Arrives(w, h, Release(id)) && !w.hosts[h].isAgent && id in w.hosts[h].holders
    ensures Remembers(AfterServer(w, h), Later(p, w, ServerReceives(h)))
  {
    var w', q := AfterServer(w, h), Later(p, w, ServerReceives(h));
    Marked(w, w', p, q);
  }

  /** Sending a refused packet again clears the mark. */
  lemma RetryRemembers(w: World, p: Past, h: nat, m: Msg)
    requires Remembers(w, p) && Arrives(w, h, m) && m.GivesUp()
    requires !w.hosts[h].isAgent && w.hosts[h].delayedFree && w.hosts[h].holders == {}
    ensures Remembers(AfterServer(w, h), Later(p, w, ServerReceives(h)))
  {
    var w', q := AfterServer(w, h), Later(p, w, ServerReceives(h));
    assert |w'.toSwitch| == |w.toSwitch| + 1;
    Marked(w, w', p, q);
  }

  /** Only marks change. */
  lemma Marked(w: World, w': World, p: Past, q: Past)
    requires Remembers(w, p) && q.sentBack == p.sentBack && |w'.hosts| == |w.hosts| && w'.reqs.Keys == w.reqs.Keys
    requires forall h :: 0 <= h < |w.hosts| ==> Unmarked(w.hosts[h], w'.hosts[h].(delayedFree := w.hosts[h].delayedFree))
    requires forall h :: 0 <= h < |w.hosts| ==>
               (w'.hosts[h].delayedFree == w.hosts[h].delayedFree && (h in q.late <==> h in p.late))
               || (w'.hosts[h].delayedFree <==> h in q.late)
    requires forall id, op :: InFlight(w', Acquire(id, op)) ==> InFlight(w, Acquire(id, op))
    ensures Remembers(w', q)
  {
    hide InFlight;
    forall h: nat, id ensures CounterFits(w', q, h, id) {
      assert CounterFits(w, p, h, id);
      assert h < |w.hosts| ==> Unmarked(w.hosts[h], w'.hosts[h].(delayedFree := w.hosts[h].delayedFree));
    }
    forall h: nat, e ensures QueueFits(w', q, h, e) {
      assert QueueFits(w, p, h, e);
      assert h < |w.hosts| ==> Unmarked(w.hosts[h], w'.hosts[h].(delayedFree := w.hosts[h].delayedFree));
    }
    forall h: nat ensures LateFits(w', q, h) {
      assert LateFits(w, p, h);
    }
  }

  /** An exclusive request at a host without the role: it is on its way, so the counter tells
      how often this host sent it back. */
  lemma AskFacts(w: World, p: Past, h: nat, id: Id)
    requires Remembers(w, p) && Arrives(w, h, Acquire(id, Exclusive))
    ensures Asking(w, id) && FwdBack(w.hosts[h], id) == TimesSentBack(p, h, id) <= 3
  {
    assert InFlight(w, Acquire(id, Exclusive));
    assert CounterFits(w, p, h, id);
  }

  lemma BackRemembers(w: World, p: Past, h: nat, id: Id)
    requires Inv(w) && Remembers(w, p) && Arrives(w, h, Acquire(id, Exclusive))
    requires !w.hosts[h].isAgent && id !in w.hosts[h].early && FwdBack(w.hosts[h], id) <= 2
    ensures Later(p, w, ServerReceives(h)) == p.(sentBack := p.sentBack + [Send(h, id)])
    ensures Remembers(AfterServer(w, h), Later(p, w, ServerReceives(h)))
  {
    hide Inv;
    var w', q := AfterServer(w, h), Later(p, w, ServerReceives(h));
    assert q == p.(sentBack := p.sentBack + [Send(h, id)]);
    AskFacts(w, p, h, id);
    assert id in w.reqs by { AskedIsKnown(w, h, id); }
    forall k: nat, a ensures CounterFits(w', q, k, a) {
      assert CounterFits(w, p, k, a);
      AsksAsBefore(w, w', h, id, a);
    }
    forall k: nat, e ensures QueueFits(w', q, k, e) {
      assert QueueFits(w, p, k, e);
      if k < |w.hosts| && e in w.hosts[k].wqueue {
        QueuedAsksNot(w, k, e);
      }
    }
    forall k: nat ensures LateFits(w', q, k) {
      assert LateFits(w, p, k);
    }
  }

  lemma AsksAsBefore(w: World, w': World, h: nat, id: Id, a: Id)
    requires Arrives(w, h, Acquire(id, Exclusive))
    requires w'.toSwitch == w.toSwitch + [Acquire(id, Exclusive)] || w'.toSwitch == w.toSwitch
    requires w'.client == w.client && w'.server == w.server[h := w.server[h][1..]]
    ensures Asking(w', a) ==> Asking(w, a)
  {
    if Asking(w', a) {
      var o :| InFlight(w', Acquire(a, o));
      assert InFlight(w, Acquire(a, o));
    }
  }

  lemma AskedIsKnown(w: World, h: nat, id: Id)
    requires Inv(w) && Arrives(w, h, Acquire(id, Exclusive))
    ensures id in w.reqs && w.reqs[id] == Request(Exclusive, Waiting) && id !in w.hosts[h].early
  {
    hide Total;
    ArrivingTotal(w, h, Acquire(id, Exclusive), Want(Wqe(id, Exclusive)));
    AcquireWaits(w, id, Exclusive, h);
  }

  /** Queued ahead of time: sent back three times, and asking no more. */
  lemma AheadRemembers(w: World, p: Past, h: nat, id: Id)
    requires Remembers(w, p) && Arrives(w, h, Acquire(id, Exclusive)) && Inv(AfterServer(w, h)) && id in w.reqs
    requires !w.hosts[h].isAgent && id !in w.hosts[h].early && FwdBack(w.hosts[h], id) > 2
    ensures Later(p, w, ServerReceives(h)) == p
    ensures Remembers(AfterServer(w, h), p)
  {
    hide Inv;
    var w' := AfterServer(w, h);
    AskFacts(w, p, h, id);
    QueuedAsksNot(w', h, Wqe(id, Exclusive));
    forall k: nat, a ensures CounterFits(w', p, k, a) {
      assert CounterFits(w, p, k, a);
      AsksAsBefore(w, w', h, id, a);
    }
    forall k: nat, e ensures QueueFits(w', p, k, e) {
      assert QueueFits(w, p, k, e);
    }
    forall k: nat ensures LateFits(w', p, k) {
      assert LateFits(w, p, k);
    }
  }

  lemma ServerRemembers(w: World, p: Past, h: nat)
    requires Inv(w) && Remembers(w, p) && Enabled(w, ServerReceives(h)) && Inv(AfterServer(w, h))
    ensures Remembers(AfterServer(w, h), Later(p, w, ServerReceives(h)))
  {
    hide Inv, Remembers, Later, AfterServer;
    var m := w.server[h][0];
    ServerKinds(w, h);
    if m.Acquire? && m.op == Exclusive && !w.hosts[h].isAgent {
      AskedIsKnown(w, h, m.id);
      if FwdBack(w.hosts[h], m.id) <= 2 {
        BackRemembers(w, p, h, m.id);
      } else {
        AheadRemembers(w, p, h, m.id);
      }
    } else if m.Release? && !w.hosts[h].isAgent {
      LateRemembers(w, p, h, m.id);
    } else if m.GivesUp() && w.hosts[h].delayedFree && w.hosts[h].holders == {} {
      RetryRemembers(w, p, h, m);
    } else {
      OtherServerRemembers(w, p, h);
    }
  }

  /** What can come to a server port, and what it finds there. */
  lemma ServerKinds(w: World, h: nat)
    requires Inv(w) && Enabled(w, ServerReceives(h))
    ensures var m := w.server[h][0];
            && !m.GrantWithAgent? && (m.Release? ==> m.id in w.hosts[h].holders)
            && (m.GivesUp() ==> !w.hosts[h].isAgent)
  {
    hide Total;
    PopServerStructure(w, h);
    var m := w.server[h][0];
    if m.Release? {
      ReleaseFindsHolder(w, h, m.id);
    } else if m.GivesUp() {
      PushBackFinds(w, h, m);
    }
  }

  lemma StepRemembers(w: World, p: Past, s: Step)
    requires Inv(w) && Remembers(w, p) && Enabled(w, s) && Inv(Next(w, s))
    ensures Remembers(Next(w, s), Later(p, w, s))
  {
    hide Inv, Remembers;
    match s
    case RequestLock(id, op) => RequestRemembers(w, p, id, op);
    case Unlock(id) => UnlockRemembers(w, p, id);
    case SwitchReceives(i) => SwitchRemembers(w, p, i);
    case ServerReceives(h) => ServerRemembers(w, p, h);
    case ClientReceives(i) => ClientRemembers(w, p, i);
  }

  lemma {:induction false} RunRemembers(w: World, p: Past, steps: seq<Step>)
    requires Legal(w, steps)
    ensures Runs(w, steps)
    ensures Inv(w) && Remembers(w, p) ==> Inv(End(w, steps)) && Remembers(End(w, steps), PastOf(p, w, steps))
    decreases |steps|
  {
    hide Inv, Remembers, Next, Enabled, Later;
    if steps != [] {
      if Inv(w) && Remembers(w, p) {
        StepKeeps(w, steps[0]);
        StepRemembers(w, p, steps[0]);
      }
      RunRemembers(Next(w, steps[0]), Later(p, w, steps[0]), steps[1..]);
    }
  }

  lemma InitRemembers(n: nat)
    ensures Inv(Init(n)) && Remembers(Init(n), NOTHING)
  {
    InitInv(n);
    forall h: nat, id ensures CounterFits(Init(n), NOTHING, h, id) {
    }
  }

  /** A reached state with the past of its run. */
  ghost predicate ReachedWith(w: World, p: Past) {
    exists n: nat, steps ::
      Legal(Init(n), steps) && Runs(Init(n), steps) && w == End(Init(n), steps) && p == PastOf(NOTHING, Init(n), steps)
  }

  lemma ReachedRemembers(w: World, p: Past)
    requires ReachedWith(w, p)
    ensures Inv(w) && Remembers(w, p)
  {
    hide Inv, Remembers, Init;
    var n: nat, steps :|
      Legal(Init(n), steps) && Runs(Init(n), steps) && w == End(Init(n), steps) && p == PastOf(NOTHING, Init(n), steps);
    InitRemembers(n);
    RunRemembers(Init(n), NOTHING, steps);
  }

  // ---- What comes back ----------------------------------------------------------------

  /** A request that reaches the agent is queued. At a host without the role it goes back to the
      switch, unless it is exclusive and this host has sent it back three times: then it is
      queued ahead of time. */
  lemma AskOutcome(w: World, p: Past, h: nat, id: Id, op: Mode)
    requires ReachedWith(w, p) && Arrives(w, h, Acquire(id, op))
    ensures var w' := AfterServer(w, h);
            && w'.reqs == w.reqs && w'.InPhase(id, Waiting)
            && if w.hosts[h].isAgent || (op == Exclusive && TimesSentBack(p, h, id) == 3) then
                 w'.hosts[h].wqueue == w.hosts[h].wqueue + [Wqe(id, op)] && w'.toSwitch == w.toSwitch
               else
                 && w'.hosts[h].wqueue == w.hosts[h].wqueue && w'.toSwitch == w.toSwitch + [Acquire(id, op)]
                 && (op == Exclusive ==> TimesSentBack(p, h, id) < 3)
  {
    hide Total;
    ReachedRemembers(w, p);
    ArrivingTotal(w, h, Acquire(id, op), Want(Wqe(id, op)));
    AcquireWaits(w, id, op, h);
    assert InFlight(w, Acquire(id, op));
    assert CounterFits(w, p, h, id);
  }

  /** The queue of a host without the role holds only writers that it has sent back three
      times. */
  lemma QueueWithoutRole(w: World, p: Past, h: nat, e: Wqe)
    requires ReachedWith(w, p) && h < |w.hosts| && !w.hosts[h].isAgent && e in w.hosts[h].wqueue
    ensures e.op == Exclusive && TimesSentBack(p, h, e.id) == 3
  {
    ReachedRemembers(w, p);
    assert QueueFits(w, p, h, e);
  }

  /** A refused FREE or TRANSFER is sent again, with the notifications counted since, exactly if
      its host has no holder and crossed one off without the role. Otherwise the host is the
      agent again, with the queue of the packet behind its own. */
  lemma RefusedOutcome(w: World, p: Past, h: nat, m: Msg)
    requires ReachedWith(w, p) && Arrives(w, h, m) && m.GivesUp()
    ensures var w', x := AfterServer(w, h), w.hosts[h];
            && !x.isAgent
            && if h in p.late && x.holders == {} then
                 && w'.toSwitch == w.toSwitch + [m.(ncnt := (m.ncnt + x.ncnt) % 256)]
                 && !w'.hosts[h].isAgent && w'.hosts[h].ncnt == 0 && w'.hosts[h].wqueue == x.wqueue
               else
                 && w'.toSwitch == w.toSwitch && w'.hosts[h].isAgent && w'.hosts[h].mode == Locked(w.decider.rw)
                 && w'.hosts[h].ncnt == x.ncnt + m.ncnt && w'.hosts[h].holders == x.holders
                 && w'.hosts[h].wqueue == x.wqueue + (if m.Transfer? then [m.next] + m.wq else [])
  {
    hide Total;
    ReachedRemembers(w, p);
    PushBackFinds(w, h, m);
    assert LateFits(w, p, h);
    if m.Transfer? {
      assert w.hosts[h].wqueue + [m.next] + m.wq == w.hosts[h].wqueue + ([m.next] + m.wq);
    }
  }
}
