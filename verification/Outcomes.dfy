/** What comes of each request and packet of the FissLock protocol, in every state of every
    run: who is granted, where the others wait, who gets the lock next. Safety alone would
    allow a lock that grants nobody. */
module Outcomes {
  import opened Messages
  import opened Deciders
  import opened Hosts
  import opened Protocol
  import opened Inventory
  import opened Weights
  import opened Invariant
  import opened HostSteps
  import opened GrantSteps
  import opened SwitchSteps
  import opened Safety

  // ---- A task asks --------------------------------------------------------------------

  /** The host of `id` can grant a request of `op` on the spot: it is the agent that the switch
      names, and the lock is in shared mode. */
  predicate GrantsLocally(w: World, id: Id, op: Mode)
    requires w.IsHost(id.host)
  {
    w.decider.agent == id.host && w.hosts[id.host].isAgent && op == Shared && w.decider.rw == Shared
  }

  /** A request is granted on the spot exactly at a host that is the agent of a shared lock.
      Any other request waits: at the end of an agent's queue, or in a packet to the switch. */
  lemma RequestOutcome(w: World, id: Id, op: Mode)
    requires Reached(w) && Enabled(w, RequestLock(id, op))
    ensures var w' := Next(w, RequestLock(id, op));
            && (id in w'.held && w'.InPhase(id, Granted) <==> GrantsLocally(w, id, op))
            && (!GrantsLocally(w, id, op) <==> w'.InPhase(id, Waiting))
            && (w.hosts[id.host].isAgent && !GrantsLocally(w, id, op) ==>
                  w'.hosts[id.host].wqueue == w.hosts[id.host].wqueue + [Wqe(id, op)] && w'.toSwitch == w.toSwitch)
            && (!w.hosts[id.host].isAgent ==>
                  w'.hosts[id.host] == w.hosts[id.host] && w'.toSwitch == w.toSwitch + [Acquire(id, op)])
            && (GrantsLocally(w, id, op) ==> id in w'.hosts[id.host].holders)
  {
    ReachedInv(w);
    hide Total;
    assert HostFits(w.hosts[id.host], id.host, w.decider);
    assert GrantCounted(w, id);
  }

  // ---- The switch answers -------------------------------------------------------------

  /** The server ports after one more packet for host `h`. */
  function Delivered(w: World, h: nat, m: Msg): seq<seq<Msg>>
    requires h < |w.server|
  {
    w.server[h := w.server[h] + [m]]
  }

  /** An ACQUIRE is granted exactly if the lock is free or request and lock are shared. The
      first one makes its host the agent; a reader's grant comes with a notification to the
      agent; any other request goes to the agent, behind what is on its way there. */
  lemma AcquireOutcome(w: World, i: nat, id: Id, op: Mode)
    requires Reached(w) && Reaches(w, i, Acquire(id, op))
    ensures var w' := AfterSwitch(w, i);
            && w.InPhase(id, Waiting)
            && (w'.InPhase(id, Granted) <==> !w.decider.acquired || (op == Shared && w.decider.rw == Shared))
            && (if !w.decider.acquired then
                  && w'.client == w.client + [GrantWithAgent(id, op, false, [])] && w'.server == w.server
                  && w'.decider.acquired && w'.decider.agent == id.host && w'.decider.rw == op
                else if op == Shared && w.decider.rw == Shared then
                  && w.IsHost(w.decider.agent)
                  && w'.client == w.client + [GrantWithoutAgent(id)]
                  && w'.server == Delivered(w, w.decider.agent, Notify(id))
                else
                  && w.IsHost(w.decider.agent) && w'.client == w.client
                  && w'.server == Delivered(w, w.decider.agent, Acquire(id, op)))
  {
    ReachedInv(w);
    hide Total, PostAll;
    ReachingTotal(w, i, Acquire(id, op), Want(Wqe(id, op)));
    assert WantCounted(w, Wqe(id, op));
    Posted(w, i);
  }

  /** How the switch's copies end up in the channels. */
  lemma Posted(w: World, i: nat)
    requires i < |w.toSwitch|
    ensures var d := Decide(w.decider, w.toSwitch[i]);
            var v := w.(decider := d.decider, toSwitch := RemoveAt(w.toSwitch, i),
                        reqs := Mark(w.reqs, SwitchGrants(w.decider, w.toSwitch[i]), Granted));
            AfterSwitch(w, i) == if d.out == [] then v
                                 else if |d.out| == 1 then Post(v, d.out[0])
                                 else Post(Post(v, d.out[0]), d.out[1])
  {
    hide PostAll;
    var d := Decide(w.decider, w.toSwitch[i]);
    var v := w.(decider := d.decider, toSwitch := RemoveAt(w.toSwitch, i),
                reqs := Mark(w.reqs, SwitchGrants(w.decider, w.toSwitch[i]), Granted));
    if d.out == [] {
      PostNone(v);
    } else if |d.out| == 1 {
      PostOne(v, d.out[0]);
    } else {
      PostTwo(v, d.out[0], d.out[1]);
    }
  }

  lemma PostNone(w: World)
    ensures PostAll(w, []) == w
  {
  }

  /** A RELEASE goes to the agent, and a grant that a host issued to the host of its request;
      neither changes what the switch knows. */
  lemma RelayOutcome(w: World, i: nat, m: Msg)
    requires Reached(w) && Reaches(w, i, m) && (m.Release? || m.GrantWithoutAgent?)
    ensures var w' := AfterSwitch(w, i);
            var h := if m.Release? then w.decider.agent else m.id.host;
            && w'.decider == w.decider && w'.client == w.client && w'.reqs == w.reqs
            && w.IsHost(h) && w'.server == Delivered(w, h, m)
  {
    ReachedInv(w);
    hide Total, PostAll;
    Posted(w, i);
    assert Mark(w.reqs, {}, Granted) == w.reqs;
    if m.Release? {
      ReachingTotal(w, i, m, Rel(m.id));
      assert GrantCounted(w, m.id) && ModeFits(w, m.id);
    } else {
      ReachingTotal(w, i, m, Grant(m.id));
      assert GrantCounted(w, m.id);
    }
  }

  /** The switch takes a FREE or TRANSFER exactly if the lock was exclusive or the counts agree.
      A FREE then leaves a free lock, a TRANSFER makes the host of the next request the agent
      and grants that request; a refused packet goes back to its sender unchanged. */
  lemma GiveUpOutcome(w: World, i: nat, m: Msg)
    requires Reached(w) && Reaches(w, i, m) && m.GivesUp()
    ensures var w' := AfterSwitch(w, i);
            && w.decider.acquired && w.decider.rw == m.oldMode && m.from == w.decider.agent && w.IsHost(m.from)
            && if w.decider.rw == Shared && m.ncnt != w.decider.count then
                 w'.decider == w.decider && w'.server == Delivered(w, m.from, m) && w'.client == w.client && w'.reqs == w.reqs
               else if m.Free? then
                 w'.decider == INITIAL && w'.server == w.server && w'.client == w.client && w'.reqs == w.reqs
               else
                 && w'.decider == Decider(true, m.next.op, m.next.id.host, 0) && w'.server == w.server
                 && w'.client == w.client + [GrantWithAgent(m.next.id, m.next.op, true, m.wq)]
                 && w.InPhase(m.next.id, Waiting) && w'.InPhase(m.next.id, Granted)
  {
    ReachedInv(w);
    hide Total, PostAll;
    Posted(w, i);
    GiveUpFinds(w, i, m);
    assert Mark(w.reqs, {}, Granted) == w.reqs;
    if m.Transfer? {
      ReachingTotal(w, i, m, Want(m.next));
      assert WantCounted(w, m.next);
    }
  }

  // ---- The agent hands the lock over --------------------------------------------------

  /** Host `h` gave the lock up: a TRANSFER to the first waiter with the others behind it, or a
      FREE if nobody waits. */
  predicate HandsOver(w: World, h: nat, w': World)
    requires w.IsHost(h) && w'.IsHost(h) && |w.hosts| == |w'.hosts|
  {
    var x, x' := w.hosts[h], w'.hosts[h];
    && !x'.isAgent && x'.mode == Unlocked && x'.wqueue == [] && x'.ncnt == 0
    && w'.toSwitch == w.toSwitch + [GiveUpPacket(x, h, w.decider.rw)]
  }

  function GiveUpPacket(x: Host, h: nat, mode: Mode): Msg {
    if x.wqueue == [] then Free(mode, h, x.ncnt % 256)
    else Transfer(x.wqueue[0], x.wqueue[1..], mode, h, x.ncnt % 256)
  }

  /** The same of a handler: with `done` gone, host state `x` keeps the lock while it has
      another holder. */
  predicate Settles(x: Host, h: nat, mode: Mode, done: Id, r: Reaction) {
    && r.host.holders == x.holders - {done} && r.notified == {}
    && if x.isAgent && x.holders <= {done} then
         && !r.host.isAgent && r.host.mode == Unlocked && r.host.wqueue == [] && r.host.ncnt == 0
         && r.send == [GiveUpPacket(x, h, mode)]
       else r.send == [] && r.host.isAgent == x.isAgent && r.host.wqueue == x.wqueue
  }

  lemma LocalReleaseSettles(x: Host, h: nat, mode: Mode, id: Id)
    requires x.isAgent && x.mode == Locked(mode)
    ensures Settles(x, h, mode, id, ReleaseLock(x, h, id))
  {
  }

  lemma ReleaseSettles(x: Host, h: nat, mode: Mode, id: Id)
    requires id in x.holders && (x.isAgent ==> x.mode == Locked(mode))
    ensures Settles(x, h, mode, id, OnRelease(x, h, id))
  {
  }

  /** A release at the agent's own host: the lock is handed over exactly if no holder is left,
      and otherwise nothing is sent and nobody leaves the queue. */
  lemma LocalReleaseOutcome(w: World, id: Id)
    requires Reached(w) && Enabled(w, Unlock(id)) && w.hosts[id.host].isAgent
    ensures var w', h := Next(w, Unlock(id)), id.host;
            && w'.hosts[h].holders == w.hosts[h].holders - {id}
            && if w.hosts[h].holders <= {id} then HandsOver(w, h, w')
               else w'.toSwitch == w.toSwitch && w'.hosts[h].isAgent && w'.hosts[h].wqueue == w.hosts[h].wqueue
  {
    hide Inv, ReleaseLock;
    AgentMode(w, id.host);
    LocalReleaseSettles(w.hosts[id.host], id.host, w.decider.rw, id);
  }

  lemma AgentMode(w: World, h: nat)
    requires Reached(w) && w.IsHost(h) && w.hosts[h].isAgent
    ensures w.hosts[h].mode == Locked(w.decider.rw)
  {
    ReachedInv(w);
    hide Total;
    assert HostFits(w.hosts[h], h, w.decider);
  }

  /** At any other host, a RELEASE is sent to the switch. */
  lemma RemoteReleaseOutcome(w: World, id: Id)
    requires Reached(w) && Enabled(w, Unlock(id)) && !w.hosts[id.host].isAgent
    ensures var w' := Next(w, Unlock(id));
            w'.hosts == w.hosts && w'.toSwitch == w.toSwitch + [Release(id)]
  {
    assert w.hosts[id.host := w.hosts[id.host]] == w.hosts;
  }

  /** A RELEASE packet finds its holder. At the agent, the lock is handed over exactly if no
      other holder is left; while the role is away, the holder is only crossed off. */
  lemma ReleaseOutcome(w: World, h: nat, id: Id)
    requires Reached(w) && Arrives(w, h, Release(id))
    ensures var w', x := AfterServer(w, h), w.hosts[h];
            && id in x.holders && w'.hosts[h].holders == x.holders - {id}
            && if x.isAgent && x.holders == {id} then HandsOver(w, h, w')
               else w'.toSwitch == w.toSwitch && w'.hosts[h].isAgent == x.isAgent && w'.hosts[h].wqueue == x.wqueue
  {
    hide Structured, Counted, OnRelease, GiveUpPacket;
    ReachedInv(w);
    ReleaseFindsHolder(w, h, id);
    if w.hosts[h].isAgent {
      AgentMode(w, h);
    }
    ReleaseSettles(w.hosts[h], h, w.decider.rw, id);
  }

  // ---- A grant arrives ----------------------------------------------------------------

  /** A grant tells its task. With the agent role comes the transferred queue: under a reader
      its readers are granted at once, in order, and its writers wait; under a writer all wait. */
  lemma GrantOutcome(w: World, i: nat, m: Msg)
    requires Reached(w) && Comes(w, i, m) && m.GrantWithAgent?
    ensures var w', h := AfterClient(w, i), m.id.host;
            && m.id in w'.held && m.id in w'.hosts[h].holders
            && w'.hosts[h].isAgent && w'.hosts[h].mode == Locked(m.mode)
            && if m.transferred && m.mode == Shared then
                 && w'.hosts[h].wqueue == w.hosts[h].wqueue + Writers(m.wq)
                 && w'.toSwitch == w.toSwitch + Grants(m.wq)
                 && forall e :: e in m.wq && e.op == Shared ==> w'.InPhase(e.id, Granted) && e.id in w'.hosts[h].holders
               else
                 w'.hosts[h].wqueue == w.hosts[h].wqueue + m.wq && w'.toSwitch == w.toSwitch
  {
    hide Total, GivingUp, Counted, OneToken, TicksCounted, Modes, Structured;
    ReachedInv(w);
    PromotionFinds(w, i, m);
    PopClientStructure(w, i);
    if m.transferred && m.mode == Shared {
      forall e | e in m.wq && e.op == Shared ensures e.id in w.reqs {
        assert e == Wqe(e.id, Shared);
        ReadersWait(w, i, m, e.id);
      }
    }
  }

  /** A grant without the agent role tells its task, at either port. */
  lemma PlainGrantOutcome(w: World, i: nat, h: nat, id: Id)
    requires Reached(w)
    ensures Comes(w, i, GrantWithoutAgent(id)) ==> id in AfterClient(w, i).held
    ensures Arrives(w, h, GrantWithoutAgent(id)) ==> id in AfterServer(w, h).held && id.host == h
  {
    ReachedInv(w);
    if Arrives(w, h, GrantWithoutAgent(id)) {
      PopServerStructure(w, h);
    }
  }

  /** A granted request that reaches the agent as a notification becomes a holder there unless
      its task has already released. */
  lemma NotifyOutcome(w: World, h: nat, id: Id)
    requires Reached(w) && Arrives(w, h, Notify(id))
    ensures var w' := AfterServer(w, h);
            && h == w.decider.agent && w'.hosts[h].ncnt == w.hosts[h].ncnt + 1 && w'.toSwitch == w.toSwitch
            && (w.InPhase(id, Granted) <==> id in w'.hosts[h].holders)
            && (w.InPhase(id, EarlyReleased) <==> w'.InPhase(id, Done))
  {
    ReachedInv(w);
    hide Total;
    NotifyFinds(w, h, id);
    ArrivingTotal(w, h, Notify(id), Note(id));
    assert HolderCounted(w, id);
    AtAgent(w, id);
  }
}
