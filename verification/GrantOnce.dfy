/** Each request of the FissLock protocol is granted at most once: counting the grants that the
    switch, a new agent and the local fast path issue along a run. */
module GrantOnce {
  import opened Messages
  import opened Deciders
  import opened Hosts
  import opened Protocol
  import opened Inventory
  import opened Weights
  import opened Invariant
  import opened HostSteps
  import opened GrantSteps
  import opened SwitchSteps
  import opened Safety

  /** Grants for `id` among the copies that the switch sends. */
  function Delivered(out: seq<Delivery>, id: Id): nat {
    if out == [] then 0 else MsgWeight(out[0].msg, Grant(id)) + Delivered(out[1..], id)
  }

  /** Grants for `id` that step `s` issues: on the spot, or as new packets. A grant that a host
      sends to the switch is only passed on. */
  function Issues(w: World, s: Step, id: Id): nat
    requires Enabled(w, s)
  {
    match s
    case RequestLock(r, op) => One(id in AcquireAsync(w.hosts[r.host], r, op).notified)
    case Unlock(r) => Bag(ReleaseLock(w.hosts[r.host], r.host, r).send, Grant(id))
    case SwitchReceives(i) =>
      if w.toSwitch[i].GrantWithoutAgent? then 0 else Delivered(Decide(w.decider, w.toSwitch[i]).out, id)
    case ServerReceives(h) => Bag(OnPacket(w.hosts[h], h, w.server[h][0]).send, Grant(id))
    case ClientReceives(i) =>
      var m := w.client[i];
      Bag(OnPacket(w.hosts[m.id.host], m.id.host, m).send, Grant(id))
  }

  ghost function IssuedAlong(w: World, steps: seq<Step>, id: Id): nat
    requires Runs(w, steps)
    decreases |steps|
  {
    if steps == [] then 0 else Issues(w, steps[0], id) + IssuedAlong(Next(w, steps[0]), steps[1..], id)
  }

  /** The request has been made and does not wait any more. */
  predicate Served(w: World, id: Id) {
    id in w.reqs && w.reqs[id].phase != Waiting
  }

  /** A step issues a grant exactly for the requests that it takes from waiting to served. */
  ghost predicate Balances(w: World, s: Step, id: Id)
    requires Enabled(w, s)
  {
    Issues(w, s, id) + One(Served(w, id)) == One(Served(Next(w, s), id))
  }

  lemma RequestBalances(w: World, r: Id, op: Mode, id: Id)
    requires Enabled(w, RequestLock(r, op))
    ensures Balances(w, RequestLock(r, op), id)
  {
  }

  /** Giving up sends no grant. */
  lemma GiveUpSendsNone(h: Host, self: nat, id: Id)
    ensures Bag(GiveUpIfIdle(h, self).send, Grant(id)) == 0
  {
    if h.holders == {} {
      BagSingle(GiveUp(h, self).send[0], Grant(id));
    }
  }

  lemma UnlockBalances(w: World, r: Id, id: Id)
    requires Counted(w) && Enabled(w, Unlock(r))
    ensures Balances(w, Unlock(r), id)
  {
    hide Total, Bag, GiveUpIfIdle;
    var h := w.hosts[r.host];
    assert GrantCounted(w, r);
    BagSingle(Release(r), Grant(id));
    GiveUpSendsNone(h.(holders := h.holders - {r}), r.host, id);
    GiveUpSendsNone(h.(early := h.early + {r}), r.host, id);
  }

  lemma DeliveredOne(d: Delivery, id: Id)
    ensures Delivered([d], id) == MsgWeight(d.msg, Grant(id))
  {
    assert [d][1..] == [];
  }

  lemma DeliveredTwo(d: Delivery, e: Delivery, id: Id)
    ensures Delivered([d, e], id) == MsgWeight(d.msg, Grant(id)) + MsgWeight(e.msg, Grant(id))
  {
    assert [d, e][1..] == [e];
    DeliveredOne(e, id);
  }

  /** The switch sends grants exactly for the requests whose history it advances. */
  lemma SwitchSends(d: Decider, m: Msg, id: Id)
    requires !m.GrantWithoutAgent?
    ensures Delivered(Decide(d, m).out, id) == One(id in SwitchGrants(d, m))
  {
    hide Delivered;
    var out := Decide(d, m).out;
    if |out| == 1 {
      DeliveredOne(out[0], id);
    } else if |out| == 2 {
      DeliveredTwo(out[0], out[1], id);
    } else {
      assert out == [];
      DeliveredNone(id);
    }
  }

  lemma DeliveredNone(id: Id)
    ensures Delivered([], id) == 0
  {
  }

  /** The requests that the switch grants were waiting. */
  lemma SwitchGrantsWaiting(w: World, i: nat, id: Id)
    requires Counted(w) && i < |w.toSwitch| && id in SwitchGrants(w.decider, w.toSwitch[i])
    ensures w.InPhase(id, Waiting)
  {
    hide Total;
    var m := w.toSwitch[i];
    var e := if m.Acquire? then Wqe(m.id, m.op) else m.next;
    ReachingTotal(w, i, m, Want(e));
    assert WantCounted(w, e);
  }

  lemma {:induction false} PostedReqs(w: World, out: seq<Delivery>)
    ensures PostAll(w, out).reqs == w.reqs
    decreases |out|
  {
    if out != [] {
      PostedReqs(Post(w, out[0]), out[1..]);
    }
  }

  lemma SwitchBalances(w: World, i: nat, id: Id)
    requires Counted(w) && Enabled(w, SwitchReceives(i))
    ensures Balances(w, SwitchReceives(i), id)
  {
    hide Counted, Decide, Delivered, PostAll;
    var m := w.toSwitch[i];
    PostedReqs(w.(decider := Decide(w.decider, m).decider, toSwitch := RemoveAt(w.toSwitch, i),
                  reqs := Mark(w.reqs, SwitchGrants(w.decider, m), Granted)), Decide(w.decider, m).out);
    if !m.GrantWithoutAgent? {
      SwitchSends(w.decider, m, id);
    }
    if id in SwitchGrants(w.decider, m) {
      SwitchGrantsWaiting(w, i, id);
    }
  }

  lemma ServerSendsNone(h: Host, self: nat, m: Msg, id: Id)
    requires !m.GrantWithAgent?
    ensures Bag(OnPacket(h, self, m).send, Grant(id)) == 0
  {
    hide Bag, GiveUpIfIdle;
    BagNone([], Grant(id));
    match m
    case Acquire(a, op) => BagSingle(m, Grant(id));
    case Release(a) =>
      GiveUpSendsNone(h.(early := h.early + {a}), self, id);
      GiveUpSendsNone(h.(holders := h.holders - {a}), self, id);
    case Transfer(next, wq, oldMode, from, ncnt) =>
      BagSingle(Transfer(next, wq, oldMode, from, (ncnt + h.ncnt) % 256), Grant(id));
    case Free(oldMode, from, ncnt) => BagSingle(Free(oldMode, from, (ncnt + h.ncnt) % 256), Grant(id));
    case _ =>
  }

  /** The history that a packet at a server port advances is that of served requests. */
  lemma HeardServed(w: World, h: nat, id: Id)
    requires Counted(w) && Enabled(w, ServerReceives(h))
    ensures var reqs := Heard(w.reqs, w.hosts[h], w.server[h][0]);
            Served(w, id) <==> id in reqs && reqs[id].phase != Waiting
  {
    hide Total;
    var m := w.server[h][0];
    if m.Notify? {
      ArrivingTotal(w, h, m, Note(m.id));
      assert HolderCounted(w, m.id);
    } else if m.Release? {
      ArrivingTotal(w, h, m, Rel(m.id));
      assert GrantCounted(w, m.id);
    }
  }

  lemma ServerBalances(w: World, h: nat, id: Id)
    requires Counted(w) && Structured(w) && Enabled(w, ServerReceives(h))
    ensures Balances(w, ServerReceives(h), id)
  {
    hide Counted, Structured, Bag, OnPacket, Heard;
    HeardServed(w, h, id);
    PopServerStructure(w, h);
    ServerSendsNone(w.hosts[h], h, w.server[h][0], id);
  }

  /** A new agent grants exactly the readers of the queue it received. */
  lemma ClientSends(h: Host, self: nat, m: Msg, id: Id)
    requires m.GrantWithAgent? || m.GrantWithoutAgent?
    ensures Bag(OnPacket(h, self, m).send, Grant(id))
            == if m.GrantWithAgent? && m.transferred && m.mode == Shared then ReaderCount(m.wq, id) else 0
  {
    hide Bag, Grants;
    BagNone([], Grant(id));
    if m.GrantWithAgent? {
      GrantsBag(m.wq, Grant(id));
    }
  }

  lemma ClientBalances(w: World, i: nat, id: Id)
    requires Counted(w) && Enabled(w, ClientReceives(i))
    ensures Balances(w, ClientReceives(i), id)
  {
    hide Counted, Bag, OnPacket;
    var m := w.client[i];
    ClientSends(w.hosts[m.id.host], m.id.host, m, id);
    if m.GrantWithAgent? && m.transferred && m.mode == Shared {
      assert id in SharedIds(m.wq) <==> Wqe(id, Shared) in m.wq;
      if ReaderCount(m.wq, id) > 0 {
        ReadersWait(w, i, m, id);
      }
    }
  }

  lemma StepBalances(w: World, s: Step, id: Id)
    requires Counted(w) && Structured(w) && Enabled(w, s)
    ensures Balances(w, s, id)
  {
    hide Counted, Structured, Balances, Enabled;
    match s
    case RequestLock(r, op) => RequestBalances(w, r, op, id);
    case Unlock(r) => UnlockBalances(w, r, id);
    case SwitchReceives(i) => SwitchBalances(w, i, id);
    case ServerReceives(h) => ServerBalances(w, h, id);
    case ClientReceives(i) => ClientBalances(w, i, id);
  }

  lemma {:induction false} RunBalances(w: World, steps: seq<Step>, id: Id)
    requires Inv(w) && Legal(w, steps)
    ensures Runs(w, steps) && IssuedAlong(w, steps, id) + One(Served(w, id)) == One(Served(End(w, steps), id))
    decreases |steps|
  {
    hide Counted, Structured, GivingUp, OneToken, TicksCounted, Modes, Next, Enabled, Issues;
    if steps != [] {
      StepKeeps(w, steps[0]);
      assert Issues(w, steps[0], id) + One(Served(w, id)) == One(Served(Next(w, steps[0]), id)) by {
        StepBalances(w, steps[0], id);
      }
      RunBalances(Next(w, steps[0]), steps[1..], id);
    }
  }

  /** In every run a request has exactly one grant issued once it is served, and none before:
      never two, whoever issues them. */
  lemma GrantedOnceAlways(n: nat, steps: seq<Step>, id: Id)
    requires Legal(Init(n), steps)
    ensures Runs(Init(n), steps)
    ensures IssuedAlong(Init(n), steps, id) == One(Served(End(Init(n), steps), id))
  {
    InitInv(n);
    RunBalances(Init(n), steps, id);
  }
}
