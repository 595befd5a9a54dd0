/** The inductive invariant of the protocol. */
module Invariant {
  import opened Messages
  import opened Deciders
  import opened Hosts
  import opened Protocol
  import opened Inventory
  import opened Weights

  ghost predicate Shaped(w: World) {
    && |w.server| == |w.hosts| > 0
    && w.decider.count < 256
    && forall id :: id in w.reqs ==> w.IsHost(id.host)
  }

  /** A host that takes no part in the current epoch. */
  ghost predicate Clean(h: Host) {
    !h.isAgent && h.ncnt == 0 && h.holders == {} && h.early == {}
  }

  ghost predicate HostFits(x: Host, h: nat, d: Decider) {
    && (h != d.agent || h == 0 ==> Clean(x))
    && x.mode == if x.isAgent then Locked(d.rw) else Unlocked
  }

  /** The agent register names the only host that can have agent state, and that host's
      mode is the switch's. */
  ghost predicate AgentNamed(w: World)
    requires Shaped(w)
  {
    && (w.decider.acquired <==> w.decider.agent != 0)
    && (w.decider.acquired ==> w.IsHost(w.decider.agent))
    && (!w.decider.acquired ==> w.decider.rw == Shared)
    && (forall h :: 0 <= h < |w.hosts| ==> HostFits(w.hosts[h], h, w.decider))
  }

  /** While the agent is giving the lock up, a holder it records was notified since. */
  ghost predicate GivingUp(w: World)
    requires Shaped(w) && AgentNamed(w)
  {
    Total(w, GiveUpToken) > 0 && w.decider.acquired ==>
      w.hosts[w.decider.agent].holders != {} ==> w.hosts[w.decider.agent].ncnt > 0
  }

  ghost predicate SwitchMsg(m: Msg, d: Decider) {
    match m
    case Notify(_) => false
    case GrantWithAgent(_, _, _, _) => false
    case Transfer(_, _, oldMode, from, ncnt) => oldMode == d.rw && from == d.agent && ncnt < 256
    case Free(oldMode, from, ncnt) => oldMode == d.rw && from == d.agent && ncnt < 256
    case _ => true
  }

  ghost predicate ServerMsg(m: Msg, h: nat, d: Decider) {
    match m
    case Acquire(_, _) => true
    case Notify(_) => h == d.agent
    case Release(_) => h == d.agent
    case GrantWithoutAgent(id) => id.host == h
    case GrantWithAgent(_, _, _, _) => false
    case _ => m.oldMode == d.rw == Shared && h == m.from == d.agent && m.ncnt < 256
  }

  ghost predicate ClientMsg(m: Msg, d: Decider) {
    match m
    case GrantWithAgent(id, mode, transferred, wq) =>
      id.host == d.agent && mode == d.rw && (transferred || wq == [])
    case GrantWithoutAgent(_) => true
    case _ => false
  }

  ghost predicate Channels(w: World)
    requires Shaped(w)
  {
    && (forall m :: m in w.toSwitch ==> SwitchMsg(m, w.decider))
    && (forall m :: m in w.client ==> ClientMsg(m, w.decider))
    && w.server[0] == []
    && (forall h, m :: 0 <= h < |w.server| && m in w.server[h] ==> ServerMsg(m, h, w.decider))
  }

  /** On a server port a RELEASE comes after the notification of its request. */
  ghost predicate NotesFirst(q: seq<Msg>) {
    forall i, j :: 0 <= i < j < |q| && q[i].Release? ==> q[j] != Notify(q[i].id)
  }

  ghost predicate Fifo(w: World) {
    forall q :: q in w.server ==> NotesFirst(q)
  }

  /** A queue entry is somewhere exactly once while its request waits, and nowhere else. */
  ghost predicate WantCounted(w: World, e: Wqe) {
    Total(w, Want(e)) == One(e.id in w.reqs && w.reqs[e.id] == Request(e.op, Waiting))
  }

  /** The client side of a granted request: its grant, its critical section or its RELEASE. */
  ghost predicate GrantCounted(w: World, id: Id) {
    Total(w, Grant(id)) + Total(w, Rel(id)) + One(id in w.held) == One(w.InPhase(id, Granted))
  }

  /** The agent side of a granted request: a holder, or about to become one. */
  ghost predicate HolderCounted(w: World, id: Id) {
    && Total(w, Hold(id)) + Total(w, Note(id)) + Total(w, Seed(id))
       == One(w.InPhase(id, Granted) || w.InPhase(id, EarlyReleased))
    && Total(w, Early(id)) == One(w.InPhase(id, EarlyReleased))
    && (w.InPhase(id, EarlyReleased) ==> Total(w, Note(id)) == 1)
  }

  ghost predicate Counted(w: World) {
    && (forall e :: WantCounted(w, e))
    && (forall id :: GrantCounted(w, id))
    && (forall id :: HolderCounted(w, id))
  }

  ghost predicate OneToken(w: World) {
    Total(w, GrantToken) + Total(w, HostToken) + Total(w, GiveUpToken) == One(w.decider.acquired)
  }

  /** The switch count, modulo 256, is what hosts and packets have counted. */
  ghost predicate TicksCounted(w: World) {
    if w.decider.rw == Shared then w.decider.count == Total(w, Tick) % 256
    else Total(w, Tick) == 0
  }

  ghost predicate ModeFits(w: World, id: Id) {
    w.InPhase(id, Granted) || w.InPhase(id, EarlyReleased) ==>
      w.decider.acquired && w.reqs[id].op == w.decider.rw
  }

  ghost predicate Alone(w: World, a: Id, b: Id) {
    w.InPhase(a, Granted) && w.InPhase(b, Granted) ==> a == b
  }

  ghost predicate Modes(w: World) {
    && (forall id :: ModeFits(w, id))
    && (w.decider.rw == Exclusive ==> forall a, b :: Alone(w, a, b))
  }

  /** Where things are. */
  ghost predicate Structured(w: World) {
    Shaped(w) && AgentNamed(w) && Channels(w) && Fifo(w)
  }

  ghost predicate Inv(w: World) {
    && Structured(w) && GivingUp(w)
    && Counted(w) && OneToken(w) && TicksCounted(w) && Modes(w)
  }

  // ---- How the totals move ------------------------------------------------------------

  lemma AbsorbTotal(w: World, h: nat, r: Reaction, it: Item)
    requires w.IsHost(h)
    ensures Total(Absorb(w, h, r), it) + HostWeight(w.hosts[h], it) == Total(w, it) + Worth(r, it)
  {
    HostsUpdate(w.hosts, h, r.host, it);
    BagConcat(w.toSwitch, r.send, it);
  }

  lemma PostTotal(w: World, d: Delivery, it: Item)
    requires d.ToServer? ==> w.IsHost(d.host)
    ensures Total(Post(w, d), it) == Total(w, it) + MsgWeight(d.msg, it)
  {
    BagSingle(d.msg, it);
    match d
    case ToServer(h, m) =>
      QueuesUpdate(w.server, h, w.server[h] + [m], it);
      BagConcat(w.server[h], [m], it);
    case ToClient(m) =>
      BagConcat(w.client, [m], it);
  }

  /** Taking the first packet of host `h`'s server port. */
  function PopServer(w: World, h: nat): World
    requires w.IsHost(h) && w.server[h] != []
  {
    w.(server := w.server[h := w.server[h][1..]])
  }

  lemma PopServerTotal(w: World, h: nat, it: Item)
    requires w.IsHost(h) && w.server[h] != []
    ensures Total(PopServer(w, h), it) + MsgWeight(w.server[h][0], it) == Total(w, it)
  {
    QueuesUpdate(w.server, h, w.server[h][1..], it);
  }

  lemma AfterServerTotal(w: World, h: nat, it: Item)
    requires w.IsHost(h) && w.server[h] != []
    ensures Total(AfterServer(w, h), it) + HostWeight(w.hosts[h], it) + MsgWeight(w.server[h][0], it)
            == Total(w, it) + Worth(OnPacket(w.hosts[h], h, w.server[h][0]), it)
  {
    var m := w.server[h][0];
    PopServerTotal(w, h, it);
    AbsorbTotal(PopServer(w, h).(reqs := Heard(w.reqs, w.hosts[h], m)), h, OnPacket(w.hosts[h], h, m), it);
  }

  lemma AfterClientTotal(w: World, i: nat, it: Item)
    requires i < |w.client| && ClientHost(w.client[i], w)
    ensures var m := w.client[i];
            Total(AfterClient(w, i), it) + HostWeight(w.hosts[m.id.host], it) + MsgWeight(m, it)
            == Total(w, it) + Worth(OnPacket(w.hosts[m.id.host], m.id.host, m), it)
  {
    var m := w.client[i];
    BagRemove(w.client, i, it);
    AbsorbTotal(w.(client := RemoveAt(w.client, i), reqs := Mark(w.reqs, HostGrants(m), Granted)),
                m.id.host, OnPacket(w.hosts[m.id.host], m.id.host, m), it);
  }

  lemma AfterRequestTotal(w: World, id: Id, op: Mode, it: Item)
    requires w.IsHost(id.host)
    ensures Total(AfterRequest(w, id, op), it) + HostWeight(w.hosts[id.host], it)
            == Total(w, it) + Worth(AcquireAsync(w.hosts[id.host], id, op), it)
  {
    var r := AcquireAsync(w.hosts[id.host], id, op);
    AbsorbTotal(w.(reqs := w.reqs[id := Request(op, if id in r.notified then Granted else Waiting)]),
                id.host, r, it);
  }

  lemma AfterUnlockTotal(w: World, id: Id, it: Item)
    requires w.IsHost(id.host)
    ensures Total(AfterUnlock(w, id), it) + HostWeight(w.hosts[id.host], it)
            == Total(w, it) + Worth(ReleaseLock(w.hosts[id.host], id.host, id), it)
  {
    var h := w.hosts[id.host];
    var phase := if !h.isAgent then Granted else if id in h.holders then Done else EarlyReleased;
    AbsorbTotal(w.(held := w.held - {id}, reqs := Mark(w.reqs, {id}, phase)),
                id.host, ReleaseLock(h, id.host, id), it);
  }

  // ---- How the structure is kept ------------------------------------------------------

  lemma AbsorbStructure(w: World, h: nat, r: Reaction)
    requires Structured(w) && w.IsHost(h)
    requires HostFits(r.host, h, w.decider)
    requires forall m :: m in r.send ==> SwitchMsg(m, w.decider)
    ensures Structured(Absorb(w, h, r))
  {
  }

  lemma PopServerStructure(w: World, h: nat)
    requires Structured(w) && w.IsHost(h) && w.server[h] != []
    ensures Structured(PopServer(w, h))
    ensures ServerMsg(w.server[h][0], h, w.decider)
  {
    var q := w.server[h];
    assert NotesFirst(q);
    assert NotesFirst(q[1..]);
    assert q[0] in q;
  }

  /** Taking packet `i` of the client ports. */
  function PopClient(w: World, i: nat): World
    requires i < |w.client|
  {
    w.(client := RemoveAt(w.client, i))
  }

  lemma PopClientStructure(w: World, i: nat)
    requires Structured(w) && i < |w.client|
    ensures Structured(PopClient(w, i)) && ClientMsg(w.client[i], w.decider)
  {
  }

  /** Totals bound what any one message or host contributes. */
  lemma TotalHas(w: World, m: Msg, it: Item)
    requires m in w.toSwitch || m in w.client || exists h :: 0 <= h < |w.server| && m in w.server[h]
    ensures Total(w, it) >= MsgWeight(m, it)
  {
    if m in w.toSwitch {
      BagHas(w.toSwitch, m, it);
    } else if m in w.client {
      BagHas(w.client, m, it);
    } else {
      var h :| 0 <= h < |w.server| && m in w.server[h];
      QueuesHas(w.server, h, it);
      BagHas(w.server[h], m, it);
    }
  }

  /** The host with the agent role is the one the switch names, and the role is nowhere else. */
  lemma AgentHasToken(w: World, h: nat)
    requires Shaped(w) && AgentNamed(w) && OneToken(w)
    requires h < |w.hosts| && w.hosts[h].isAgent
    ensures w.decider.acquired && h == w.decider.agent
    ensures Total(w, GrantToken) == Total(w, GiveUpToken) == 0 && Total(w, HostToken) == 1
  {
    assert HostFits(w.hosts[h], h, w.decider);
    HostsHas(w.hosts, h, HostToken);
  }

  /** A holder recorded anywhere is a granted or early-released request. */
  lemma HolderKnown(w: World, h: nat, id: Id)
    requires HolderCounted(w, id) && h < |w.hosts|
    requires id in w.hosts[h].holders
    ensures w.InPhase(id, Granted) && Total(w, Note(id)) == Total(w, Seed(id)) == 0
  {
    HostsHas(w.hosts, h, Hold(id));
  }

  /** The holders and the early-release marks are all at the agent. */
  lemma AtAgent(w: World, id: Id)
    requires Shaped(w) && AgentNamed(w) && w.decider.acquired
    ensures var a := w.hosts[w.decider.agent];
            Total(w, Hold(id)) == One(id in a.holders) && Total(w, Early(id)) == One(id in a.early)
  {
    forall h | 0 <= h < |w.hosts| && h != w.decider.agent
      ensures HostWeight(w.hosts[h], Hold(id)) == 0 && HostWeight(w.hosts[h], Early(id)) == 0
    {
      assert HostFits(w.hosts[h], h, w.decider);
    }
    HostItemTotal(w, w.decider.agent, Hold(id));
    HostItemTotal(w, w.decider.agent, Early(id));
  }

  /** What giving up, or not, does to the agent role and the count. `x` is the agent after
      it dropped a holder or marked an early release. */
  lemma IdleTokens(w: World, w': World, x: Host)
    requires Structured(w) && OneToken(w) && TicksCounted(w) && w.decider.acquired
    requires Structured(w') && w'.decider == w.decider
    requires w.hosts[w.decider.agent].isAgent && x.isAgent && x.ncnt == w.hosts[w.decider.agent].ncnt
    requires w'.hosts[w.decider.agent] == GiveUpIfIdle(x, w.decider.agent).host
    requires forall it :: !Plain(it) || it == GrantToken ==>
               Total(w', it) + HostWeight(w.hosts[w.decider.agent], it) == Total(w, it) + IdleWorth(x, it)
    ensures OneToken(w') && TicksCounted(w') && GivingUp(w')
  {
    hide Total, IdleWorth, HostWeight, Channels, Fifo;
    AgentHasToken(w, w.decider.agent);
    IdleTokenWorth(x);
    HostTokenWorth(w.hosts[w.decider.agent]);
    assert Plain(GrantToken) && !Plain(HostToken) && !Plain(GiveUpToken) && !Plain(Tick);
    TickHas(w, w.decider.agent);
    SameModulo(Total(w, Tick), Total(w', Tick), x.ncnt);
  }

  /** Trading a count for its remainder keeps the sum modulo 256. */
  lemma SameModulo(a: nat, b: nat, n: nat)
    ensures a + n % 256 == b + n ==> a % 256 == b % 256
  {
  }

  lemma TickHas(w: World, h: nat)
    requires h < |w.hosts|
    ensures w.hosts[h].ncnt <= Total(w, Tick)
  {
    HostsHas(w.hosts, h, Tick);
  }

  /** Marking a granted request released keeps the modes. */
  lemma MarkModes(w: World, w': World, id: Id, phase: Phase)
    requires Modes(w) && w'.decider == w.decider && w'.reqs == Mark(w.reqs, {id}, phase)
    requires phase == Done || (phase == EarlyReleased && w.InPhase(id, Granted))
    ensures Modes(w')
  {
    forall a ensures ModeFits(w', a) {
      assert ModeFits(w, a);
    }
    forall a, b ensures w.decider.rw == Exclusive ==> Alone(w', a, b) {
      assert w.decider.rw == Exclusive ==> Alone(w, a, b);
    }
  }

  lemma SameModes(w: World, w': World)
    requires Modes(w) && w'.decider.rw == w.decider.rw && w'.decider.acquired == w.decider.acquired
    requires w'.reqs == w.reqs
    ensures Modes(w')
  {
    forall a ensures ModeFits(w', a) {
      assert ModeFits(w, a);
    }
    forall a, b ensures w.decider.rw == Exclusive ==> Alone(w', a, b) {
      assert w.decider.rw == Exclusive ==> Alone(w, a, b);
    }
  }

  lemma SameCounts(w: World, w': World)
    requires Counted(w) && w'.reqs == w.reqs && w'.held == w.held
    requires forall it :: Plain(it) && it != GrantToken ==> Total(w', it) == Total(w, it)
    ensures Counted(w')
  {
    hide Total;
    forall e ensures WantCounted(w', e) {
      assert WantCounted(w, e) && Plain(Want(e));
    }
    forall a ensures GrantCounted(w', a) {
      assert GrantCounted(w, a) && Plain(Grant(a)) && Plain(Rel(a));
    }
    forall a ensures HolderCounted(w', a) {
      assert HolderCounted(w, a) && Plain(Hold(a)) && Plain(Note(a)) && Plain(Seed(a)) && Plain(Early(a));
    }
  }

  /** A step that only moves items from one place to another. */
  lemma QuietKeeps(w: World, w': World)
    requires Inv(w) && Structured(w')
    requires w'.reqs == w.reqs && w'.held == w.held
    requires w'.decider.(count := w.decider.count) == w.decider
    requires w.decider.rw == Shared ==> w'.decider.count == w.decider.count
    requires |w'.hosts| == |w.hosts|
    requires forall h :: 0 <= h < |w.hosts| ==>
               w'.hosts[h].holders == w.hosts[h].holders && w'.hosts[h].ncnt == w.hosts[h].ncnt
    requires forall it :: Total(w', it) == Total(w, it)
    ensures Inv(w')
  {
    hide Total;
    SameCounts(w, w');
    SameModes(w, w');
  }

  /** A request whose packet is in a channel is waiting, so no host marks it released. */
  lemma AcquireWaits(w: World, id: Id, op: Mode, h: nat)
    requires Counted(w) && h < |w.hosts|
    requires Total(w, Want(Wqe(id, op))) > 0
    ensures id in w.reqs && w.reqs[id] == Request(op, Waiting)
    ensures id !in w.hosts[h].early && id !in w.hosts[h].holders
  {
    assert WantCounted(w, Wqe(id, op)) && HolderCounted(w, id);
    HostsHas(w.hosts, h, Early(id));
    HostsHas(w.hosts, h, Hold(id));
  }

  /** The agent drops a holder whose release it has seen. */
  lemma DropHolderCounts(w: World, w': World, id: Id)
    requires Counted(w) && w.InPhase(id, Granted)
    requires Total(w, Hold(id)) == 1 && Total(w, Grant(id)) == Total(w', Rel(id)) == 0 && id !in w'.held
    requires w'.reqs == Mark(w.reqs, {id}, Done) && w'.held + {id} == w.held + {id}
    requires forall it :: Plain(it) && it != Rel(id) ==>
               Total(w', it) + One(it == Hold(id)) == Total(w, it)
    ensures Counted(w')
  {
    hide Total;
    forall e ensures WantCounted(w', e) {
      assert WantCounted(w, e) && Plain(Want(e));
    }
    forall a ensures GrantCounted(w', a) {
      assert GrantCounted(w, a) && Plain(Grant(a)) && Plain(Rel(a));
      assert a != id ==> (a in w'.held <==> a in w'.held + {id}) && (a in w.held <==> a in w.held + {id});
    }
    forall a ensures HolderCounted(w', a) {
      assert HolderCounted(w, a) && Plain(Hold(a)) && Plain(Note(a)) && Plain(Seed(a)) && Plain(Early(a));
    }
  }

  /** A notification in flight is on the agent's server port. */
  lemma NoteAtAgent(w: World, id: Id)
    requires Structured(w) && Notify(id) !in w.server[w.decider.agent]
    ensures Total(w, Note(id)) == 0
  {
    HostsNone(w.hosts, Note(id));
    forall m | m in w.toSwitch ensures MsgWeight(m, Note(id)) == 0 {
      assert SwitchMsg(m, w.decider);
    }
    BagNone(w.toSwitch, Note(id));
    forall m | m in w.client ensures MsgWeight(m, Note(id)) == 0 {
      assert ClientMsg(m, w.decider);
    }
    BagNone(w.client, Note(id));
    forall h | 0 <= h < |w.server| ensures Bag(w.server[h], Note(id)) == 0 {
      forall m | m in w.server[h] ensures MsgWeight(m, Note(id)) == 0 {
        assert ServerMsg(m, h, w.decider);
      }
      BagNone(w.server[h], Note(id));
    }
    QueuesNone(w.server, Note(id));
  }
}
