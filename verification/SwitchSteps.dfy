/** Steps in which the switch handles a packet. */
module SwitchSteps {
  import opened Messages
  import opened Deciders
  import opened Hosts
  import opened Protocol
  import opened Inventory
  import opened Weights
  import opened Invariant

  /** Packet `i` of those on their way to the switch is `m`. */
  ghost predicate Reaches(w: World, i: nat, m: Msg) {
    i < |w.toSwitch| && w.toSwitch[i] == m
  }

  function PopSwitch(w: World, i: nat): World
    requires i < |w.toSwitch|
  {
    w.(toSwitch := RemoveAt(w.toSwitch, i))
  }

  lemma PopSwitchTotal(w: World, i: nat, m: Msg, it: Item)
    requires Reaches(w, i, m)
    ensures Total(PopSwitch(w, i), it) + MsgWeight(m, it) == Total(w, it)
  {
    BagRemove(w.toSwitch, i, it);
  }

  lemma PopSwitchStructure(w: World, i: nat)
    requires Structured(w) && i < |w.toSwitch|
    ensures Structured(PopSwitch(w, i)) && SwitchMsg(w.toSwitch[i], w.decider)
  {
  }

  lemma PostServerStructure(w: World, h: nat, m: Msg)
    requires Structured(w) && w.IsHost(h) && ServerMsg(m, h, w.decider)
    requires m.Notify? ==> Release(m.id) !in w.server[h]
    ensures Structured(Post(w, ToServer(h, m)))
  {
    var q := w.server[h] + [m];
    assert NotesFirst(w.server[h]);
    assert NotesFirst(q);
  }

  lemma PostClientStructure(w: World, m: Msg)
    requires Structured(w) && ClientMsg(m, w.decider)
    ensures Structured(Post(w, ToClient(m)))
  {
  }

  // ---- Packets the switch passes on ---------------------------------------------------

  /** The switch forwards packet `i` as it is to host `h`; `n` is its new count. */
  lemma ForwardKeeps(w: World, i: nat, m: Msg, h: nat, n: nat)
    requires Inv(w) && Reaches(w, i, m) && w.IsHost(h) && n < 256
    requires ServerMsg(m, h, w.decider) && !m.Notify?
    requires w.decider.rw == Shared ==> n == w.decider.count
    ensures Inv(Post(PopSwitch(w, i).(decider := w.decider.(count := n)), ToServer(h, m)))
  {
    var v := PopSwitch(w, i).(decider := w.decider.(count := n));
    var w' := Post(v, ToServer(h, m));
    PopSwitchStructure(w, i);
    CountStructure(PopSwitch(w, i), n);
    PostServerStructure(v, h, m);
    forall it ensures Total(w', it) == Total(w, it) {
      PopSwitchTotal(w, i, m, it);
      PostTotal(v, ToServer(h, m), it);
    }
    hide Total;
    QuietKeeps(w, w');
  }

  lemma CountStructure(w: World, n: nat)
    requires Structured(w) && n < 256
    ensures Structured(w.(decider := w.decider.(count := n)))
  {
    var w' := w.(decider := w.decider.(count := n));
    forall h | 0 <= h < |w.hosts| ensures HostFits(w.hosts[h], h, w'.decider) {
      assert HostFits(w.hosts[h], h, w.decider);
    }
    forall m | m in w.toSwitch ensures SwitchMsg(m, w'.decider) {
      assert SwitchMsg(m, w.decider);
    }
    forall m | m in w.client ensures ClientMsg(m, w'.decider) {
      assert ClientMsg(m, w.decider);
    }
    forall h, m | 0 <= h < |w.server| && m in w.server[h] ensures ServerMsg(m, h, w'.decider) {
      assert ServerMsg(m, h, w.decider);
    }
  }

  /** The switch passes packet `i` on unchanged. */
  ghost predicate Forwards(w: World, i: nat, m: Msg, h: nat, n: nat) {
    && Decide(w.decider, m) == Decision(w.decider.(count := n), [ToServer(h, m)])
    && SwitchGrants(w.decider, m) == {}
  }

  lemma PostOne(w: World, d: Delivery)
    ensures PostAll(w, [d]) == Post(w, d)
  {
    assert [d][1..] == [];
  }

  lemma PostTwo(w: World, d: Delivery, e: Delivery)
    ensures PostAll(w, [d, e]) == Post(Post(w, d), e)
  {
    assert [d, e][1..] == [e];
    PostOne(Post(w, d), e);
  }

  lemma ForwardStep(w: World, i: nat, m: Msg, h: nat, n: nat)
    requires Reaches(w, i, m) && Forwards(w, i, m, h, n)
    ensures AfterSwitch(w, i) == Post(PopSwitch(w, i).(decider := w.decider.(count := n)), ToServer(h, m))
  {
    assert Mark(w.reqs, {}, Granted) == w.reqs;
    PostOne(PopSwitch(w, i).(decider := w.decider.(count := n)), ToServer(h, m));
  }

  lemma ReachingTotal(w: World, i: nat, m: Msg, it: Item)
    requires Reaches(w, i, m)
    ensures Total(w, it) >= MsgWeight(m, it)
  {
    PopSwitchTotal(w, i, m, it);
  }

  lemma AcquireForwardKeeps(w: World, i: nat, id: Id, op: Mode)
    requires Inv(w) && Reaches(w, i, Acquire(id, op))
    requires w.decider.acquired && (op == Exclusive || w.decider.rw == Exclusive)
    ensures Inv(AfterSwitch(w, i))
  {
    var n := if op == Shared then CountUp(w.decider.count) else w.decider.count;
    ForwardStep(w, i, Acquire(id, op), w.decider.agent, n);
    ForwardKeeps(w, i, Acquire(id, op), w.decider.agent, n);
  }

  lemma ReleaseForwardKeeps(w: World, i: nat, id: Id)
    requires Inv(w) && Reaches(w, i, Release(id))
    ensures Inv(AfterSwitch(w, i))
  {
    hide Total;
    ReachingTotal(w, i, Release(id), Rel(id));
    assert GrantCounted(w, id) && ModeFits(w, id);
    ForwardStep(w, i, Release(id), w.decider.agent, w.decider.count);
    ForwardKeeps(w, i, Release(id), w.decider.agent, w.decider.count);
  }

  lemma GrantForwardKeeps(w: World, i: nat, id: Id)
    requires Inv(w) && Reaches(w, i, GrantWithoutAgent(id))
    ensures Inv(AfterSwitch(w, i))
  {
    hide Total;
    ReachingTotal(w, i, GrantWithoutAgent(id), Grant(id));
    assert GrantCounted(w, id);
    ForwardStep(w, i, GrantWithoutAgent(id), id.host, w.decider.count);
    ForwardKeeps(w, i, GrantWithoutAgent(id), id.host, w.decider.count);
  }

  /** A FREE or TRANSFER reaches the switch only while the lock is taken. */
  lemma GiveUpFinds(w: World, i: nat, m: Msg)
    requires Structured(w) && OneToken(w) && Reaches(w, i, m) && m.GivesUp()
    ensures w.decider.acquired && m.from == w.decider.agent && m.oldMode == w.decider.rw && m.ncnt < 256
    ensures Total(w, GiveUpToken) == 1 && Total(w, HostToken) == Total(w, GrantToken) == 0
  {
    PopSwitchStructure(w, i);
    ReachingTotal(w, i, m, GiveUpToken);
  }

  lemma RefusalKeeps(w: World, i: nat, m: Msg)
    requires Inv(w) && Reaches(w, i, m) && m.GivesUp() && Refused(w.decider, m)
    ensures Inv(AfterSwitch(w, i))
  {
    hide Total;
    GiveUpFinds(w, i, m);
    ForwardStep(w, i, m, m.from, w.decider.count);
    ForwardKeeps(w, i, m, m.from, w.decider.count);
  }

  // ---- A second reader: notification and grant ----------------------------------------

  function Multicast(w: World, i: nat, id: Id): World
    requires i < |w.toSwitch|
  {
    Post(Post(PopSwitch(w, i).(decider := w.decider.(count := CountUp(w.decider.count)),
                               reqs := Mark(w.reqs, {id}, Granted)),
              ToServer(w.decider.agent, Notify(id))),
         ToClient(GrantWithoutAgent(id)))
  }

  lemma MulticastStep(w: World, i: nat, id: Id)
    requires Reaches(w, i, Acquire(id, Shared)) && w.decider.acquired && w.decider.rw == Shared
    ensures AfterSwitch(w, i) == Multicast(w, i, id)
  {
    PostTwo(PopSwitch(w, i).(decider := w.decider.(count := CountUp(w.decider.count)),
                             reqs := Mark(w.reqs, {id}, Granted)),
            ToServer(w.decider.agent, Notify(id)), ToClient(GrantWithoutAgent(id)));
  }

  lemma MulticastTotal(w: World, i: nat, id: Id, it: Item)
    requires Reaches(w, i, Acquire(id, Shared)) && w.IsHost(w.decider.agent)
    ensures Total(Multicast(w, i, id), it) + One(it == Want(Wqe(id, Shared)))
            == Total(w, it) + One(it == Note(id)) + One(it == Tick) + One(it == Grant(id))
  {
    PopSwitchTotal(w, i, Acquire(id, Shared), it);
    var v := PopSwitch(w, i).(decider := w.decider.(count := CountUp(w.decider.count)),
                              reqs := Mark(w.reqs, {id}, Granted));
    PostTotal(v, ToServer(w.decider.agent, Notify(id)), it);
    PostTotal(Post(v, ToServer(w.decider.agent, Notify(id))), ToClient(GrantWithoutAgent(id)), it);
    assert Total(v, it) == Total(PopSwitch(w, i), it);
    hide Total;
  }

  lemma MulticastCounts(w: World, w': World, id: Id)
    requires Counted(w) && w.InPhase(id, Waiting) && w.reqs[id].op == Shared
    requires w'.reqs == Mark(w.reqs, {id}, Granted) && w'.held == w.held
    requires forall it :: Total(w', it) + One(it == Want(Wqe(id, Shared)))
                          == Total(w, it) + One(it == Note(id)) + One(it == Tick) + One(it == Grant(id))
    ensures Counted(w')
  {
    hide Total;
    forall e ensures WantCounted(w', e) {
      assert WantCounted(w, e);
    }
    forall a ensures GrantCounted(w', a) {
      assert GrantCounted(w, a);
    }
    forall a ensures HolderCounted(w', a) {
      assert HolderCounted(w, a);
    }
  }

  lemma MulticastStructure(w: World, i: nat, id: Id)
    requires Structured(w) && Reaches(w, i, Acquire(id, Shared)) && w.decider.acquired
    requires Release(id) !in w.server[w.decider.agent]
    ensures Structured(Multicast(w, i, id))
  {
    PopSwitchStructure(w, i);
    CountStructure(PopSwitch(w, i), CountUp(w.decider.count));
    var v := PopSwitch(w, i).(decider := w.decider.(count := CountUp(w.decider.count)),
                              reqs := Mark(w.reqs, {id}, Granted));
    PostServerStructure(v, w.decider.agent, Notify(id));
    PostClientStructure(Post(v, ToServer(w.decider.agent, Notify(id))), GrantWithoutAgent(id));
  }

  /** A waiting request has sent no RELEASE. */
  lemma WaitingHasNoRelease(w: World, id: Id, h: nat)
    requires Counted(w) && w.InPhase(id, Waiting) && h < |w.server|
    ensures Release(id) !in w.server[h]
  {
    assert GrantCounted(w, id);
    if Release(id) in w.server[h] {
      TotalHas(w, Release(id), Rel(id));
    }
  }

  lemma GrantModes(w: World, w': World, id: Id)
    requires Modes(w) && w.decider.rw == Shared && w.decider.acquired
    requires w'.decider.rw == Shared && w'.decider.acquired
    requires w'.reqs == Mark(w.reqs, {id}, Granted) && (id in w.reqs ==> w.reqs[id].op == Shared)
    ensures Modes(w')
  {
    forall a ensures ModeFits(w', a) {
      assert ModeFits(w, a);
    }
  }

  lemma MulticastKeeps(w: World, i: nat, id: Id)
    requires Inv(w) && Reaches(w, i, Acquire(id, Shared)) && w.decider.acquired && w.decider.rw == Shared
    ensures Inv(AfterSwitch(w, i))
  {
    hide Total;
    var w' := Multicast(w, i, id);
    MulticastStep(w, i, id);
    ReachingTotal(w, i, Acquire(id, Shared), Want(Wqe(id, Shared)));
    AcquireWaits(w, id, Shared, 0);
    WaitingHasNoRelease(w, id, w.decider.agent);
    forall it ensures Total(w', it) + One(it == Want(Wqe(id, Shared)))
                      == Total(w, it) + One(it == Note(id)) + One(it == Tick) + One(it == Grant(id))
    {
      MulticastTotal(w, i, id, it);
    }
    MulticastCounts(w, w', id);
    MulticastStructure(w, i, id);
    GrantModes(w, w', id);
  }
}
