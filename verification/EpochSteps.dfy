/** Steps that begin or end an epoch: the first grant of a free lock, and a FREE or TRANSFER
    that the switch accepts. The heart of the safety argument is `AcceptedEndsEpoch`. */
module EpochSteps {
  import opened Messages
  import opened Deciders
  import opened Hosts
  import opened Protocol
  import opened Inventory
  import opened Weights
  import opened Invariant
  import opened SwitchSteps

  /** Counted notifications that FREE or TRANSFER `m` does not report: still in flight, or
      received after `m` was sent. */
  ghost function Unreported(w: World, m: Msg): int
    requires m.GivesUp()
  {
    Total(w, Tick) - m.ncnt
  }

  /** The 8-bit counter has not come round: no positive multiple of 256 goes unreported. */
  ghost predicate NoWrap(w: World, m: Msg)
    requires m.GivesUp()
  {
    m.oldMode == Shared && Unreported(w, m) % 256 == 0 ==> Unreported(w, m) == 0
  }

  /** No grant is outstanding. */
  ghost predicate NobodyGranted(w: World) {
    forall id :: !w.InPhase(id, Granted) && !w.InPhase(id, EarlyReleased)
  }

  // ---- Worlds between epochs ----------------------------------------------------------

  ghost predicate QuietHost(h: Host) {
    Clean(h) && h.mode == Unlocked
  }

  ghost predicate QuietServerMsg(m: Msg, h: nat) {
    m.Acquire? || (m.GrantWithoutAgent? && m.id.host == h)
  }

  /** No host and no packet depends on the switch's registers. */
  ghost predicate Quiet(w: World) {
    && Shaped(w) && Fifo(w) && w.server[0] == []
    && (forall h :: 0 <= h < |w.hosts| ==> QuietHost(w.hosts[h]))
    && (forall m :: m in w.toSwitch ==> !m.Notify? && !m.GrantWithAgent? && !m.GivesUp())
    && (forall m :: m in w.client ==> m.GrantWithoutAgent?)
    && (forall h, m :: 0 <= h < |w.server| && m in w.server[h] ==> QuietServerMsg(m, h))
  }

  /** The registers of a quiet world can be set freely. */
  lemma QuietStructure(w: World, d: Decider)
    requires Quiet(w) && d.count < 256
    requires if d.acquired then w.IsHost(d.agent) else d.agent == 0 && d.rw == Shared
    ensures Structured(w.(decider := d))
  {
    var w' := w.(decider := d);
    forall h | 0 <= h < |w.hosts| ensures HostFits(w.hosts[h], h, d) {
      assert QuietHost(w.hosts[h]);
    }
    forall h, m | 0 <= h < |w.server| && m in w.server[h] ensures ServerMsg(m, h, d) {
      assert QuietServerMsg(m, h);
    }
  }

  /** Without tokens, notifications or releases in flight, and with a clean agent, a world
      is quiet. */
  lemma BecomesQuiet(w: World)
    requires Structured(w) && Total(w, GiveUpToken) == Total(w, GrantToken) == 0
    requires forall id :: Total(w, Note(id)) == 0
    requires forall id :: Total(w, Rel(id)) == 0
    requires w.decider.acquired ==> QuietHost(w.hosts[w.decider.agent])
    ensures Quiet(w)
  {
    forall h | 0 <= h < |w.hosts| ensures QuietHost(w.hosts[h]) {
      assert HostFits(w.hosts[h], h, w.decider);
    }
    forall m | m in w.toSwitch ensures !m.Notify? && !m.GrantWithAgent? && !m.GivesUp() {
      assert SwitchMsg(m, w.decider);
      TotalHas(w, m, GiveUpToken);
    }
    forall m | m in w.client ensures m.GrantWithoutAgent? {
      assert ClientMsg(m, w.decider);
      TotalHas(w, m, GrantToken);
    }
    forall h, m | 0 <= h < |w.server| && m in w.server[h] ensures QuietServerMsg(m, h) {
      assert ServerMsg(m, h, w.decider);
      TotalHas(w, m, GiveUpToken);
      if m.Notify? {
        TotalHas(w, m, Note(m.id));
      } else if m.Release? {
        TotalHas(w, m, Rel(m.id));
      }
    }
  }

  // ---- An accepted FREE or TRANSFER ends the epoch ------------------------------------

  /** If the compare succeeds, every notification of the epoch has been counted. */
  lemma AcceptedIsReported(w: World, i: nat, m: Msg)
    requires Inv(w) && Reaches(w, i, m) && m.GivesUp() && !Refused(w.decider, m) && NoWrap(w, m)
    ensures Total(PopSwitch(w, i), Tick) == 0
  {
    hide Total;
    GiveUpFinds(w, i, m);
    PopSwitchTotal(w, i, m, Tick);
    if m.oldMode == Shared {
      var rest := Total(PopSwitch(w, i), Tick);
      assert rest + m.ncnt == Total(w, Tick);
      assert Total(w, Tick) % 256 == m.ncnt;
    }
  }

  /** With everything counted, the agent records no holder, so every reader has released. */
  lemma AcceptedEndsEpoch(w: World, i: nat, m: Msg)
    requires Inv(w) && Reaches(w, i, m) && m.GivesUp() && !Refused(w.decider, m) && NoWrap(w, m)
    ensures NobodyGranted(w) && w.hosts[w.decider.agent].holders == {}
    ensures forall id :: Total(w, Note(id)) == 0
  {
    hide Total;
    var v := PopSwitch(w, i);
    AcceptedIsReported(w, i, m);
    GiveUpFinds(w, i, m);
    TickHas(v, w.decider.agent);
    assert GivingUp(w);
    forall id ensures Total(w, Note(id)) == 0 && !w.InPhase(id, Granted) && !w.InPhase(id, EarlyReleased) {
      TotalPaired(v, Note(id), Tick);
      PopSwitchTotal(w, i, m, Note(id));
      TotalPaired(w, Seed(id), GrantToken);
      AtAgent(w, id);
      assert HolderCounted(w, id);
    }
  }

  lemma AcceptedIsQuiet(w: World, i: nat, m: Msg)
    requires Inv(w) && Reaches(w, i, m) && m.GivesUp() && !Refused(w.decider, m) && NoWrap(w, m)
    ensures Quiet(PopSwitch(w, i))
  {
    hide Total;
    var v := PopSwitch(w, i);
    var a := w.hosts[w.decider.agent];
    AcceptedIsReported(w, i, m);
    AcceptedEndsEpoch(w, i, m);
    GiveUpFinds(w, i, m);
    PopSwitchStructure(w, i);
    PopSwitchTotal(w, i, m, GiveUpToken);
    PopSwitchTotal(w, i, m, GrantToken);
    forall id ensures Total(v, Note(id)) == 0 {
      PopSwitchTotal(w, i, m, Note(id));
    }
    forall id ensures Total(v, Rel(id)) == 0 {
      PopSwitchTotal(w, i, m, Rel(id));
      assert GrantCounted(w, id);
    }
    assert HostFits(a, w.decider.agent, w.decider);
    TickHas(v, w.decider.agent);
    NotAgent(w, w.decider.agent);
    forall id ensures id !in a.early {
      AtAgent(w, id);
      assert HolderCounted(w, id);
    }
    assert a.early == {};
    BecomesQuiet(v);
  }

  lemma NotAgent(w: World, h: nat)
    requires h < |w.hosts| && Total(w, HostToken) == 0
    ensures !w.hosts[h].isAgent
  {
    HostsHas(w.hosts, h, HostToken);
  }

  /** A FREE that the switch accepts leaves a free lock. */
  lemma FreeKeeps(w: World, i: nat, m: Msg)
    requires Inv(w) && Reaches(w, i, m) && m.Free? && !Refused(w.decider, m) && NoWrap(w, m)
    ensures Inv(AfterSwitch(w, i))
  {
    hide Total;
    var v := PopSwitch(w, i);
    var w' := v.(decider := INITIAL);
    GiveUpFinds(w, i, m);
    AcceptedIsReported(w, i, m);
    AcceptedEndsEpoch(w, i, m);
    AcceptedIsQuiet(w, i, m);
    assert Mark(w.reqs, {}, Granted) == w.reqs;
    assert AfterSwitch(w, i) == w';
    QuietStructure(v, INITIAL);
    forall it ensures Total(w', it) == Total(v, it) && Total(w', it) + MsgWeight(m, it) == Total(w, it) {
      PopSwitchTotal(w, i, m, it);
      SameTotal(v, w', it);
    }
    SameCounts(w, w');
    forall a ensures ModeFits(w', a) {
      assert !w.InPhase(a, Granted);
    }
  }

  lemma SameTotal(w: World, w': World, it: Item)
    requires w'.hosts == w.hosts && w'.toSwitch == w.toSwitch && w'.server == w.server && w'.client == w.client
    ensures Total(w', it) == Total(w, it)
  {
  }

  // ---- A new epoch --------------------------------------------------------------------

  /** Quiet world `v` after the switch made `e` the first holder of a new epoch. */
  function Begun(v: World, e: Wqe, count: nat, transferred: bool, wq: seq<Wqe>): World {
    Post(v.(decider := Decider(true, e.op, e.id.host, count), reqs := Mark(v.reqs, {e.id}, Granted)),
         ToClient(GrantWithAgent(e.id, e.op, transferred, wq)))
  }

  lemma BegunStructure(v: World, e: Wqe, count: nat, transferred: bool, wq: seq<Wqe>)
    requires Quiet(v) && v.IsHost(e.id.host) && count < 256 && (transferred || wq == [])
    ensures Structured(Begun(v, e, count, transferred, wq))
  {
    var d := Decider(true, e.op, e.id.host, count);
    QuietStructure(v.(reqs := Mark(v.reqs, {e.id}, Granted)), d);
    PostClientStructure(v.(decider := d, reqs := Mark(v.reqs, {e.id}, Granted)),
                        GrantWithAgent(e.id, e.op, transferred, wq));
  }

  lemma BegunTotal(v: World, e: Wqe, count: nat, transferred: bool, wq: seq<Wqe>, it: Item)
    ensures Total(Begun(v, e, count, transferred, wq), it)
            == Total(v, it) + MsgWeight(GrantWithAgent(e.id, e.op, transferred, wq), it)
  {
    var d := Decider(true, e.op, e.id.host, count);
    PostTotal(v.(decider := d, reqs := Mark(v.reqs, {e.id}, Granted)),
              ToClient(GrantWithAgent(e.id, e.op, transferred, wq)), it);
  }

  /** How the totals move when `e` stops waiting and becomes the first holder. */
  ghost predicate Begins(w: World, w': World, e: Wqe, it: Item) {
    Total(w', it) + One(it == Want(e))
    == Total(w, it) + One(it == Grant(e.id)) + One(it == Seed(e.id)) + One(it == GrantToken)
  }

  lemma BegunCounts(w: World, w': World, e: Wqe)
    requires Counted(w) && e.id in w.reqs && w.reqs[e.id] == Request(e.op, Waiting)
    requires w'.reqs == Mark(w.reqs, {e.id}, Granted) && w'.held == w.held
    requires forall it :: Plain(it) ==> Begins(w, w', e, it)
    ensures Counted(w')
  {
    hide Total;
    forall x ensures WantCounted(w', x) {
      assert WantCounted(w, x) && Plain(Want(x)) && Begins(w, w', e, Want(x));
    }
    forall a ensures GrantCounted(w', a) {
      assert GrantCounted(w, a) && Begins(w, w', e, Grant(a)) && Begins(w, w', e, Rel(a));
    }
    forall a ensures HolderCounted(w', a) {
      assert HolderCounted(w, a) && Begins(w, w', e, Hold(a)) && Begins(w, w', e, Note(a));
      assert Begins(w, w', e, Seed(a)) && Begins(w, w', e, Early(a));
    }
  }

  lemma BegunModes(w: World, w': World, e: Wqe)
    requires NobodyGranted(w) && e.id in w.reqs && w.reqs[e.id].op == e.op
    requires w'.reqs == Mark(w.reqs, {e.id}, Granted)
    requires w'.decider.acquired && w'.decider.rw == e.op
    ensures Modes(w')
  {
    forall a ensures ModeFits(w', a) {
      assert !w.InPhase(a, Granted);
    }
    forall a, b ensures Alone(w', a, b) {
      assert !w.InPhase(a, Granted) && !w.InPhase(b, Granted);
    }
  }

  /** A TRANSFER that the switch accepts starts the epoch of its first waiter. */
  lemma TransferKeeps(w: World, i: nat, m: Msg)
    requires Inv(w) && Reaches(w, i, m) && m.Transfer? && !Refused(w.decider, m) && NoWrap(w, m)
    ensures Inv(AfterSwitch(w, i))
  {
    hide Total;
    var v := PopSwitch(w, i);
    var w' := Begun(v, m.next, 0, true, m.wq);
    GiveUpFinds(w, i, m);
    AcceptedIsReported(w, i, m);
    AcceptedEndsEpoch(w, i, m);
    AcceptedIsQuiet(w, i, m);
    ReachingTotal(w, i, m, Want(m.next));
    AcquireWaits(w, m.next.id, m.next.op, 0);
    TransferStep(w, i, m);
    BegunStructure(v, m.next, 0, true, m.wq);
    forall it ensures Plain(it) ==> Begins(w, w', m.next, it) {
      PopSwitchTotal(w, i, m, it);
      BegunTotal(v, m.next, 0, true, m.wq, it);
    }
    BegunCounts(w, w', m.next);
    BegunModes(w, w', m.next);
    TransferTokens(w, i, m);
  }

  lemma TransferStep(w: World, i: nat, m: Msg)
    requires Reaches(w, i, m) && m.Transfer? && !Refused(w.decider, m) && w.decider.acquired
    ensures AfterSwitch(w, i) == Begun(PopSwitch(w, i), m.next, 0, true, m.wq)
  {
    PostOne(PopSwitch(w, i).(decider := Decider(true, m.next.op, m.next.id.host, 0),
                             reqs := Mark(w.reqs, {m.next.id}, Granted)),
            ToClient(GrantWithAgent(m.next.id, m.next.op, true, m.wq)));
  }

  lemma TransferTokens(w: World, i: nat, m: Msg)
    requires Inv(w) && Reaches(w, i, m) && m.Transfer? && w.IsHost(m.next.id.host)
    requires Total(PopSwitch(w, i), Tick) == 0 && Quiet(PopSwitch(w, i))
    ensures var w' := Begun(PopSwitch(w, i), m.next, 0, true, m.wq);
            OneToken(w') && TicksCounted(w') && Shaped(w') && AgentNamed(w') && GivingUp(w')
  {
    hide Total;
    var v := PopSwitch(w, i);
    BegunStructure(v, m.next, 0, true, m.wq);
    GiveUpFinds(w, i, m);
    PopSwitchTotal(w, i, m, GiveUpToken);
    PopSwitchTotal(w, i, m, HostToken);
    PopSwitchTotal(w, i, m, GrantToken);
    BegunTotal(v, m.next, 0, true, m.wq, GiveUpToken);
    BegunTotal(v, m.next, 0, true, m.wq, HostToken);
    BegunTotal(v, m.next, 0, true, m.wq, GrantToken);
    BegunTotal(v, m.next, 0, true, m.wq, Tick);
  }

  // ---- The first grant of a free lock -------------------------------------------------

  lemma FreeIsQuiet(w: World)
    requires Inv(w) && !w.decider.acquired
    ensures Quiet(w) && NobodyGranted(w)
  {
    hide Total;
    forall id ensures !w.InPhase(id, Granted) && !w.InPhase(id, EarlyReleased)
                      && Total(w, Note(id)) == 0 && Total(w, Rel(id)) == 0
    {
      assert ModeFits(w, id) && HolderCounted(w, id) && GrantCounted(w, id);
    }
    BecomesQuiet(w);
  }

  lemma QuietTicks(w: World)
    requires Quiet(w)
    ensures Total(w, Tick) == 0
  {
    forall h | 0 <= h < |w.hosts| ensures HostWeight(w.hosts[h], Tick) == 0 {
      assert QuietHost(w.hosts[h]);
    }
    HostsNone(w.hosts, Tick);
    BagNone(w.toSwitch, Tick);
    BagNone(w.client, Tick);
    forall h | 0 <= h < |w.server| ensures Bag(w.server[h], Tick) == 0 {
      forall m | m in w.server[h] ensures MsgWeight(m, Tick) == 0 {
        assert QuietServerMsg(m, h);
      }
      BagNone(w.server[h], Tick);
    }
    QueuesNone(w.server, Tick);
  }

  lemma QuietPop(w: World, i: nat)
    requires Quiet(w) && i < |w.toSwitch|
    ensures Quiet(PopSwitch(w, i))
  {
  }

  function FirstCount(op: Mode): nat {
    if op == Shared then 1 else 0
  }

  lemma FirstStep(w: World, i: nat, id: Id, op: Mode)
    requires Reaches(w, i, Acquire(id, op)) && !w.decider.acquired && w.decider.count == 0
    ensures AfterSwitch(w, i) == Begun(PopSwitch(w, i), Wqe(id, op), FirstCount(op), false, [])
  {
    PostOne(PopSwitch(w, i).(decider := Decider(true, op, id.host, FirstCount(op)),
                             reqs := Mark(w.reqs, {id}, Granted)),
            ToClient(GrantWithAgent(id, op, false, [])));
  }

  lemma FirstTokens(w: World, i: nat, id: Id, op: Mode)
    requires Inv(w) && !w.decider.acquired && Reaches(w, i, Acquire(id, op)) && w.IsHost(id.host)
    requires Quiet(PopSwitch(w, i)) && Total(w, Tick) == 0
    ensures var w' := Begun(PopSwitch(w, i), Wqe(id, op), FirstCount(op), false, []);
            OneToken(w') && TicksCounted(w') && Shaped(w') && AgentNamed(w') && GivingUp(w')
  {
    hide Total;
    var v := PopSwitch(w, i);
    var e := Wqe(id, op);
    BegunStructure(v, e, FirstCount(op), false, []);
    PopSwitchTotal(w, i, Acquire(id, op), GiveUpToken);
    PopSwitchTotal(w, i, Acquire(id, op), HostToken);
    PopSwitchTotal(w, i, Acquire(id, op), GrantToken);
    PopSwitchTotal(w, i, Acquire(id, op), Tick);
    BegunTotal(v, e, FirstCount(op), false, [], GiveUpToken);
    BegunTotal(v, e, FirstCount(op), false, [], HostToken);
    BegunTotal(v, e, FirstCount(op), false, [], GrantToken);
    BegunTotal(v, e, FirstCount(op), false, [], Tick);
  }

  lemma FirstGrantKeeps(w: World, i: nat, id: Id, op: Mode)
    requires Inv(w) && Reaches(w, i, Acquire(id, op)) && !w.decider.acquired
    ensures Inv(AfterSwitch(w, i))
  {
    hide Total;
    var v := PopSwitch(w, i);
    var e := Wqe(id, op);
    var w' := Begun(v, e, FirstCount(op), false, []);
    FreeIsQuiet(w);
    QuietTicks(w);
    QuietPop(w, i);
    ReachingTotal(w, i, Acquire(id, op), Want(e));
    AcquireWaits(w, id, op, 0);
    FirstStep(w, i, id, op);
    BegunStructure(v, e, FirstCount(op), false, []);
    forall it ensures Plain(it) ==> Begins(w, w', e, it) {
      PopSwitchTotal(w, i, Acquire(id, op), it);
      BegunTotal(v, e, FirstCount(op), false, [], it);
    }
    BegunCounts(w, w', e);
    BegunModes(w, w', e);
    FirstTokens(w, i, id, op);
  }
}
