/** Steps in which a host handles a packet. */
module HostSteps {
  import opened Messages
  import opened Deciders
  import opened Hosts
  import opened Protocol
  import opened Inventory
  import opened Weights
  import opened Invariant

  /** What the server port of `h` is about to deliver. */
  ghost predicate Arrives(w: World, h: nat, m: Msg) {
    w.IsHost(h) && w.server[h] != [] && w.server[h][0] == m
  }

  lemma ArrivingTotal(w: World, h: nat, m: Msg, it: Item)
    requires Arrives(w, h, m)
    ensures Total(w, it) >= MsgWeight(m, it)
  {
    PopServerTotal(w, h, it);
  }

  /** A reaction that fits the agent register and sends only packets the switch expects. */
  ghost predicate Fitting(r: Reaction, h: nat, d: Decider) {
    && HostFits(r.host, h, d)
    && forall m :: m in r.send ==> SwitchMsg(m, d)
  }

  lemma AfterServerStructure(w: World, h: nat, m: Msg)
    requires Structured(w) && Arrives(w, h, m)
    requires Fitting(OnPacket(w.hosts[h], h, m), h, w.decider)
    ensures Structured(AfterServer(w, h))
  {
    hide OnPacket;
    PopServerStructure(w, h);
    AbsorbStructure(PopServer(w, h).(reqs := Heard(w.reqs, w.hosts[h], m)), h, OnPacket(w.hosts[h], h, m));
  }

  lemma AcquireKeeps(w: World, h: nat, id: Id, op: Mode)
    requires Inv(w) && Arrives(w, h, Acquire(id, op))
    ensures Inv(AfterServer(w, h))
  {
    hide Total, Worth;
    var m := Acquire(id, op);
    var w' := AfterServer(w, h);
    ArrivingTotal(w, h, m, Want(Wqe(id, op)));
    AcquireWaits(w, id, op, h);
    forall it ensures Total(w', it) == Total(w, it) {
      AfterServerTotal(w, h, it);
      OnAcquireWorth(w.hosts[h], id, op, it);
    }
    assert HostFits(w.hosts[h], h, w.decider);
    AfterServerStructure(w, h, m);
    QuietKeeps(w, w');
  }

  // ---- Notifications ------------------------------------------------------------------

  lemma NotifyTotal(w: World, h: nat, id: Id, it: Item)
    requires Arrives(w, h, Notify(id)) && id !in w.hosts[h].holders
    ensures var n := Total(AfterServer(w, h), it) + One(it == Note(id));
            if id in w.hosts[h].early then n + One(it == Early(id)) == Total(w, it)
            else n == Total(w, it) + One(it == Hold(id))
  {
    hide Total, Worth, AfterServer, OnNotify;
    AfterServerTotal(w, h, it);
    OnNotifyWorth(w.hosts[h], id, it);
  }

  lemma NotifyCounts(w: World, w': World, id: Id, early: bool)
    requires Counted(w) && Total(w, Note(id)) > 0 && (early <==> w.InPhase(id, EarlyReleased))
    requires w'.held == w.held && w'.reqs == if early then Mark(w.reqs, {id}, Done) else w.reqs
    requires forall it :: Total(w', it) + One(it == Note(id)) + One(early && it == Early(id))
                          == Total(w, it) + One(!early && it == Hold(id))
    ensures Counted(w')
  {
    hide Total;
    forall e ensures WantCounted(w', e) {
      assert WantCounted(w, e);
    }
    forall a ensures GrantCounted(w', a) {
      assert GrantCounted(w, a);
    }
    forall a ensures HolderCounted(w', a) {
      assert HolderCounted(w, a);
    }
  }

  lemma NotifyStructure(w: World, h: nat, id: Id)
    requires Structured(w) && Arrives(w, h, Notify(id))
    ensures Structured(AfterServer(w, h))
  {
    hide Total;
    PopServerStructure(w, h);
    assert HostFits(w.hosts[h], h, w.decider);
    AfterServerStructure(w, h, Notify(id));
  }

  /** A notification becomes a holder entry, or cancels an early-release mark. */
  ghost predicate Notes(w: World, w': World, id: Id, early: bool, it: Item) {
    Total(w', it) + One(it == Note(id)) + One(early && it == Early(id)) == Total(w, it) + One(!early && it == Hold(id))
  }

  lemma AllNotes(w: World, h: nat, id: Id)
    requires Structured(w) && Counted(w) && Arrives(w, h, Notify(id))
    ensures forall it :: Notes(w, AfterServer(w, h), id, id in w.hosts[h].early, it)
  {
    hide Total, Channels, Fifo, AfterServer;
    NotifyFinds(w, h, id);
    ArrivingTotal(w, h, Notify(id), Note(id));
    assert HolderCounted(w, id);
    AtAgent(w, id);
    forall it ensures Notes(w, AfterServer(w, h), id, id in w.hosts[h].early, it) {
      NotifyTotal(w, h, id, it);
    }
  }

  lemma NotifyTokens(w: World, h: nat, id: Id)
    requires Inv(w) && Arrives(w, h, Notify(id)) && Structured(AfterServer(w, h))
    requires forall it :: Notes(w, AfterServer(w, h), id, id in w.hosts[h].early, it)
    ensures var w' := AfterServer(w, h); OneToken(w') && TicksCounted(w') && GivingUp(w')
  {
    hide Total, Channels, Fifo, Counted, Modes;
    var w', early := AfterServer(w, h), id in w.hosts[h].early;
    NotifyFinds(w, h, id);
    assert Notes(w, w', id, early, GrantToken) && Notes(w, w', id, early, HostToken);
    assert Notes(w, w', id, early, GiveUpToken) && Notes(w, w', id, early, Tick);
  }

  lemma NotifyKeeps(w: World, h: nat, id: Id)
    requires Inv(w) && Arrives(w, h, Notify(id))
    ensures Inv(AfterServer(w, h))
  {
    hide Total, Channels, Fifo, OneToken, TicksCounted, GivingUp;
    var w', early := AfterServer(w, h), id in w.hosts[h].early;
    NotifyStructure(w, h, id);
    NotifyFinds(w, h, id);
    AllNotes(w, h, id);
    NotifyTokens(w, h, id);
    ArrivingTotal(w, h, Notify(id), Note(id));
    assert HolderCounted(w, id);
    AtAgent(w, id);
    forall it ensures Total(w', it) + One(it == Note(id)) + One(early && it == Early(id))
                      == Total(w, it) + One(!early && it == Hold(id))
    {
      assert Notes(w, w', id, early, it);
    }
    NotifyCounts(w, w', id, early);
    hide Counted;
    if early {
      MarkModes(w, w', id, Done);
    } else {
      SameModes(w, w');
    }
  }

  lemma NotifyFinds(w: World, h: nat, id: Id)
    requires Structured(w) && Arrives(w, h, Notify(id))
    ensures h == w.decider.agent && w.decider.acquired
  {
    PopServerStructure(w, h);
  }

  // ---- RELEASE packets ----------------------------------------------------------------

  /** A RELEASE comes after the notification of its request, so the agent knows the holder. */
  lemma ReleaseFindsHolder(w: World, h: nat, id: Id)
    requires Structured(w) && Counted(w) && Arrives(w, h, Release(id))
    ensures h == w.decider.agent && w.decider.acquired && id in w.hosts[h].holders
    ensures w.InPhase(id, Granted) && Total(w, Hold(id)) == Total(w, Rel(id)) == 1
    ensures Total(w, Grant(id)) == 0 && id !in w.held
  {
    hide Total;
    PopServerStructure(w, h);
    ArrivingTotal(w, h, Release(id), Rel(id));
    assert GrantCounted(w, id) && HolderCounted(w, id);
    TotalPaired(w, Seed(id), Grant(id));
    AtAgent(w, id);
    var q := w.server[h];
    assert NotesFirst(q) && q[0] == Release(id);
    NoteAtAgent(w, id);
  }

  lemma ReleaseTotal(w: World, h: nat, id: Id, it: Item)
    requires Arrives(w, h, Release(id)) && id in w.hosts[h].holders
    ensures var x := w.hosts[h];
            var y := x.(holders := x.holders - {id});
            var n := Total(AfterServer(w, h), it) + One(it == Rel(id));
            && n + HostWeight(x, it) == Total(w, it) + (if x.isAgent then IdleWorth(y, it) else HostWeight(y, it))
            && (Plain(it) ==> n + One(it == Hold(id)) == Total(w, it))
  {
    hide Total, Worth, AfterServer, OnRelease;
    AfterServerTotal(w, h, it);
    OnReleaseWorth(w.hosts[h], h, id, it);
    RemoveHolderWeight(w.hosts[h], id, it);
  }

  lemma ReleaseFacts(w: World, h: nat, id: Id)
    requires Arrives(w, h, Release(id)) && id in w.hosts[h].holders
    ensures var w' := AfterServer(w, h);
            var x := w.hosts[h];
            var y := x.(holders := x.holders - {id});
            && w'.held == w.held && w'.decider == w.decider && |w'.hosts| == |w.hosts|
            && w'.reqs == Mark(w.reqs, {id}, Done)
            && w'.hosts[h] == if x.isAgent then GiveUpIfIdle(y, h).host else y.(delayedFree := true)
  {
  }

  lemma ReleaseStructure(w: World, h: nat, id: Id)
    requires Structured(w) && Arrives(w, h, Release(id)) && id in w.hosts[h].holders
    requires h == w.decider.agent
    ensures Structured(AfterServer(w, h))
  {
    assert HostFits(w.hosts[h], h, w.decider);
    AfterServerStructure(w, h, Release(id));
  }

  lemma ReleaseCounts(w: World, h: nat, id: Id)
    requires Structured(w) && Counted(w) && Arrives(w, h, Release(id))
    ensures Counted(AfterServer(w, h))
  {
    hide Total, AfterServer, IdleWorth, HostWeight;
    var w' := AfterServer(w, h);
    ReleaseFindsHolder(w, h, id);
    ReleaseFacts(w, h, id);
    forall it ensures Plain(it) ==> Total(w', it) + One(it == Rel(id)) + One(it == Hold(id)) == Total(w, it) {
      ReleaseTotal(w, h, id, it);
    }
    assert Plain(Rel(id));
    DropHolderCounts(w, w', id);
  }

  lemma ReleaseTokens(w: World, h: nat, id: Id)
    requires Structured(w) && Counted(w) && OneToken(w) && TicksCounted(w) && GivingUp(w)
    requires Arrives(w, h, Release(id)) && Structured(AfterServer(w, h))
    ensures var w' := AfterServer(w, h); OneToken(w') && TicksCounted(w') && GivingUp(w')
  {
    hide Total, AfterServer, IdleWorth, Counted, Channels, Fifo;
    var w' := AfterServer(w, h);
    var x := w.hosts[h];
    var y := x.(holders := x.holders - {id});
    ReleaseFindsHolder(w, h, id);
    ReleaseFacts(w, h, id);
    forall it ensures Total(w', it) + One(it == Rel(id)) + HostWeight(x, it)
                      == Total(w, it) + (if x.isAgent then IdleWorth(y, it) else HostWeight(y, it))
    {
      ReleaseTotal(w, h, id, it);
    }
    if x.isAgent {
      forall it | !Plain(it) || it == GrantToken ensures Total(w', it) + HostWeight(x, it) == Total(w, it) + IdleWorth(y, it) {
      }
      IdleTokens(w, w', y);
    }
  }

  lemma ReleaseKeeps(w: World, h: nat, id: Id)
    requires Inv(w) && Arrives(w, h, Release(id))
    ensures Inv(AfterServer(w, h))
  {
    hide AfterServer, Counted, Structured, OneToken, TicksCounted, GivingUp, Modes;
    ReleaseFindsHolder(w, h, id);
    ReleaseFacts(w, h, id);
    ReleaseStructure(w, h, id);
    ReleaseCounts(w, h, id);
    ReleaseTokens(w, h, id);
    MarkModes(w, AfterServer(w, h), id, Done);
  }

  // ---- Refused FREE and TRANSFER ------------------------------------------------------

  /** A refused packet finds its host without the agent role and in mode FREE. */
  lemma PushBackFinds(w: World, h: nat, m: Msg)
    requires Structured(w) && OneToken(w) && Arrives(w, h, m) && m.GivesUp()
    ensures h == w.decider.agent == m.from && w.decider.acquired && !w.hosts[h].isAgent
    ensures w.hosts[h].mode == Unlocked && m.oldMode == w.decider.rw == Shared && m.ncnt < 256
    ensures Total(w, GiveUpToken) == 1 && Total(w, HostToken) == Total(w, GrantToken) == 0
  {
    PopServerStructure(w, h);
    ArrivingTotal(w, h, m, GiveUpToken);
    assert HostFits(w.hosts[h], h, w.decider);
    HostsHas(w.hosts, h, HostToken);
  }

  lemma RetryTotal(w: World, h: nat, m: Msg, it: Item)
    requires Arrives(w, h, m) && m.GivesUp()
    requires w.hosts[h].delayedFree && w.hosts[h].holders == {}
    ensures var n := w.hosts[h].ncnt + m.ncnt;
            if it == Tick then Total(AfterServer(w, h), it) + n == Total(w, it) + n % 256
            else Total(AfterServer(w, h), it) == Total(w, it)
  {
    hide Total, Worth, AfterServer, OnPushBack;
    AfterServerTotal(w, h, it);
    RetryWorth(w.hosts[h], m, it);
  }

  lemma RestoreTotal(w: World, h: nat, m: Msg, it: Item)
    requires Arrives(w, h, m) && m.GivesUp() && !w.hosts[h].isAgent
    requires !(w.hosts[h].delayedFree && w.hosts[h].holders == {})
    ensures Total(AfterServer(w, h), it) + One(it == GiveUpToken) == Total(w, it) + One(it == HostToken)
  {
    hide Total, Worth, AfterServer, OnPushBack;
    AfterServerTotal(w, h, it);
    RestoreWorth(w.hosts[h], m, it);
  }

  lemma RetryKeeps(w: World, h: nat, m: Msg)
    requires Inv(w) && Arrives(w, h, m) && m.GivesUp()
    requires w.hosts[h].delayedFree && w.hosts[h].holders == {}
    ensures Inv(AfterServer(w, h))
  {
    hide Total, Worth;
    var w' := AfterServer(w, h);
    PushBackFinds(w, h, m);
    var n := w.hosts[h].ncnt + m.ncnt;
    forall it ensures if it == Tick then Total(w', it) + n == Total(w, it) + n % 256
                      else Total(w', it) == Total(w, it)
    {
      RetryTotal(w, h, m, it);
    }
    SameCounts(w, w');
    assert HostFits(w.hosts[h], h, w.decider);
    AfterServerStructure(w, h, m);
    SameModes(w, w');
  }

  lemma RestoreKeeps(w: World, h: nat, m: Msg)
    requires Inv(w) && Arrives(w, h, m) && m.GivesUp()
    requires !(w.hosts[h].delayedFree && w.hosts[h].holders == {})
    ensures Inv(AfterServer(w, h))
  {
    hide Total, Worth;
    var w' := AfterServer(w, h);
    PushBackFinds(w, h, m);
    forall it ensures Total(w', it) + One(it == GiveUpToken) == Total(w, it) + One(it == HostToken) {
      RestoreTotal(w, h, m, it);
    }
    SameCounts(w, w');
    assert HostFits(w.hosts[h], h, w.decider);
    AfterServerStructure(w, h, m);
    SameModes(w, w');
  }

  // ---- Grants without agent -----------------------------------------------------------

  lemma GrantedCounts(w: World, w': World, id: Id)
    requires Counted(w) && Total(w, Grant(id)) > 0
    requires w'.reqs == w.reqs && w'.held == w.held + {id}
    requires forall it :: Total(w', it) + One(it == Grant(id)) == Total(w, it)
    ensures Counted(w')
  {
    hide Total;
    forall e ensures WantCounted(w', e) {
      assert WantCounted(w, e);
    }
    forall a ensures GrantCounted(w', a) {
      assert GrantCounted(w, a);
    }
    forall a ensures HolderCounted(w', a) {
      assert HolderCounted(w, a);
    }
  }

  lemma GrantAtServerKeeps(w: World, h: nat, id: Id)
    requires Inv(w) && Arrives(w, h, GrantWithoutAgent(id))
    ensures Inv(AfterServer(w, h))
  {
    hide Total, Worth;
    var w' := AfterServer(w, h);
    ArrivingTotal(w, h, GrantWithoutAgent(id), Grant(id));
    forall it ensures Total(w', it) + One(it == Grant(id)) == Total(w, it) {
      AfterServerTotal(w, h, it);
      NotifiedWorth(w.hosts[h], id, it);
    }
    GrantedCounts(w, w', id);
    assert HostFits(w.hosts[h], h, w.decider);
    AfterServerStructure(w, h, GrantWithoutAgent(id));
    SameModes(w, w');
  }

  lemma NotifiedWorth(h: Host, id: Id, it: Item)
    ensures Worth(Reaction(h, [], {id}), it) == HostWeight(h, it)
  {
  }
}
