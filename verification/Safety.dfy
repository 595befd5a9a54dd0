/** The main results about the protocol: what holds in every state of every run. */
module Safety {
  import opened Messages
  import opened Deciders
  import opened Hosts
  import opened Protocol
  import opened Inventory
  import opened Weights
  import opened Invariant
  import opened ClientSteps
  import opened HostSteps
  import opened GrantSteps
  import opened SwitchSteps
  import opened EpochSteps

  // ---- Runs ---------------------------------------------------------------------------

  /** At every compare the 8-bit notification count has not come round. */
  ghost predicate Unwrapped(w: World, s: Step) {
    s.SwitchReceives? && s.i < |w.toSwitch| && w.toSwitch[s.i].GivesUp() ==>
      NoWrap(w, w.toSwitch[s.i])
  }

  /** `steps` can be taken one after the other. */
  ghost predicate Runs(w: World, steps: seq<Step>)
    decreases |steps|
  {
    steps == [] || (Enabled(w, steps[0]) && Runs(Next(w, steps[0]), steps[1..]))
  }

  /** `steps` can be taken, and the count comes round at none of them. */
  ghost predicate Legal(w: World, steps: seq<Step>)
    decreases |steps|
  {
    steps == [] ||
    (Enabled(w, steps[0]) && Unwrapped(w, steps[0]) && Legal(Next(w, steps[0]), steps[1..]))
  }

  ghost function End(w: World, steps: seq<Step>): World
    requires Runs(w, steps)
    decreases |steps|
  {
    if steps == [] then w else End(Next(w, steps[0]), steps[1..])
  }

  lemma {:induction false} LegalRuns(w: World, steps: seq<Step>)
    requires Legal(w, steps)
    ensures Runs(w, steps)
    decreases |steps|
  {
    if steps != [] {
      LegalRuns(Next(w, steps[0]), steps[1..]);
    }
  }

  // ---- The invariant holds throughout -------------------------------------------------

  lemma {:induction false} InitQueues(n: nat, it: Item)
    ensures Queues(seq<seq<Msg>>(n, i => []), it) == 0
  {
    if n > 0 {
      assert seq<seq<Msg>>(n, i => [])[1..] == seq(n - 1, i => []);
      InitQueues(n - 1, it);
    }
  }

  lemma {:induction false} InitHosts(n: nat, it: Item)
    ensures AllHosts(seq(n, i => IDLE), it) == 0
  {
    if n > 0 {
      assert seq(n, i => IDLE)[1..] == seq(n - 1, i => IDLE);
      InitHosts(n - 1, it);
    }
  }

  lemma InitInv(n: nat)
    ensures Inv(Init(n))
  {
    var w := Init(n);
    forall it ensures Total(w, it) == 0 {
      InitQueues(n + 1, it);
      InitHosts(n + 1, it);
    }
    hide Total;
  }

  lemma ServerKeeps(w: World, h: nat)
    requires Inv(w) && Enabled(w, ServerReceives(h))
    ensures Inv(AfterServer(w, h))
  {
    hide Total, AfterServer;
    var m := w.server[h][0];
    PopServerStructure(w, h);
    match m
    case Acquire(id, op) => AcquireKeeps(w, h, id, op);
    case Notify(id) => NotifyKeeps(w, h, id);
    case Release(id) => ReleaseKeeps(w, h, id);
    case GrantWithoutAgent(id) => GrantAtServerKeeps(w, h, id);
    case GrantWithAgent(_, _, _, _) =>
    case _ =>
      if w.hosts[h].delayedFree && w.hosts[h].holders == {} {
        RetryKeeps(w, h, m);
      } else {
        RestoreKeeps(w, h, m);
      }
  }

  lemma ClientKeeps(w: World, i: nat)
    requires Inv(w) && Enabled(w, ClientReceives(i))
    ensures Inv(AfterClient(w, i))
  {
    hide Total, AfterClient;
    var m := w.client[i];
    if m.GrantWithoutAgent? {
      GrantAtClientKeeps(w, i, m.id);
    } else if m.transferred && m.mode == Shared {
      DigestKeeps(w, i, m);
    } else {
      PromotionKeeps(w, i, m);
    }
  }

  lemma SwitchKeeps(w: World, i: nat)
    requires Inv(w) && Enabled(w, SwitchReceives(i)) && Unwrapped(w, SwitchReceives(i))
    ensures Inv(AfterSwitch(w, i))
  {
    hide Total, AfterSwitch;
    var m := w.toSwitch[i];
    PopSwitchStructure(w, i);
    match m
    case Acquire(id, op) =>
      if !w.decider.acquired {
        FirstGrantKeeps(w, i, id, op);
      } else if op == Shared && w.decider.rw == Shared {
        MulticastKeeps(w, i, id);
      } else {
        AcquireForwardKeeps(w, i, id, op);
      }
    case Release(id) => ReleaseForwardKeeps(w, i, id);
    case GrantWithoutAgent(id) => GrantForwardKeeps(w, i, id);
    case Notify(_) =>
    case GrantWithAgent(_, _, _, _) =>
    case _ =>
      if Refused(w.decider, m) {
        RefusalKeeps(w, i, m);
      } else if m.Free? {
        FreeKeeps(w, i, m);
      } else {
        TransferKeeps(w, i, m);
      }
  }

  lemma StepKeeps(w: World, s: Step)
    requires Inv(w) && Enabled(w, s) && Unwrapped(w, s)
    ensures Inv(Next(w, s))
  {
    hide Inv;
    match s
    case RequestLock(id, op) => RequestKeeps(w, id, op);
    case Unlock(id) =>
      if w.hosts[id.host].isAgent {
        LocalUnlockKeeps(w, id);
      } else {
        RemoteUnlockKeeps(w, id);
      }
    case SwitchReceives(i) => SwitchKeeps(w, i);
    case ServerReceives(h) => ServerKeeps(w, h);
    case ClientReceives(i) => ClientKeeps(w, i);
  }

  lemma {:induction false} RunKeeps(w: World, steps: seq<Step>)
    requires Inv(w) && Legal(w, steps)
    ensures Runs(w, steps) && Inv(End(w, steps))
    decreases |steps|
  {
    hide Inv;
    if steps != [] {
      StepKeeps(w, steps[0]);
      RunKeeps(Next(w, steps[0]), steps[1..]);
    }
  }

  /** A state of a run in which the count comes round at no compare. */
  ghost predicate Reached(w: World) {
    exists n: nat, steps :: Legal(Init(n), steps) && Runs(Init(n), steps) && w == End(Init(n), steps)
  }

  lemma ReachedInv(w: World)
    requires Reached(w)
    ensures Inv(w)
  {
    hide Inv, Init;
    var n: nat, steps :| Legal(Init(n), steps) && Runs(Init(n), steps) && w == End(Init(n), steps);
    InitInv(n);
    RunKeeps(Init(n), steps);
  }

  // ---- Mutual exclusion ---------------------------------------------------------------

  predicate IsGrant(m: Msg, id: Id) {
    (m.GrantWithAgent? || m.GrantWithoutAgent?) && m.id == id
  }

  ghost predicate InFlight(w: World, m: Msg) {
    m in w.toSwitch || m in w.client || exists h :: 0 <= h < |w.server| && m in w.server[h]
  }

  /** The request has a grant that is in flight, or held and not yet released. */
  ghost predicate Active(w: World, id: Id) {
    id in w.held || exists m :: InFlight(w, m) && IsGrant(m, id)
  }

  /** An active exclusive request excludes every other active request. */
  ghost predicate MutualExclusion(w: World) {
    forall a, b :: Active(w, a) && Active(w, b) && a != b ==>
      a in w.reqs && b in w.reqs && w.reqs[a].op == w.reqs[b].op == Shared
  }

  lemma ActiveIsGranted(w: World, id: Id)
    requires Inv(w) && Active(w, id)
    ensures w.InPhase(id, Granted)
  {
    hide Total;
    assert GrantCounted(w, id);
    if id !in w.held {
      var m :| InFlight(w, m) && IsGrant(m, id);
      TotalHas(w, m, Grant(id));
    }
  }

  lemma InvExcludes(w: World)
    requires Inv(w)
    ensures MutualExclusion(w)
  {
    hide Total;
    forall a, b | Active(w, a) && Active(w, b) && a != b
      ensures a in w.reqs && b in w.reqs && w.reqs[a].op == w.reqs[b].op == Shared
    {
      ActiveIsGranted(w, a);
      ActiveIsGranted(w, b);
      assert ModeFits(w, a) && ModeFits(w, b);
      assert w.decider.rw == Exclusive ==> Alone(w, a, b);
    }
  }

  /** In every state of every run, for any number of hosts and tasks. */
  lemma MutualExclusionAlways(n: nat, steps: seq<Step>)
    requires Legal(Init(n), steps)
    ensures Runs(Init(n), steps) && MutualExclusion(End(Init(n), steps))
  {
    InitInv(n);
    RunKeeps(Init(n), steps);
    InvExcludes(End(Init(n), steps));
  }

  // ---- Conservation of requests -------------------------------------------------------

  /** Every request that has no grant yet is in exactly one place (an ACQUIRE packet, a wait
      queue, or the head or payload of a TRANSFER or of the grant it became), and nothing
      else is queued anywhere. */
  ghost predicate RequestsConserved(w: World) {
    forall e :: Total(w, Want(e)) == One(e.id in w.reqs && w.reqs[e.id] == Request(e.op, Waiting))
  }

  lemma RequestsConservedAlways(n: nat, steps: seq<Step>)
    requires Legal(Init(n), steps)
    ensures Runs(Init(n), steps) && RequestsConserved(End(Init(n), steps))
  {
    InitInv(n);
    RunKeeps(Init(n), steps);
    var w := End(Init(n), steps);
    hide Total;
    forall e ensures Total(w, Want(e)) == One(e.id in w.reqs && w.reqs[e.id] == Request(e.op, Waiting)) {
      assert WantCounted(w, e);
    }
  }

  // ---- The agent role -----------------------------------------------------------------

  /** The agent role is in exactly one place, the switch names its host, and that host's
      mode is the switch's. */
  ghost predicate OneAgent(w: World) {
    && One(!w.decider.acquired) + Total(w, GrantToken) + Total(w, HostToken) + Total(w, GiveUpToken) == 1
    && (forall h :: 0 <= h < |w.hosts| && w.hosts[h].isAgent ==>
          h == w.decider.agent && w.hosts[h].mode == Locked(w.decider.rw))
    && (forall m :: InFlight(w, m) && m.GrantWithAgent? ==>
          m.id.host == w.decider.agent && m.mode == w.decider.rw)
    && (forall m :: InFlight(w, m) && m.GivesUp() ==>
          m.from == w.decider.agent && m.oldMode == w.decider.rw)
  }

  lemma OneAgentAlways(n: nat, steps: seq<Step>)
    requires Legal(Init(n), steps)
    ensures Runs(Init(n), steps) && OneAgent(End(Init(n), steps))
  {
    InitInv(n);
    RunKeeps(Init(n), steps);
    var w := End(Init(n), steps);
    hide Total;
    forall h | 0 <= h < |w.hosts| && w.hosts[h].isAgent
      ensures h == w.decider.agent && w.hosts[h].mode == Locked(w.decider.rw)
    {
      assert HostFits(w.hosts[h], h, w.decider);
    }
    forall m | InFlight(w, m)
      ensures m.GrantWithAgent? ==> m.id.host == w.decider.agent && m.mode == w.decider.rw
      ensures m.GivesUp() ==> m.from == w.decider.agent && m.oldMode == w.decider.rw
    {
      if m in w.toSwitch {
        assert SwitchMsg(m, w.decider);
      } else if m in w.client {
        assert ClientMsg(m, w.decider);
      } else {
        var h :| 0 <= h < |w.server| && m in w.server[h];
        assert ServerMsg(m, h, w.decider);
      }
    }
  }

  /** The handlers' debug assertions that step `s` evaluates. */
  ghost predicate StepAsserts(w: World, s: Step)
    requires Enabled(w, s)
  {
    match s
    case ServerReceives(h) => AssertionsHold(w.hosts[h], w.server[h][0])
    case ClientReceives(i) => AssertionsHold(w.hosts[w.client[i].id.host], w.client[i])
    case Unlock(id) => w.hosts[id.host].isAgent ==> w.hosts[id.host].mode != Unlocked
    case _ => true
  }

  lemma InvAsserts(w: World, s: Step)
    requires Inv(w) && Enabled(w, s)
    ensures StepAsserts(w, s)
  {
    hide Total;
    match s
    case ServerReceives(h) =>
      assert HostFits(w.hosts[h], h, w.decider);
      PopServerStructure(w, h);
      if w.server[h][0].GivesUp() {
        PushBackFinds(w, h, w.server[h][0]);
      }
    case ClientReceives(i) =>
      if w.client[i].GrantWithAgent? {
        PromotionFinds(w, i, w.client[i]);
      }
    case Unlock(id) =>
      assert HostFits(w.hosts[id.host], id.host, w.decider);
    case _ =>
  }

  /** No debug assertion of the handlers ever fires. */
  lemma AssertionsNeverFire(n: nat, steps: seq<Step>, s: Step)
    requires Legal(Init(n), steps)
    ensures Runs(Init(n), steps)
    ensures Enabled(End(Init(n), steps), s) ==> StepAsserts(End(Init(n), steps), s)
  {
    InitInv(n);
    RunKeeps(Init(n), steps);
    if Enabled(End(Init(n), steps), s) {
      InvAsserts(End(Init(n), steps), s);
    }
  }

  // ---- The notification count ---------------------------------------------------------

  /** The switch's count, modulo 256, is the count of all hosts, plus the counts in FREE and
      TRANSFER packets, plus the notifications in flight, plus one for an unprocessed first
      grant; outside a shared epoch none of these is left over. */
  lemma CountAlways(n: nat, steps: seq<Step>)
    requires Legal(Init(n), steps)
    ensures Runs(Init(n), steps)
    ensures var w := End(Init(n), steps);
            if w.decider.rw == Shared then w.decider.count == Total(w, Tick) % 256
            else Total(w, Tick) == 0
  {
    InitInv(n);
    RunKeeps(Init(n), steps);
  }

  /** The exact strength of the compare: the switch accepts a FREE or TRANSFER from shared
      mode just when a multiple of 256 goes unreported, and accepting means that everything
      was reported just when that multiple is not a positive one. */
  lemma CompareExactly(w: World, i: nat, m: Msg)
    requires Inv(w) && Reaches(w, i, m) && m.GivesUp() && m.oldMode == Shared
    ensures Unreported(w, m) >= 0
    ensures !Refused(w.decider, m) <==> Unreported(w, m) % 256 == 0
    ensures (!Refused(w.decider, m) ==> Unreported(w, m) == 0) <==> NoWrap(w, m)
  {
    hide Total;
    GiveUpFinds(w, i, m);
    PopSwitchTotal(w, i, m, Tick);
    var rest := Total(PopSwitch(w, i), Tick);
    assert rest == Unreported(w, m);
    assert w.decider.count == (rest + m.ncnt) % 256;
  }

  /** With fewer than 256 grants unreported, an accepted FREE or TRANSFER means that no
      notification is in flight and every reader of the epoch has released. */
  lemma CompareSound(n: nat, steps: seq<Step>, i: nat)
    requires Legal(Init(n), steps)
    ensures Runs(Init(n), steps)
    ensures var w := End(Init(n), steps);
            i < |w.toSwitch| && w.toSwitch[i].GivesUp() && !Refused(w.decider, w.toSwitch[i])
            && (w.toSwitch[i].oldMode == Shared ==> Unreported(w, w.toSwitch[i]) < 256) ==>
              && (forall id :: !InFlight(w, Notify(id)) && !Active(w, id))
              && NobodyGranted(w)
  {
    hide Inv, Refused, Unreported;
    InitInv(n);
    RunKeeps(Init(n), steps);
    var w := End(Init(n), steps);
    if i < |w.toSwitch| && w.toSwitch[i].GivesUp() && !Refused(w.decider, w.toSwitch[i])
       && (w.toSwitch[i].oldMode == Shared ==> Unreported(w, w.toSwitch[i]) < 256) {
      AcceptedMeansOver(w, i, w.toSwitch[i]);
    }
  }

  lemma AcceptedMeansOver(w: World, i: nat, m: Msg)
    requires Inv(w) && Reaches(w, i, m) && m.GivesUp() && !Refused(w.decider, m)
    requires m.oldMode == Shared ==> Unreported(w, m) < 256
    ensures forall id :: !InFlight(w, Notify(id)) && !Active(w, id)
    ensures NobodyGranted(w)
  {
    hide Total;
    if m.oldMode == Shared {
      CompareExactly(w, i, m);
    }
    hide Inv, Refused, Unreported;
    AcceptedEndsEpoch(w, i, m);
    forall id ensures !InFlight(w, Notify(id)) && !Active(w, id) {
      if InFlight(w, Notify(id)) {
        TotalHas(w, Notify(id), Note(id));
      }
      if Active(w, id) {
        ActiveIsGranted(w, id);
      }
    }
  }
}
