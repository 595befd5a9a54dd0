/** A run in which a refused TRANSFER comes back behind a request that its host queued ahead of
    time: the writer that was queued later stands, and is granted, first. */
module Overtaking {
  import opened Messages
  import opened Deciders
  import opened Hosts
  import opened Protocol
  import opened Invariant
  import opened EpochSteps
  import opened Safety
  import opened Outcomes
  import opened QueueOrder
  import opened ArrivalOrder
  import opened GrantOnce

  const FIRST := Id(1, 0)                    // the agent's own reader
  const READER := Id(2, 0)
  const EARLY := Wqe(Id(2, 1), Exclusive)
  const LATE := Wqe(Id(2, 2), Exclusive)

  /** Host 2 only asks; everything happens at host 1. */
  function At1(d: Decider, host: Host, toSwitch: seq<Msg>, server: seq<Msg>, client: seq<Msg>,
               held: set<Id>, reqs: map<Id, Request>): World {
    World(d, [IDLE, host, IDLE], toSwitch, [[], server, []], client, held, reqs)
  }

  function Shares(count: nat): Decider {
    Decider(true, Shared, 1, count)
  }

  function Agent(ncnt: nat, holders: set<Id>, wqueue: seq<Wqe>): Host {
    Host(Locked(Shared), true, ncnt, holders, wqueue, {}, false, map[])
  }

  function Away(ncnt: nat, holders: set<Id>, wqueue: seq<Wqe>, fwdBack: map<Id, nat>): Host {
    Host(Unlocked, false, ncnt, holders, wqueue, {}, false, fwdBack)
  }

  // ---- Runs ---------------------------------------------------------------------------

  ghost predicate Leads(log: seq<Wqe>, w: World, steps: seq<Step>, log': seq<Wqe>, w': World) {
    Legal(w, steps) && Runs(w, steps) && End(w, steps) == w' && Arrivals(log, w, steps) == log'
  }

  lemma LeadsOne(log: seq<Wqe>, w: World, s: Step, log': seq<Wqe>, w': World)
    requires Enabled(w, s) && Unwrapped(w, s) && w' == Next(w, s) && log' == log + Entered(w, s)
    ensures Leads(log, w, [s], log', w')
  {
    assert [s][1..] == [];
  }

  lemma {:induction false} LeadsOn(log: seq<Wqe>, w: World, a: seq<Step>, log1: seq<Wqe>, w1: World,
                                   b: seq<Step>, log2: seq<Wqe>, w2: World)
    requires Leads(log, w, a, log1, w1) && Leads(log1, w1, b, log2, w2)
    ensures Leads(log, w, a + b, log2, w2)
    decreases |a|
  {
    hide Next, Enabled, Unwrapped, Entered;
    if a == [] {
      assert a + b == b;
    } else {
      assert (a + b)[1..] == a[1..] + b && (a + b)[0] == a[0];
      LeadsOn(log + Entered(w, a[0]), Next(w, a[0]), a[1..], log1, w1, b, log2, w2);
    }
  }

  /** A step that queues nothing for the first time and delivers no FREE or TRANSFER. */
  lemma Plain(log: seq<Wqe>, w: World, s: Step, w': World)
    requires Enabled(w, s) && Unwrapped(w, s) && w' == Next(w, s) && Entered(w, s) == []
    ensures Leads(log, w, [s], log, w')
  {
    assert log + [] == log;
    LeadsOne(log, w, s, log, w');
  }

  // ---- The worlds of the run -----------------------------------------------------------

  const WAITS := Request(Exclusive, Waiting)
  const HELD := {FIRST}
  const GIVEN := Transfer(EARLY, [], Shared, 1, 1)
  const ASKS := Acquire(LATE.id, Exclusive)
  const JOINS := GrantWithAgent(FIRST, Shared, false, [])

  /** The requests, with the phase of the agent's own reader. */
  function Known(first: Phase, rest: map<Id, Request>): map<Id, Request> {
    map[FIRST := Request(Shared, first)] + rest
  }

  const ONE := map[EARLY.id := WAITS]
  const TWO := ONE[READER := Request(Shared, Granted)]
  const ALL := TWO[LATE.id := WAITS]

  function V1(): World {
    At1(INITIAL, IDLE, [Acquire(FIRST, Shared)], [], [], {}, Known(Waiting, map[]))
  }

  function V2(): World {
    At1(Shares(1), IDLE, [], [], [JOINS], {}, Known(Granted, map[]))
  }

  function V3(): World {
    At1(Shares(1), Agent(1, {FIRST}, []), [], [], [], HELD, Known(Granted, map[]))
  }

  function V4(): World {
    At1(Shares(1), Agent(1, {FIRST}, []), [Acquire(EARLY.id, Exclusive)], [], [], HELD, Known(Granted, ONE))
  }

  function V5(): World {
    At1(Shares(1), Agent(1, {FIRST}, []), [], [Acquire(EARLY.id, Exclusive)], [], HELD, Known(Granted, ONE))
  }

  function V6(): World {
    At1(Shares(1), Agent(1, {FIRST}, [EARLY]), [], [], [], HELD, Known(Granted, ONE))
  }

  function V7(): World {
    At1(Shares(1), Agent(1, {FIRST}, [EARLY]), [Acquire(READER, Shared)], [], [], HELD,
        Known(Granted, ONE[READER := Request(Shared, Waiting)]))
  }

  function V8(): World {
    At1(Shares(2), Agent(1, {FIRST}, [EARLY]), [], [Notify(READER)], [GrantWithoutAgent(READER)], HELD, Known(Granted, TWO))
  }

  /** The TRANSFER is on its way, the notification not handled. */
  function V9(): World {
    At1(Shares(2), Away(0, {}, [], map[]), [GIVEN], [Notify(READER)], [GrantWithoutAgent(READER)], {}, Known(Done, TWO))
  }

  function V10(): World {
    At1(Shares(2), Away(0, {}, [], map[]), [GIVEN, ASKS], [Notify(READER)], [GrantWithoutAgent(READER)], {}, Known(Done, ALL))
  }

  function V11(): World {
    At1(Shares(2), Away(0, {}, [], map[]), [GIVEN], [Notify(READER), ASKS], [GrantWithoutAgent(READER)], {}, Known(Done, ALL))
  }

  function Counter(k: nat): map<Id, nat> {
    if k == 0 then map[] else map[LATE.id := k]
  }

  /** The later writer's request is at the host, which has sent it back `k` times. */
  function Here(k: nat): World {
    At1(Shares(2), Away(1, {READER}, [], Counter(k)), [GIVEN], [ASKS], [GrantWithoutAgent(READER)], {}, Known(Done, ALL))
  }

  function There(k: nat): World {
    At1(Shares(2), Away(1, {READER}, [], Counter(k)), [GIVEN, ASKS], [], [GrantWithoutAgent(READER)], {}, Known(Done, ALL))
  }

  function Ahead1(): World {
    At1(Shares(2), Away(1, {READER}, [LATE], map[]), [GIVEN], [], [GrantWithoutAgent(READER)], {}, Known(Done, ALL))
  }

  function Refused1(): World {
    At1(Shares(2), Away(1, {READER}, [LATE], map[]), [], [GIVEN], [GrantWithoutAgent(READER)], {}, Known(Done, ALL))
  }

  /** The refused queue is back, behind the later writer. */
  function Restored1(): World {
    At1(Shares(2), Agent(2, {READER}, [LATE, EARLY]), [], [], [GrantWithoutAgent(READER)], {}, Known(Done, ALL))
  }

  // ---- The steps -----------------------------------------------------------------------

  /** The server ports with one packet more or less for host 1. */
  lemma Boxes(q: seq<Msg>, m: Msg)
    ensures var ports: seq<seq<Msg>> := [[], q, []];
            && ports[1 := q + [m]] == [[], q + [m], []]
            && (q != [] ==> ports[1 := q[1..]] == [[], q[1..], []])
    ensures [] + [m] == [m] && [m][1..] == []
  {
  }

  lemma S1()
    ensures Leads([], Init(2), [RequestLock(FIRST, Shared)], [], V1())
  {
    var w := Init(2);
    assert w == At1(INITIAL, IDLE, [], [], [], {}, map[]);
    assert w.hosts[1 := IDLE] == w.hosts;
    Plain([], w, RequestLock(FIRST, Shared), Next(w, RequestLock(FIRST, Shared)));
  }

  lemma S2()
    ensures Leads([], V1(), [SwitchReceives(0)], [], V2())
  {
    hide PostAll;
    Posted(V1(), 0);
    assert RemoveAt(V1().toSwitch, 0) == [];
    assert Mark(V1().reqs, {FIRST}, Granted) == Known(Granted, map[]);
    Plain([], V1(), SwitchReceives(0), Next(V1(), SwitchReceives(0)));
  }

  lemma S3()
    ensures Leads([], V2(), [ClientReceives(0)], [], V3())
  {
    var w := V2();
    assert RemoveAt(w.client, 0) == [];
    assert Mark(w.reqs, {}, Granted) == w.reqs;
    assert IDLE.holders + {FIRST} == {FIRST};
    assert OnPacket(IDLE, 1, JOINS) == Reaction(Agent(1, {FIRST}, []), [], {FIRST});
    assert w.hosts[1 := Agent(1, {FIRST}, [])] == [IDLE, Agent(1, {FIRST}, []), IDLE];
    Plain([], w, ClientReceives(0), Next(w, ClientReceives(0)));
  }

  lemma S4()
    ensures Leads([], V3(), [RequestLock(EARLY.id, Exclusive)], [], V4())
  {
    var w := V3();
    assert w.hosts[2 := IDLE] == w.hosts;
    assert w.reqs[EARLY.id := WAITS] == Known(Granted, ONE);
    Plain([], w, RequestLock(EARLY.id, Exclusive), Next(w, RequestLock(EARLY.id, Exclusive)));
  }

  lemma S5()
    ensures Leads([], V4(), [SwitchReceives(0)], [], V5())
  {
    hide PostAll;
    var w := V4();
    Posted(w, 0);
    assert RemoveAt(w.toSwitch, 0) == [];
    assert Mark(w.reqs, {}, Granted) == w.reqs;
    Boxes(w.server[1], Acquire(EARLY.id, Exclusive));
    Plain([], w, SwitchReceives(0), Next(w, SwitchReceives(0)));
  }

  lemma S6()
    ensures Leads([], V5(), [ServerReceives(1)], [EARLY], V6())
  {
    var w := V5();
    assert w.hosts[1 := Agent(1, {FIRST}, [EARLY])] == [IDLE, Agent(1, {FIRST}, [EARLY]), IDLE];
    assert [] + [EARLY] == [EARLY];
    Boxes(w.server[1], w.server[1][0]);
    LeadsOne([], w, ServerReceives(1), [EARLY], Next(w, ServerReceives(1)));
  }

  lemma S7()
    ensures Leads([EARLY], V6(), [RequestLock(READER, Shared)], [EARLY], V7())
  {
    var w := V6();
    assert w.hosts[2 := IDLE] == w.hosts;
    assert w.reqs[READER := Request(Shared, Waiting)] == V7().reqs;
    Plain([EARLY], w, RequestLock(READER, Shared), Next(w, RequestLock(READER, Shared)));
  }

  lemma Counts()
    ensures Decide(Shares(1), Acquire(READER, Shared))
            == Decision(Shares(2), [ToServer(1, Notify(READER)), ToClient(GrantWithoutAgent(READER))])
  {
  }

  lemma S8()
    ensures Leads([EARLY], V7(), [SwitchReceives(0)], [EARLY], V8())
  {
    hide PostAll, Decide;
    var w := V7();
    Counts();
    Posted(w, 0);
    assert RemoveAt(w.toSwitch, 0) == [];
    assert Mark(w.reqs, {READER}, Granted) == Known(Granted, TWO);
    Boxes(w.server[1], Notify(READER));
    assert AfterSwitch(w, 0) == V8();
    Plain([EARLY], w, SwitchReceives(0), V8());
  }

  lemma S9()
    ensures Leads([EARLY], V8(), [Unlock(FIRST)], [EARLY], V9())
  {
    var w := V8();
    assert {FIRST} - {FIRST} == {} && [EARLY][1..] == [];
    assert ReleaseLock(w.hosts[1], 1, FIRST) == Reaction(Away(0, {}, [], map[]), [GIVEN], {});
    assert w.hosts[1 := Away(0, {}, [], map[])] == V9().hosts;
    assert Mark(w.reqs, {FIRST}, Done) == Known(Done, TWO);
    Plain([EARLY], w, Unlock(FIRST), Next(w, Unlock(FIRST)));
  }

  lemma S10()
    ensures Leads([EARLY], V9(), [RequestLock(LATE.id, Exclusive)], [EARLY], V10())
  {
    var w := V9();
    assert w.hosts[2 := IDLE] == w.hosts;
    assert w.reqs[LATE.id := WAITS] == Known(Done, ALL);
    Plain([EARLY], w, RequestLock(LATE.id, Exclusive), Next(w, RequestLock(LATE.id, Exclusive)));
  }

  lemma S11()
    ensures Leads([EARLY], V10(), [SwitchReceives(1)], [EARLY], V11())
  {
    hide PostAll;
    var w := V10();
    Posted(w, 1);
    assert RemoveAt(w.toSwitch, 1) == [GIVEN];
    assert Mark(w.reqs, {}, Granted) == w.reqs;
    Boxes(w.server[1], ASKS);
    assert [Notify(READER)] + [ASKS] == [Notify(READER), ASKS];
    Plain([EARLY], w, SwitchReceives(1), Next(w, SwitchReceives(1)));
  }

  lemma S12()
    ensures Leads([EARLY], V11(), [ServerReceives(1)], [EARLY], Here(0))
  {
    var w := V11();
    assert OnPacket(w.hosts[1], 1, Notify(READER)) == Reaction(Away(1, {READER}, [], map[]), [], {});
    assert w.hosts[1 := Away(1, {READER}, [], map[])] == Here(0).hosts;
    Boxes(w.server[1], w.server[1][0]);
    Plain([EARLY], w, ServerReceives(1), Next(w, ServerReceives(1)));
  }

  lemma Back(k: nat)
    requires k < 3
    ensures Leads([EARLY], Here(k), [ServerReceives(1)], [EARLY], There(k + 1))
  {
    var w := Here(k);
    assert OnPacket(w.hosts[1], 1, ASKS) == Reaction(Away(1, {READER}, [], Counter(k + 1)), [ASKS], {});
    assert w.hosts[1 := Away(1, {READER}, [], Counter(k + 1))] == There(k + 1).hosts;
    Boxes(w.server[1], w.server[1][0]);
    Plain([EARLY], w, ServerReceives(1), Next(w, ServerReceives(1)));
  }

  lemma Again(k: nat)
    ensures Leads([EARLY], There(k), [SwitchReceives(1)], [EARLY], Here(k))
  {
    hide PostAll;
    var w := There(k);
    Posted(w, 1);
    assert RemoveAt(w.toSwitch, 1) == [GIVEN];
    assert Mark(w.reqs, {}, Granted) == w.reqs;
    Boxes(w.server[1], ASKS);
    Plain([EARLY], w, SwitchReceives(1), Next(w, SwitchReceives(1)));
  }

  lemma FourthTime()
    ensures OnPacket(Here(3).hosts[1], 1, ASKS) == Reaction(Away(1, {READER}, [LATE], map[]), [], {})
  {
    assert Counter(3) - {LATE.id} == map[];
    assert [] + [LATE] == [LATE];
  }

  lemma Queues()
    ensures Leads([EARLY], Here(3), [ServerReceives(1)], [EARLY, LATE], Ahead1())
  {
    hide OnPacket;
    var w := Here(3);
    FourthTime();
    assert w.hosts[1 := Away(1, {READER}, [LATE], map[])] == Ahead1().hosts;
    Boxes(w.server[1], ASKS);
    assert AfterServer(w, 1) == Ahead1();
    assert Entered(w, ServerReceives(1)) == [LATE];
    assert [EARLY] + [LATE] == [EARLY, LATE];
    LeadsOne([EARLY], w, ServerReceives(1), [EARLY, LATE], Ahead1());
  }

  /** The switch has counted one notification more than the packet reports. */
  lemma Refuses()
    requires Inv(Ahead1())
    ensures Leads([EARLY, LATE], Ahead1(), [SwitchReceives(0)], [EARLY, LATE], Refused1())
  {
    assert NoWrap(Ahead1(), GIVEN) by { NoMultiple(Ahead1()); }
    RefusedStep();
    hide Inv, NoWrap, AfterSwitch, Refused1;
    Plain([EARLY, LATE], Ahead1(), SwitchReceives(0), Refused1());
  }

  lemma RefusedStep()
    ensures AfterSwitch(Ahead1(), 0) == Refused1()
  {
    hide PostAll, Decide;
    var w := Ahead1();
    Differs();
    Posted(w, 0);
    assert RemoveAt(w.toSwitch, 0) == [];
    assert Mark(w.reqs, {}, Granted) == w.reqs;
    Boxes(w.server[1], GIVEN);
  }

  lemma Differs()
    ensures Decide(Shares(2), GIVEN) == Decision(Shares(2), [ToServer(1, GIVEN)])
  {
  }

  lemma NoMultiple(w: World)
    requires Inv(w) && w.decider == Shares(2)
    ensures NoWrap(w, GIVEN)
  {
  }

  lemma Restores()
    ensures Leads([EARLY, LATE], Refused1(), [ServerReceives(1)], [EARLY, LATE], Restored1())
  {
    var w := Refused1();
    assert [LATE] + [EARLY] + [] == [LATE, EARLY];
    assert OnPacket(w.hosts[1], 1, GIVEN) == Reaction(Agent(2, {READER}, [LATE, EARLY]), [], {});
    assert w.hosts[1 := Agent(2, {READER}, [LATE, EARLY])] == Restored1().hosts;
    Boxes(w.server[1], w.server[1][0]);
    Plain([EARLY, LATE], w, ServerReceives(1), Next(w, ServerReceives(1)));
  }

  // ---- The whole run -------------------------------------------------------------------

  lemma Join(log: seq<Wqe>, w: World, a: seq<Step>, log1: seq<Wqe>, w1: World, s: Step, log2: seq<Wqe>, w2: World)
    requires Leads(log, w, a, log1, w1) && Leads(log1, w1, [s], log2, w2)
    ensures Leads(log, w, a + [s], log2, w2)
  {
    LeadsOn(log, w, a, log1, w1, [s], log2, w2);
  }

  /** Until the agent has sent its queue off. */
  lemma GivesUp() returns (steps: seq<Step>)
    ensures Leads([], Init(2), steps, [EARLY], V9())
  {
    hide Leads;
    S1();
    S2();
    S3();
    S4();
    S5();
    S6();
    S7();
    S8();
    S9();
    steps := [RequestLock(FIRST, Shared)];
    Join([], Init(2), steps, [], V1(), SwitchReceives(0), [], V2());
    steps := steps + [SwitchReceives(0)];
    Join([], Init(2), steps, [], V2(), ClientReceives(0), [], V3());
    steps := steps + [ClientReceives(0)];
    Join([], Init(2), steps, [], V3(), RequestLock(EARLY.id, Exclusive), [], V4());
    steps := steps + [RequestLock(EARLY.id, Exclusive)];
    Join([], Init(2), steps, [], V4(), SwitchReceives(0), [], V5());
    steps := steps + [SwitchReceives(0)];
    Join([], Init(2), steps, [], V5(), ServerReceives(1), [EARLY], V6());
    steps := steps + [ServerReceives(1)];
    Join([], Init(2), steps, [EARLY], V6(), RequestLock(READER, Shared), [EARLY], V7());
    steps := steps + [RequestLock(READER, Shared)];
    Join([], Init(2), steps, [EARLY], V7(), SwitchReceives(0), [EARLY], V8());
    steps := steps + [SwitchReceives(0)];
    Join([], Init(2), steps, [EARLY], V8(), Unlock(FIRST), [EARLY], V9());
    steps := steps + [Unlock(FIRST)];
  }

  /** Until the later request is at the host for the fourth time. */
  lemma ComesBack() returns (steps: seq<Step>)
    ensures Leads([], Init(2), steps, [EARLY], Here(3))
  {
    hide Leads, Here, There;
    steps := GivesUp();
    S10();
    S11();
    S12();
    Join([], Init(2), steps, [EARLY], V9(), RequestLock(LATE.id, Exclusive), [EARLY], V10());
    steps := steps + [RequestLock(LATE.id, Exclusive)];
    Join([], Init(2), steps, [EARLY], V10(), SwitchReceives(1), [EARLY], V11());
    steps := steps + [SwitchReceives(1)];
    Join([], Init(2), steps, [EARLY], V11(), ServerReceives(1), [EARLY], Here(0));
    steps := steps + [ServerReceives(1)];
    ghost var k := 0;
    while k < 3
      invariant k <= 3 && Leads([], Init(2), steps, [EARLY], Here(k))
    {
      Back(k);
      Again(k + 1);
      Join([], Init(2), steps, [EARLY], Here(k), ServerReceives(1), [EARLY], There(k + 1));
      steps := steps + [ServerReceives(1)];
      Join([], Init(2), steps, [EARLY], There(k + 1), SwitchReceives(1), [EARLY], Here(k + 1));
      steps := steps + [SwitchReceives(1)];
      k := k + 1;
    }
  }

  /** The earlier writer was queued first, and stands behind the later one once the refused
      TRANSFER is back: the queues have not joined in order. */
  lemma RestoreBreaksOrder() returns (steps: seq<Step>)
    ensures Legal(Init(2), steps) && Runs(Init(2), steps)
    ensures Arrivals([], Init(2), steps) == [EARLY, LATE]
    ensures End(Init(2), steps) == Restored1() && Restored1().hosts[1].wqueue == [LATE, EARLY]
    ensures !AlwaysJoins([], Init(2), steps)
  {
    hide Leads, Here;
    steps := ComesBack();
    Queues();
    Join([], Init(2), steps, [EARLY], Here(3), ServerReceives(1), [EARLY, LATE], Ahead1());
    steps := steps + [ServerReceives(1)];
    assert Inv(Ahead1()) by { LedInv(steps, [EARLY, LATE], Ahead1()); }
    Refuses();
    Join([], Init(2), steps, [EARLY, LATE], Ahead1(), SwitchReceives(0), [EARLY, LATE], Refused1());
    steps := steps + [SwitchReceives(0)];
    Restores();
    Join([], Init(2), steps, [EARLY, LATE], Refused1(), ServerReceives(1), [EARLY, LATE], Restored1());
    steps := steps + [ServerReceives(1)];
    OutOfOrder(steps);
  }

  lemma LedInv(steps: seq<Step>, log: seq<Wqe>, w: World)
    requires Leads([], Init(2), steps, log, w)
    ensures Inv(w)
  {
    hide Inv, Init;
    InitInv(2);
    RunKeeps(Init(2), steps);
  }

  lemma OutOfOrder(steps: seq<Step>)
    requires Leads([], Init(2), steps, [EARLY, LATE], Restored1())
    ensures Legal(Init(2), steps) && Runs(Init(2), steps) && Arrivals([], Init(2), steps) == [EARLY, LATE]
    ensures End(Init(2), steps) == Restored1() && !AlwaysJoins([], Init(2), steps)
  {
    hide Inv, Logged, Legal, Runs, End, Arrivals, AlwaysJoins, AlwaysSorted, Init;
    InitInv(2);
    InitLogged(2);
    SortedFrom([], Init(2), steps);
    assert !AllSorted(Restored1(), [EARLY, LATE]) by { NotInOrder(); }
  }

  lemma NotInOrder()
    ensures !AllSorted(Restored1(), [EARLY, LATE])
  {
    var q := [LATE, EARLY];
    assert Restored1().hosts[1].wqueue == q;
    assert IsQueue(Restored1(), q);
    assert q[0] == LATE && q[1] == EARLY;
    assert !Precedes([EARLY, LATE], LATE, EARLY);
    assert !SortedHere(Restored1(), [EARLY, LATE], q);
  }

  /** Whatever comes after, the writer that was queued later is granted first. */
  lemma LaterGrantedFirst(steps: seq<Step>, more: seq<Step>)
    requires Legal(Init(2), steps) && Runs(Init(2), steps) && End(Init(2), steps) == Restored1()
    requires Legal(End(Init(2), steps), more)
    ensures var w := End(Init(2), steps);
            Runs(w, more) && (Served(End(w, more), EARLY.id) ==> Served(End(w, more), LATE.id))
  {
    var w := End(Init(2), steps);
    var q := [LATE, EARLY];
    assert w.hosts[1].wqueue == q;
    assert IsQueue(w, q) && q[0] == LATE && q[1] == EARLY;
    assert Precedes(q, LATE, EARLY);
    assert Ahead(w, LATE, EARLY);
    FirstQueuedFirst(w, more, LATE, EARLY);
  }
}
