/** Why the bound on unreported grants is needed: a run in which the 8-bit notification
    count comes round once and a writer joins 256 readers. */
module Wraparound {
  import opened Messages
  import opened Deciders
  import opened Hosts
  import opened Protocol
  import opened SwitchSteps
  import opened Safety

  const FIRST := Id(1, 0)
  const WRITER := Id(1, 1)

  /** Host 1 holding the lock in shared mode as its agent, having counted its own grant. */
  const AGENT := Host(Locked(Shared), true, 1, {FIRST}, [], {}, false, map[])

  function Opening(): seq<Step> {
    [RequestLock(FIRST, Shared), SwitchReceives(0), ClientReceives(0)]
  }

  /** Readers 1 to k of host 2 get the lock; host 1 handles none of its notifications. */
  function Readers(k: nat): seq<Step> {
    if k == 0 then []
    else Readers(k - 1) + [RequestLock(Id(2, k), Shared), SwitchReceives(0), ClientReceives(0)]
  }

  ghost predicate HoldAll(w: World, k: nat) {
    forall j :: 1 <= j <= k ==> Id(2, j) in w.held && Id(2, j) in w.reqs && w.reqs[Id(2, j)].op == Shared
  }

  ghost predicate After(w: World, k: nat) {
    && w.decider == Decider(true, Shared, 1, (1 + k) % 256)
    && w.hosts == [IDLE, AGENT, IDLE] && |w.server| == 3
    && w.toSwitch == [] && w.client == []
    && FIRST in w.held && FIRST in w.reqs && HoldAll(w, k)
    && forall id :: id in w.reqs ==> id == FIRST || (id.host == 2 && id.task <= k)
  }

  lemma {:induction false} RunsConcat(w: World, a: seq<Step>, b: seq<Step>)
    requires Runs(w, a) && Runs(End(w, a), b)
    ensures Runs(w, a + b) && End(w, a + b) == End(End(w, a), b)
    decreases |a|
  {
    if a == [] {
      assert a + b == b;
    } else {
      assert (a + b)[1..] == a[1..] + b;
      RunsConcat(Next(w, a[0]), a[1..], b);
    }
  }

  lemma OneStep(w: World, s: Step)
    requires Enabled(w, s)
    ensures Runs(w, [s]) && End(w, [s]) == Next(w, s)
  {
    assert [s][1..] == [];
  }

  lemma ThreeSteps(w: World, a: Step, b: Step, c: Step)
    requires Enabled(w, a) && Enabled(Next(w, a), b) && Enabled(Next(Next(w, a), b), c)
    ensures Runs(w, [a, b, c]) && End(w, [a, b, c]) == Next(Next(Next(w, a), b), c)
  {
    hide Next, Enabled;
    OneStep(w, a);
    OneStep(Next(w, a), b);
    OneStep(Next(Next(w, a), b), c);
    RunsConcat(w, [a], [b]);
    RunsConcat(w, [a] + [b], [c]);
    assert [a] + [b] + [c] == [a, b, c];
  }

  // ---- Single steps of the run, on worlds whose bags are empty ------------------------

  lemma Asks(w: World, id: Id, op: Mode)
    requires w.IsHost(id.host) && id !in w.reqs && !w.hosts[id.host].isAgent && w.toSwitch == []
    ensures Next(w, RequestLock(id, op))
            == w.(toSwitch := [Acquire(id, op)], reqs := w.reqs[id := Request(op, Waiting)])
  {
    assert w.hosts[id.host := w.hosts[id.host]] == w.hosts;
    assert w.held + {} == w.held;
  }

  /** The switch grants the only packet on its way to it as the first of an epoch. */
  lemma Promotes(w: World, id: Id, op: Mode)
    requires w.toSwitch == [Acquire(id, op)] && !w.decider.acquired && w.decider.count == 0 && w.client == []
    ensures Next(w, SwitchReceives(0))
            == w.(decider := Decider(true, op, id.host, if op == Shared then 1 else 0), toSwitch := [],
                  client := [GrantWithAgent(id, op, false, [])], reqs := Mark(w.reqs, {id}, Granted))
  {
    assert RemoveAt(w.toSwitch, 0) == [];
    PostOne(w.(decider := Decider(true, op, id.host, if op == Shared then 1 else 0), toSwitch := [],
               reqs := Mark(w.reqs, {id}, Granted)),
            ToClient(GrantWithAgent(id, op, false, [])));
  }

  lemma Multicasts(w: World, id: Id)
    requires w.toSwitch == [Acquire(id, Shared)] && w.client == []
    requires w.decider.acquired && w.decider.rw == Shared && w.IsHost(w.decider.agent)
    ensures var a := w.decider.agent;
            Next(w, SwitchReceives(0))
            == w.(decider := w.decider.(count := CountUp(w.decider.count)), toSwitch := [],
                  server := w.server[a := w.server[a] + [Notify(id)]],
                  client := [GrantWithoutAgent(id)], reqs := Mark(w.reqs, {id}, Granted))
  {
    assert RemoveAt(w.toSwitch, 0) == [];
    PostTwo(w.(decider := w.decider.(count := CountUp(w.decider.count)), toSwitch := [],
               reqs := Mark(w.reqs, {id}, Granted)),
            ToServer(w.decider.agent, Notify(id)), ToClient(GrantWithoutAgent(id)));
  }

  lemma Receives(w: World, id: Id)
    requires w.client == [GrantWithoutAgent(id)] && w.IsHost(id.host)
    ensures Next(w, ClientReceives(0)) == w.(client := [], held := w.held + {id})
  {
    assert w.hosts[id.host := w.hosts[id.host]] == w.hosts;
    assert RemoveAt(w.client, 0) == [];
    assert Mark(w.reqs, {}, Granted) == w.reqs;
    assert w.toSwitch + [] == w.toSwitch;
  }

  lemma BecomesAgent(w: World, id: Id, op: Mode)
    requires w.client == [GrantWithAgent(id, op, false, [])] && w.IsHost(id.host)
    ensures Next(w, ClientReceives(0))
            == w.(client := [], held := w.held + {id},
                  hosts := w.hosts[id.host := OnGrantWithAgent(w.hosts[id.host], id, op, false, []).host])
  {
    var r := OnPacket(w.hosts[id.host], id.host, w.client[0]);
    assert r == OnGrantWithAgent(w.hosts[id.host], id, op, false, []);
    assert r.send == [] && r.notified == {id};
    assert RemoveAt(w.client, 0) == [];
    assert Mark(w.reqs, {}, Granted) == w.reqs;
    assert w.toSwitch + [] == w.toSwitch;
  }

  // ---- The run ------------------------------------------------------------------------

  lemma Opens()
    ensures Runs(Init(2), Opening()) && After(End(Init(2), Opening()), 0)
  {
    var w0 := Init(2);
    assert w0.hosts == [IDLE, IDLE, IDLE];
    Asks(w0, FIRST, Shared);
    var w1 := Next(w0, RequestLock(FIRST, Shared));
    Promotes(w1, FIRST, Shared);
    var w2 := Next(w1, SwitchReceives(0));
    BecomesAgent(w2, FIRST, Shared);
    assert IDLE.holders + {FIRST} == {FIRST};
    assert OnGrantWithAgent(IDLE, FIRST, Shared, false, []).host == AGENT;
    assert w0.hosts[1 := AGENT] == [IDLE, AGENT, IDLE];
    ThreeSteps(w0, RequestLock(FIRST, Shared), SwitchReceives(0), ClientReceives(0));
  }

  lemma ReaderJoins(w: World, k: nat)
    requires After(w, k)
    ensures var s := [RequestLock(Id(2, k + 1), Shared), SwitchReceives(0), ClientReceives(0)];
            Runs(w, s) && After(End(w, s), k + 1)
  {
    var id := Id(2, k + 1);
    Asks(w, id, Shared);
    var w1 := Next(w, RequestLock(id, Shared));
    Multicasts(w1, id);
    var w2 := Next(w1, SwitchReceives(0));
    Receives(w2, id);
    ThreeSteps(w, RequestLock(id, Shared), SwitchReceives(0), ClientReceives(0));
    hide Next;
  }

  lemma {:induction false} ReadersJoin(w: World, k: nat)
    requires After(w, 0)
    ensures Runs(w, Readers(k)) && After(End(w, Readers(k)), k)
  {
    hide Next, Enabled;
    if k > 0 {
      ReadersJoin(w, k - 1);
      var v := End(w, Readers(k - 1));
      ReaderJoins(v, k - 1);
      RunsConcat(w, Readers(k - 1), [RequestLock(Id(2, k), Shared), SwitchReceives(0), ClientReceives(0)]);
    }
  }

  /** The agent's reader leaves with count 1, which is also 257 modulo 256: the lock is freed
      under the other readers. */
  lemma FreedUnderReaders(w: World)
    requires After(w, 256)
    ensures var s := [Unlock(FIRST), SwitchReceives(0)];
            && Runs(w, s)
            && var v := End(w, s);
               && v.decider == INITIAL && v.hosts == [IDLE, IDLE, IDLE] && |v.server| == 3
               && v.toSwitch == [] && v.client == [] && WRITER !in v.reqs && HoldAll(v, 256)
  {
    var w1 := Next(w, Unlock(FIRST));
    assert AGENT.holders - {FIRST} == {};
    assert w1.toSwitch == [Free(Shared, 1, 1)];
    assert w1.hosts == [IDLE, IDLE, IDLE];
    var w2 := Next(w1, SwitchReceives(0));
    assert w2.decider == INITIAL && w2.toSwitch == [];
    OneStep(w, Unlock(FIRST));
    OneStep(w1, SwitchReceives(0));
    RunsConcat(w, [Unlock(FIRST)], [SwitchReceives(0)]);
    assert [Unlock(FIRST)] + [SwitchReceives(0)] == [Unlock(FIRST), SwitchReceives(0)];
  }

  lemma WriterJoins(w: World)
    requires w.decider == INITIAL && w.hosts == [IDLE, IDLE, IDLE] && |w.server| == 3
    requires w.toSwitch == [] && w.client == [] && WRITER !in w.reqs && HoldAll(w, 256)
    ensures var s := [RequestLock(WRITER, Exclusive), SwitchReceives(0), ClientReceives(0)];
            && Runs(w, s)
            && var v := End(w, s);
               && WRITER in v.held && WRITER in v.reqs && v.reqs[WRITER].op == Exclusive
               && HoldAll(v, 256)
  {
    Asks(w, WRITER, Exclusive);
    var w1 := Next(w, RequestLock(WRITER, Exclusive));
    Promotes(w1, WRITER, Exclusive);
    var w2 := Next(w1, SwitchReceives(0));
    BecomesAgent(w2, WRITER, Exclusive);
    ThreeSteps(w, RequestLock(WRITER, Exclusive), SwitchReceives(0), ClientReceives(0));
  }

  /** Without the bound the protocol is not safe: this run of two hosts and 258 tasks ends
      with a writer and 256 readers inside. */
  lemma UnsafeWithoutBound() returns (steps: seq<Step>)
    ensures Runs(Init(2), steps) && !Legal(Init(2), steps)
    ensures var w := End(Init(2), steps);
            && WRITER in w.held && WRITER in w.reqs && w.reqs[WRITER].op == Exclusive && HoldAll(w, 256)
            && !MutualExclusion(w)
  {
    hide Next, Enabled, Readers, Legal;
    Opens();
    var w1 := End(Init(2), Opening());
    ReadersJoin(w1, 256);
    var w2 := End(w1, Readers(256));
    FreedUnderReaders(w2);
    var freed := [Unlock(FIRST), SwitchReceives(0)];
    var w3 := End(w2, freed);
    WriterJoins(w3);
    var joins := [RequestLock(WRITER, Exclusive), SwitchReceives(0), ClientReceives(0)];
    RunsConcat(Init(2), Opening(), Readers(256));
    RunsConcat(Init(2), Opening() + Readers(256), freed);
    RunsConcat(Init(2), Opening() + Readers(256) + freed, joins);
    steps := Opening() + Readers(256) + freed + joins;
    var w := End(Init(2), steps);
    assert Active(w, WRITER) && Active(w, Id(2, 1));
    assert !MutualExclusion(w);
    if Legal(Init(2), steps) {
      MutualExclusionAlways(2, steps);
    }
  }
}
