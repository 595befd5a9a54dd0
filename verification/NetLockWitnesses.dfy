/** Concrete runs of NetLock's queue in the switch: a packet that reads a slot which was stored
    into again breaks exclusion, and readers may release in another order than they queued. */
module NetLockWitnesses {
  import opened Messages
  import opened NetLockRings
  import opened NetLockRuns
  import opened NetLockSafety

  ghost predicate Leads(s: State, steps: seq<Step>, t: State) {
    Possible(s, steps) && After(s, steps) == t
  }

  lemma LeadsOne(s: State, step: Step, t: State)
    requires Enabled(s, step) && t == NetLockRuns.Next(s, step)
    ensures Leads(s, [step], t)
  {
    assert [step][1..] == [];
  }

  lemma {:induction false} LeadsOn(s: State, a: seq<Step>, t: State, b: seq<Step>, u: State)
    requires Leads(s, a, t) && Leads(t, b, u)
    ensures Leads(s, a + b, u)
    decreases |a|
  {
    hide NetLockRuns.Next, Enabled;
    if a == [] {
      assert a + b == b;
    } else {
      assert (a + b)[1..] == a[1..] + b && (a + b)[0] == a[0];
      LeadsOn(NetLockRuns.Next(s, a[0]), a[1..], t, b, u);
    }
  }

  // ---- A slot is stored into before a packet reads it ----------------------------------

  /** Six requests: a writer that holds, a reader and a writer that queue, and later a writer
      that holds while a writer and a reader queue. */
  predicate Cast(w0: Wqe, r1: Wqe, w2: Wqe, w3: Wqe, w4: Wqe, r5: Wqe) {
    w0.op == w2.op == w3.op == w4.op == Exclusive && r1.op == r5.op == Shared
  }

  /** The packet that granted the reader and goes on to the writer behind it. */
  const LATE := Packet(Header(2, 0, 0, Exclusive), 2, 2)

  function Queued3(w0: Wqe, r1: Wqe, w2: Wqe): State {
    State(Ring(0, 2, 0, 0, 0, 0, 2, 1, [w2, w0, r1]), [], [w0, r1, w2], [1, 2, 0], 0, [1, 0, 0], {})
  }

  function Reading(w0: Wqe, r1: Wqe, w2: Wqe): State {
    State(Ring(0, 2, 1, 0, 1, 0, 1, 1, [w2, w0, r1]), [LATE], [w0, r1, w2], [1, 2, 0], 1, [1, 1, 0], {0})
  }

  function Emptied(w0: Wqe, r1: Wqe, w2: Wqe): State {
    State(Ring(0, 2, 0, 0, 3, 0, 0, 0, [w2, w0, r1]), [LATE], [w0, r1, w2], [1, 2, 0], 3, [1, 1, 1], {0, 1, 2})
  }

  function Refilled(w0: Wqe, r1: Wqe, w2: Wqe, w3: Wqe, w4: Wqe, r5: Wqe): State {
    State(Ring(0, 2, 0, 0, 0, 0, 2, 1, [r5, w3, w4]), [LATE], [w0, r1, w2, w3, w4, r5], [1, 2, 0, 1, 2, 0], 3,
          [1, 1, 1, 1, 0, 0], {0, 1, 2})
  }

  lemma ThreeQueue(w0: Wqe, r1: Wqe, w2: Wqe)
    requires w0.op == w2.op == Exclusive && r1.op == Shared
    ensures Leads(Initial(0, 2, [w0, w0, w0]), [Arrive(w0), Arrive(r1), Arrive(w2)], Queued3(w0, r1, w2))
  {
    var s0 := Initial(0, 2, [w0, w0, w0]);
    var s1 := NetLockRuns.Next(s0, Arrive(w0));
    assert s1 == State(Ring(0, 2, 0, 1, 2, 0, 1, 0, [w0, w0, w0]), [], [w0], [1], 0, [1], {});
    var s2 := NetLockRuns.Next(s1, Arrive(r1));
    assert s2 == State(Ring(0, 2, 0, 2, 1, 0, 1, 1, [w0, w0, r1]), [], [w0, r1], [1, 2], 0, [1, 0], {});
    var s3 := NetLockRuns.Next(s2, Arrive(w2));
    assert s3 == Queued3(w0, r1, w2);
    Three(s0, Arrive(w0), s1, Arrive(r1), s2, Arrive(w2), s3);
  }

  lemma Three(s0: State, a: Step, s1: State, b: Step, s2: State, c: Step, s3: State)
    requires Enabled(s0, a) && s1 == NetLockRuns.Next(s0, a) && Enabled(s1, b) && s2 == NetLockRuns.Next(s1, b)
    requires Enabled(s2, c) && s3 == NetLockRuns.Next(s2, c)
    ensures Leads(s0, [a, b, c], s3)
  {
    hide NetLockRuns.Next, Enabled, Leads;
    LeadsOne(s0, a, s1);
    LeadsOne(s1, b, s2);
    LeadsOne(s2, c, s3);
    LeadsOn(s0, [a], s1, [b], s2);
    LeadsOn(s0, [a] + [b], s2, [c], s3);
    assert [a] + [b] + [c] == [a, b, c];
  }

  lemma ReaderGranted(w0: Wqe, r1: Wqe, w2: Wqe)
    requires w0.op == w2.op == Exclusive && r1.op == Shared
    ensures Leads(Queued3(w0, r1, w2), [Depart(0), Pass(0)], Reading(w0, r1, w2))
  {
    var s := Queued3(w0, r1, w2);
    var s1 := NetLockRuns.Next(s, Depart(0));
    assert s1 == State(Ring(0, 2, 1, 0, 1, 0, 1, 1, [w2, w0, r1]), [Packet(Header(1, 2, 0, Exclusive), 1, 2)],
                       [w0, r1, w2], [1, 2, 0], 1, [1, 0, 0], {0});
    var s2 := NetLockRuns.Next(s1, Pass(0));
    assert [1, 2, 0][..2] == [1, 2];
    assert Owner([1, 2, 0], 2) == 1;
    assert s2 == Reading(w0, r1, w2);
    LeadsOne(s, Depart(0), s1);
    LeadsOne(s1, Pass(0), s2);
    LeadsOn(s, [Depart(0)], s1, [Pass(0)], s2);
    assert [Depart(0)] + [Pass(0)] == [Depart(0), Pass(0)];
  }

  lemma AllRelease(w0: Wqe, r1: Wqe, w2: Wqe)
    requires w0.op == w2.op == Exclusive && r1.op == Shared
    ensures Leads(Reading(w0, r1, w2), [Depart(1), Pass(1), Depart(2)], Emptied(w0, r1, w2))
  {
    var s := Reading(w0, r1, w2);
    var second := Packet(Header(1, 0, 0, Shared), 2, 2);
    var s1 := NetLockRuns.Next(s, Depart(1));
    assert s1 == State(Ring(0, 2, 2, 0, 2, 0, 1, 0, [w2, w0, r1]), [LATE, second],
                       [w0, r1, w2], [1, 2, 0], 2, [1, 1, 0], {0, 1});
    var s2 := NetLockRuns.Next(s1, Pass(1));
    assert Owner([1, 2, 0], 0) == 2;
    assert s2 == State(Ring(0, 2, 2, 0, 2, 0, 1, 0, [w2, w0, r1]), [LATE],
                       [w0, r1, w2], [1, 2, 0], 2, [1, 1, 1], {0, 1});
    var s3 := NetLockRuns.Next(s2, Depart(2));
    assert s3 == Emptied(w0, r1, w2);
    Three(s, Depart(1), s1, Pass(1), s2, Depart(2), s3);
  }

  lemma ThreeMore(w0: Wqe, r1: Wqe, w2: Wqe, w3: Wqe, w4: Wqe, r5: Wqe)
    requires Cast(w0, r1, w2, w3, w4, r5)
    ensures Leads(Emptied(w0, r1, w2), [Arrive(w3), Arrive(w4), Arrive(r5)], Refilled(w0, r1, w2, w3, w4, r5))
  {
    var s := Emptied(w0, r1, w2);
    var s1 := NetLockRuns.Next(s, Arrive(w3));
    assert s1 == State(Ring(0, 2, 0, 1, 2, 0, 1, 0, [w2, w3, r1]), [LATE], [w0, r1, w2, w3], [1, 2, 0, 1], 3,
                       [1, 1, 1, 1], {0, 1, 2});
    var s2 := NetLockRuns.Next(s1, Arrive(w4));
    assert s2 == State(Ring(0, 2, 0, 2, 1, 0, 2, 0, [w2, w3, w4]), [LATE], [w0, r1, w2, w3, w4], [1, 2, 0, 1, 2], 3,
                       [1, 1, 1, 1, 0], {0, 1, 2});
    var s3 := NetLockRuns.Next(s2, Arrive(r5));
    assert s3 == Refilled(w0, r1, w2, w3, w4, r5);
    Three(s, Arrive(w3), s1, Arrive(w4), s2, Arrive(r5), s3);
  }

  lemma LateRead(w0: Wqe, r1: Wqe, w2: Wqe, w3: Wqe, w4: Wqe, r5: Wqe)
    requires Cast(w0, r1, w2, w3, w4, r5)
    ensures var s := Refilled(w0, r1, w2, w3, w4, r5);
            Leads(s, [Pass(0)], s.(packets := [], grants := [1, 1, 1, 1, 0, 1]))
  {
    var s := Refilled(w0, r1, w2, w3, w4, r5);
    assert Owner([1, 2, 0, 1, 2, 0], 0) == 5;
    LeadsOne(s, Pass(0), s.(packets := [], grants := [1, 1, 1, 1, 0, 1]));
  }

  /** A run that is possible and not careful: the reader that arrives last is stored where the
      late packet is to find the writer that left, and is granted while another writer holds. */
  lemma StaleReadBreaksExclusion(w0: Wqe, r1: Wqe, w2: Wqe, w3: Wqe, w4: Wqe, r5: Wqe) returns (steps: seq<Step>)
    requires Cast(w0, r1, w2, w3, w4, r5)
    ensures var s := Initial(0, 2, [w0, w0, w0]);
            && Possible(s, steps) && !Careful(s, steps)
            && var t := After(s, steps);
               |t.arrived| == 6 && t.arrived[3] == w3 && t.arrived[5] == r5 && Holds(t, 3) && Holds(t, 5)
  {
    hide NetLockRuns.Next, Enabled, Careful;
    var s := Initial(0, 2, [w0, w0, w0]);
    var a, b := [Arrive(w0), Arrive(r1), Arrive(w2)], [Depart(0), Pass(0)];
    var c, d := [Depart(1), Pass(1), Depart(2)], [Arrive(w3), Arrive(w4), Arrive(r5)];
    var t := Refilled(w0, r1, w2, w3, w4, r5).(packets := [], grants := [1, 1, 1, 1, 0, 1]);
    ThreeQueue(w0, r1, w2);
    ReaderGranted(w0, r1, w2);
    AllRelease(w0, r1, w2);
    ThreeMore(w0, r1, w2, w3, w4, r5);
    LateRead(w0, r1, w2, w3, w4, r5);
    LeadsOn(s, a, Queued3(w0, r1, w2), b, Reading(w0, r1, w2));
    LeadsOn(s, a + b, Reading(w0, r1, w2), c, Emptied(w0, r1, w2));
    LeadsOn(s, a + b + c, Emptied(w0, r1, w2), d, Refilled(w0, r1, w2, w3, w4, r5));
    LeadsOn(s, a + b + c + d, Refilled(w0, r1, w2, w3, w4, r5), [Pass(0)], t);
    steps := a + b + c + d + [Pass(0)];
    assert After(s, steps) == t;
    CarefulExcludes(s, steps, t);
  }

  lemma CarefulExcludes(s: State, steps: seq<Step>, t: State)
    requires exists left: nat, right: nat, slots :: left <= right < |slots| && s == Initial(left, right, slots)
    requires Leads(s, steps, t)
    ensures Careful(s, steps) ==> forall i, j :: 0 <= i < j < |t.arrived| && Holds(t, i) && Holds(t, j) ==>
              t.arrived[i].op == t.arrived[j].op
  {
    hide NetLockRuns.Next, Enabled, Careful;
    forall i, j | Careful(s, steps) && 0 <= i < j < |t.arrived| && Holds(t, i) && Holds(t, j)
      ensures t.arrived[i].op == t.arrived[j].op
    {
      MutualExclusion(t, i, j);
    }
  }

  // ---- Readers release out of order ----------------------------------------------------

  /** Two readers, the second of which releases first: the first still holds the lock, but the
      queue keeps the second. */
  lemma OutOfOrder(a: Wqe, b: Wqe)
    requires a.op == b.op == Shared && a != b
    ensures var s0 := Initial(0, 1, [a, a]);
            && Enabled(s0, Arrive(a))
            && var s1 := NetLockRuns.Next(s0, Arrive(a));
            && Enabled(s1, Arrive(b))
            && var s2 := NetLockRuns.Next(s1, Arrive(b));
            && Enabled(s2, Depart(1))
            && var s3 := NetLockRuns.Next(s2, Depart(1));
            && Shaped(s3.ring) && Queue(s3.ring) == [b]
            && s3.arrived == [a, b] && Holds(s3, 0) && !Holds(s3, 1)
  {
    var s1 := NetLockRuns.Next(Initial(0, 1, [a, a]), Arrive(a));
    assert s1.ring == Ring(0, 1, 0, 1, 1, 0, 0, 1, [a, a]) && s1.grants == [1];
    var s2 := NetLockRuns.Next(s1, Arrive(b));
    assert s2.ring == Ring(0, 1, 0, 0, 0, 0, 0, 2, [b, a]) && s2.grants == [1, 1];
  }

  /** Both readers hold. */
  function BothRead(a: Wqe, b: Wqe): State {
    State(Ring(0, 1, 0, 0, 0, 0, 0, 2, [b, a]), [], [a, b], [1, 0], 0, [1, 1], {})
  }

  lemma ReadersArrive(a: Wqe, b: Wqe)
    requires a.op == b.op == Shared
    ensures Leads(Initial(0, 1, [a, a]), [Arrive(a), Arrive(b)], BothRead(a, b))
  {
    var s0 := Initial(0, 1, [a, a]);
    var s1 := NetLockRuns.Next(s0, Arrive(a));
    assert s1 == State(Ring(0, 1, 0, 1, 1, 0, 0, 1, [a, a]), [], [a], [1], 0, [1], {});
    var s2 := NetLockRuns.Next(s1, Arrive(b));
    assert s2 == BothRead(a, b);
    LeadsOne(s0, Arrive(a), s1);
    LeadsOne(s1, Arrive(b), s2);
    LeadsOn(s0, [Arrive(a)], s1, [Arrive(b)], s2);
    assert [Arrive(a)] + [Arrive(b)] == [Arrive(a), Arrive(b)];
  }

  /** The two readers again: once the first has released as well and the packet is gone, the
      holders are the leading run. Only the states in between, while a packet recirculates,
      tell that they released out of order. */
  lemma DisorderPasses(a: Wqe, b: Wqe)
    requires a.op == b.op == Shared
    ensures Leads(Initial(0, 1, [a, a]), [Arrive(a), Arrive(b)], BothRead(a, b))
    ensures var s2 := BothRead(a, b);
            && Enabled(s2, Depart(1))
            && var s3 := NetLockRuns.Next(s2, Depart(1));
            && Enabled(s3, Depart(0)) && s3.packets != []
            && var s4 := NetLockRuns.Next(s3, Depart(0));
            && Enabled(s4, Pass(0)) && s4.packets != []
            && var s5 := NetLockRuns.Next(s4, Pass(0));
            && s5.packets == [] && HoldersAreRun(s5)
  {
    ReadersArrive(a, b);
    var s4 := NetLockRuns.Next(NetLockRuns.Next(BothRead(a, b), Depart(1)), Depart(0));
    var s5 := NetLockRuns.Next(s4, Pass(0));
    assert s5.packets == [] && s5.popped == |s5.arrived| == 2 && s5.released == {0, 1} && s5.grants == [1, 1];
    assert Held(s5) == {};
    FrontIs(s5.arrived, 2);
    assert LeadingRun(s5) == {};
  }
}
