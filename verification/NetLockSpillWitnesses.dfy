/** Two runs of NetLock's spill that end badly: a notice that overtakes a request, and
    push-backs that find no slot although every packet arrives in turn. */
module NetLockSpillWitnesses {
  import opened Messages
  import opened NetLockSpills
  import opened NetLockNotices
  import NetLockRings
  import NetLockServers
  import NetLockSwitches

  /** The release is one by a holder, in the mode of the head of the queue. */
  predicate ByHolder(s: State, step: Step)
    requires NetLockRings.Shaped(s.ring)
  {
    step.Unlock? ==> NetLockRings.Queue(s.ring) != [] && NetLockRings.Queue(s.ring)[0].op == step.mode
  }

  /** The packet is the first of its channel. */
  predicate First(s: State, step: Step) {
    match step
    case Request(_) => true
    case Unlock(_) => true
    case Enqueue(i) => i == 0 && 0 !in s.notices
    case Notice(k, _) => k == 0 && |s.notices| > 0 && s.notices[0] == 0
    case PushBack(i) => i == 0
  }

  /** All packets of the run arrive in the order of sending. */
  ghost predicate InTurn(s: State, steps: seq<Step>)
    decreases |steps|
  {
    steps != [] && NetLockRings.Shaped(s.ring) && Enabled(s, steps[0]) ==>
      First(s, steps[0]) && InTurn(Next(s, steps[0]), steps[1..])
  }

  /** Releases by holders and other steps lead from `s` to `t`, in turn if `turn` says so. */
  ghost predicate Leads(turn: bool, s: State, steps: seq<Step>, t: State)
    decreases |steps|
  {
    if steps == [] then s == t
    else
      && NetLockRings.Shaped(s.ring) && Enabled(s, steps[0]) && ByHolder(s, steps[0])
      && (turn ==> First(s, steps[0]))
      && Leads(turn, Next(s, steps[0]), steps[1..], t)
  }

  lemma {:induction false} LeadsIsRun(turn: bool, s: State, steps: seq<Step>, t: State)
    requires Leads(turn, s, steps, t)
    ensures Possible(s, steps, t) && Tidy(s, steps) && (turn ==> InTurn(s, steps))
    decreases |steps|
  {
    hide Next, First;
    if steps != [] {
      LeadsIsRun(turn, Next(s, steps[0]), steps[1..], t);
    }
  }

  lemma {:induction false} Onward(turn: bool, s: State, a: seq<Step>, t: State, b: seq<Step>, u: State)
    requires Leads(turn, s, a, t) && Leads(turn, t, b, u)
    ensures Leads(turn, s, a + b, u)
    decreases |a|
  {
    hide Next, First, ByHolder;
    if a == [] {
      assert a + b == b;
    } else {
      assert (a + b)[1..] == a[1..] + b;
      Onward(turn, Next(s, a[0]), a[1..], t, b, u);
    }
  }

  lemma OneStep(turn: bool, s: State, step: Step, t: State)
    requires NetLockRings.Shaped(s.ring) && Enabled(s, step) && ByHolder(s, step) && (turn ==> First(s, step))
    requires t == Next(s, step)
    ensures Leads(turn, s, [step], t)
  {
    assert [step][1..] == [];
  }

  // ---- A notice overtakes a request ---------------------------------------------------

  /** One slot: `a` is granted, `b` goes to the server, `a` releases. If the notice gets there
      before `b` does, `b` and all later requests wait for ever. */
  lemma OvertakingStrands(a: Wqe, b: Wqe)
    ensures var s0 := Initial(0, 0, [a]);
            var steps := [Request(a), Request(b), Unlock(a.op)] + [Notice(0, 1), Enqueue(0)];
            Tidy(s0, steps) && exists t :: Possible(s0, steps, t) && Stranded(t) && t.server == [b] && t.granted == [a]
  {
    var s0 := Initial(0, 0, [a]);
    var s3 := Emptied(a, b);
    var s5 := s3.(notices := [], toServer := [], server := [b]);
    EmptiedRun(a, b);
    OvertakenRun(a, b);
    Onward(false, s0, [Request(a), Request(b), Unlock(a.op)], s3, [Notice(0, 1), Enqueue(0)], s5);
    LeadsIsRun(false, s0, [Request(a), Request(b), Unlock(a.op)] + [Notice(0, 1), Enqueue(0)], s5);
    assert Stranded(s5);
  }

  /** A ring of one slot from which `a` has gone, with `b` and then a notice on their way. */
  function Emptied(a: Wqe, b: Wqe): State {
    State(NetLockRings.Ring(0, 0, 0, 0, 1, 1, 0, 0, [a]), [b], [], [], [1], [a, b], [a], 1, [a], true)
  }

  /** The slot holds `a`. */
  function Occupied(a: Wqe): State {
    State(NetLockRings.Ring(0, 0, 0, 0, 0, 0, if a.op == Exclusive then 1 else 0, if a.op == Shared then 1 else 0, [a]),
          [], [], [], [], [a], [a], 0, [a], true)
  }

  function Crowded(a: Wqe, b: Wqe): State {
    Occupied(a).(ring := Occupied(a).ring.(spilled := 1), arrived := [a, b], toServer := [b])
  }

  lemma Occupies(a: Wqe)
    ensures Leads(false, Initial(0, 0, [a]), [Request(a)], Occupied(a))
  {
    OneStep(false, Initial(0, 0, [a]), Request(a), Occupied(a));
  }

  lemma Crowds(a: Wqe, b: Wqe)
    ensures Leads(false, Occupied(a), [Request(b)], Crowded(a, b))
  {
    OneStep(false, Occupied(a), Request(b), Crowded(a, b));
  }

  lemma Empties(a: Wqe, b: Wqe)
    ensures Leads(false, Crowded(a, b), [Unlock(a.op)], Emptied(a, b))
  {
    assert NetLockRings.Queue(Crowded(a, b).ring) == [a];
    assert NetLockRings.Queue(Emptied(a, b).ring) == [];
    OneStep(false, Crowded(a, b), Unlock(a.op), Emptied(a, b));
  }

  lemma EmptiedRun(a: Wqe, b: Wqe)
    ensures Leads(false, Initial(0, 0, [a]), [Request(a), Request(b), Unlock(a.op)], Emptied(a, b))
  {
    hide Leads, Occupied, Crowded, Emptied, Initial;
    var s0 := Initial(0, 0, [a]);
    Occupies(a);
    Crowds(a, b);
    Empties(a, b);
    Onward(false, s0, [Request(a)], Occupied(a), [Request(b)], Crowded(a, b));
    Onward(false, s0, [Request(a)] + [Request(b)], Crowded(a, b), [Unlock(a.op)], Emptied(a, b));
    assert [Request(a)] + [Request(b)] + [Unlock(a.op)] == [Request(a), Request(b), Unlock(a.op)];
  }

  lemma OvertakenRun(a: Wqe, b: Wqe)
    ensures Leads(false, Emptied(a, b), [Notice(0, 1), Enqueue(0)],
                  Emptied(a, b).(notices := [], toServer := [], server := [b]))
  {
    var s3 := Emptied(a, b);
    var s4 := s3.(notices := []);
    OneStep(false, s3, Notice(0, 1), s4);
    OneStep(false, s4, Enqueue(0), s4.(toServer := [], server := [b]));
    Onward(false, s3, [Notice(0, 1)], s4, [Enqueue(0)], s4.(toServer := [], server := [b]));
    assert [Notice(0, 1)] + [Enqueue(0)] == [Notice(0, 1), Enqueue(0)];
  }

  // ---- Push-backs for more slots than there are ----------------------------------------

  function Writer(k: nat): Wqe {
    Wqe(Id(1, k), Exclusive)
  }

  const A := Writer(1)
  const B := Writer(2)
  const C := Writer(3)
  const D := Writer(4)
  const E := Writer(5)
  const F := Writer(6)

  /** A ring of two slots that only writers use. */
  function Pair(head: nat, tail: nat, empty: nat, spilled: int, exclusive: int, slots: seq<Wqe>): NetLockRings.Ring {
    NetLockRings.Ring(0, 1, head, tail, empty, spilled, exclusive, 0, slots)
  }

  const Empty := Initial(0, 1, [A, A])

  /** The ring holds `A` and `B`, and four requests are on their way to the server. */
  const Full := State(Pair(0, 0, 0, 4, 2, [B, A]), [C, D, E, F], [], [], [], [A, B, C, D, E, F], [A, B], 0, [A], true)

  /** The server has them; `A` and `B` have released and the first notice is on its way. */
  const Asked := State(Pair(0, 0, 2, 4, 0, [B, A]), [], [C, D, E, F], [], [0], [A, B, C, D, E, F], [A, B], 2, [A, B], true)

  /** `C` has come back and released before `D` has come, so that a second notice is sent. */
  const AskedAgain := State(Pair(1, 1, 2, 3, 0, [B, C]), [], [E, F], [D], [0], [A, B, C, D, E, F], [A, B, C], 3, [A, B, C], true)

  /** Three more requests have come back into two slots. */
  const Overwritten := State(Pair(1, 0, 0, 0, 3, [F, E]), [], [], [], [], [A, B, C, D, E, F], [A, B, C, D, E, F], 3, [A, B, C, D], true)

  const Fills := [Request(A), Request(B), Request(C), Request(D), Request(E), Request(F)]
  const Drains := [Enqueue(0), Enqueue(0), Enqueue(0), Enqueue(0), Unlock(Exclusive), Unlock(Exclusive)]
  const Refills := [Notice(0, 2), PushBack(0), Unlock(Exclusive)]
  const Overflows := [Notice(0, 2), PushBack(0), PushBack(0), PushBack(0)]

  lemma Then(s: State, steps: seq<Step>, t: State, step: Step, u: State)
    requires Leads(true, s, steps, t)
    requires NetLockRings.Shaped(t.ring) && Enabled(t, step) && ByHolder(t, step) && First(t, step) && u == Next(t, step)
    ensures Leads(true, s, steps + [step], u)
  {
    OneStep(true, t, step, u);
    Onward(true, s, steps, t, [step], u);
  }

  /** A full ring turns a request away. */
  lemma Spill(s: State, x: Wqe)
    requires NetLockRings.Shaped(s.ring) && s.ring.empty == 0
    ensures Leads(true, s, [Request(x)], s.(ring := s.ring.(spilled := s.ring.spilled + 1),
                                            toServer := s.toServer + [x], arrived := s.arrived + [x]))
  {
    OneStep(true, s, Request(x), Next(s, Request(x)));
  }

  lemma {:induction false} SpillAll(s: State, xs: seq<Wqe>)
    requires NetLockRings.Shaped(s.ring) && s.ring.empty == 0
    ensures Leads(true, s, seq(|xs|, k requires 0 <= k < |xs| => Request(xs[k])),
                  s.(ring := s.ring.(spilled := s.ring.spilled + |xs|), toServer := s.toServer + xs, arrived := s.arrived + xs))
    decreases |xs|
  {
    var steps := seq(|xs|, k requires 0 <= k < |xs| => Request(xs[k]));
    if xs == [] {
      assert s.toServer + xs == s.toServer && s.arrived + xs == s.arrived;
    } else {
      Spill(s, xs[0]);
      var t := s.(ring := s.ring.(spilled := s.ring.spilled + 1), toServer := s.toServer + [xs[0]], arrived := s.arrived + [xs[0]]);
      SpillAll(t, xs[1..]);
      var rest := seq(|xs| - 1, k requires 0 <= k < |xs| - 1 => Request(xs[1..][k]));
      assert t.toServer + xs[1..] == s.toServer + xs && t.arrived + xs[1..] == s.arrived + xs;
      assert steps == [Request(xs[0])] + rest;
      Onward(true, s, [Request(xs[0])], t, rest,
             s.(ring := s.ring.(spilled := s.ring.spilled + |xs|), toServer := s.toServer + xs, arrived := s.arrived + xs));
    }
  }

  lemma Deliver(s: State)
    requires NetLockRings.Shaped(s.ring) && s.notices == [] && s.inOrder && s.toServer != []
    ensures Leads(true, s, [Enqueue(0)], s.(server := s.server + [s.toServer[0]], toServer := s.toServer[1..]))
  {
    hide NetLockRings.Shaped;
    OneStep(true, s, Enqueue(0), Next(s, Enqueue(0)));
  }

  function Delivered(s: State): State {
    s.(server := s.server + s.toServer, toServer := [])
  }

  lemma {:induction false} DeliverAll(s: State)
    requires NetLockRings.Shaped(s.ring) && s.notices == [] && s.inOrder
    ensures Leads(true, s, seq(|s.toServer|, _ => Enqueue(0)), Delivered(s))
    decreases |s.toServer|
  {
    hide NetLockRings.Shaped, Next, First, ByHolder;
    var steps := seq(|s.toServer|, _ => Enqueue(0));
    if s.toServer == [] {
      assert steps == [];
      assert Delivered(s) == s;
    } else {
      hide Leads;
      var t := s.(server := s.server + [s.toServer[0]], toServer := s.toServer[1..]);
      var rest := seq(|t.toServer|, _ => Enqueue(0));
      Deliver(s);
      DeliverAll(t);
      assert t.server + t.toServer == s.server + s.toServer;
      assert steps == [Enqueue(0)] + rest;
      Onward(true, s, [Enqueue(0)], t, rest, Delivered(s));
    }
  }

  lemma FillRun()
    ensures Leads(true, Empty, Fills, Full)
  {
    hide Leads, Next;
    var s1 := Empty.(ring := Pair(0, 1, 1, 0, 1, [A, A]), arrived := [A], stored := [A], granted := [A]);
    var s2 := Full.(ring := Pair(0, 0, 0, 0, 2, [B, A]), arrived := [A, B], toServer := []);
    StoreFirst(s1, s2);
    SpillAll(s2, [C, D, E, F]);
    assert [A, B] + [C, D, E, F] == [A, B, C, D, E, F] && [] + [C, D, E, F] == [C, D, E, F];
    Onward(true, Empty, [Request(A), Request(B)], s2, seq(4, k requires 0 <= k < 4 => Request([C, D, E, F][k])), Full);
    assert Fills == [Request(A), Request(B)] + seq(4, k requires 0 <= k < 4 => Request([C, D, E, F][k]));
  }

  lemma StoreFirst(s1: State, s2: State)
    requires s1 == Empty.(ring := Pair(0, 1, 1, 0, 1, [A, A]), arrived := [A], stored := [A], granted := [A])
    requires s2 == Full.(ring := Pair(0, 0, 0, 0, 2, [B, A]), arrived := [A, B], toServer := [])
    ensures Leads(true, Empty, [Request(A), Request(B)], s2)
  {
    OneStep(true, Empty, Request(A), s1);
    OneStep(true, s1, Request(B), s2);
    Onward(true, Empty, [Request(A)], s1, [Request(B)], s2);
    assert [Request(A)] + [Request(B)] == [Request(A), Request(B)];
  }

  lemma DrainRun()
    ensures Leads(true, Full, Drains, Asked)
  {
    hide Leads, Next;
    var s1 := Full.(server := [C, D, E, F], toServer := []);
    assert [] + [C, D, E, F] == [C, D, E, F];
    DeliverAll(Full);
    UnlockTwice(s1);
    Onward(true, Full, seq(4, _ => Enqueue(0)), s1, [Unlock(Exclusive), Unlock(Exclusive)], Asked);
    assert Drains == seq(4, _ => Enqueue(0)) + [Unlock(Exclusive), Unlock(Exclusive)];
  }

  lemma UnlockTwice(s1: State)
    requires s1 == Full.(server := [C, D, E, F], toServer := [])
    ensures Leads(true, s1, [Unlock(Exclusive), Unlock(Exclusive)], Asked)
  {
    var s2 := s1.(ring := Pair(1, 0, 1, 4, 1, [B, A]), taken := 1, granted := [A, B]);
    assert NetLockRings.Queue(s1.ring) == [A, B];
    assert NetLockRings.Queue(s2.ring) == [B];
    assert NetLockRings.Queue(Asked.ring) == [];
    OneStep(true, s1, Unlock(Exclusive), s2);
    OneStep(true, s2, Unlock(Exclusive), Asked);
    Onward(true, s1, [Unlock(Exclusive)], s2, [Unlock(Exclusive)], Asked);
    assert [Unlock(Exclusive)] + [Unlock(Exclusive)] == [Unlock(Exclusive), Unlock(Exclusive)];
  }

  lemma RefillRun()
    ensures Leads(true, Asked, Refills, AskedAgain)
  {
    var s1 := Asked.(notices := [], back := [C, D], server := [E, F]);
    var s2 := AskedAgain.(ring := Pair(0, 1, 1, 3, 1, [B, C]), taken := 2, notices := []);
    OneStep(true, Asked, Notice(0, 2), s1);
    OneStep(true, s1, PushBack(0), s2);
    assert NetLockRings.Queue(s2.ring) == [C];
    assert NetLockRings.Queue(AskedAgain.ring) == [];
    OneStep(true, s2, Unlock(Exclusive), AskedAgain);
    hide Leads;
    Onward(true, Asked, [Notice(0, 2)], s1, [PushBack(0)], s2);
    Onward(true, Asked, [Notice(0, 2)] + [PushBack(0)], s2, [Unlock(Exclusive)], AskedAgain);
    assert Refills == [Notice(0, 2)] + [PushBack(0)] + [Unlock(Exclusive)];
  }

  lemma Fetches(s1: State)
    requires s1 == AskedAgain.(notices := [], back := [D, E, F], server := [])
    ensures Leads(true, AskedAgain, [Notice(0, 2)], s1)
  {
    OneStep(true, AskedAgain, Notice(0, 2), s1);
  }

  lemma PushedBackD(s1: State, s2: State)
    requires s1 == AskedAgain.(notices := [], back := [D, E, F], server := [])
    requires s2 == Overwritten.(ring := Pair(1, 0, 1, 2, 1, [D, C]), stored := [A, B, C, D], back := [E, F])
    ensures Leads(true, s1, [PushBack(0)], s2)
  {
    OneStep(true, s1, PushBack(0), s2);
  }

  lemma PushedBackE(s2: State, s3: State)
    requires s2 == Overwritten.(ring := Pair(1, 0, 1, 2, 1, [D, C]), stored := [A, B, C, D], back := [E, F])
    requires s3 == Overwritten.(ring := Pair(1, 1, 0, 1, 2, [D, E]), stored := [A, B, C, D, E], back := [F])
    ensures Leads(true, s2, [PushBack(0)], s3)
  {
    OneStep(true, s2, PushBack(0), s3);
  }

  lemma PushedBackF(s3: State)
    requires s3 == Overwritten.(ring := Pair(1, 1, 0, 1, 2, [D, E]), stored := [A, B, C, D, E], back := [F])
    ensures Leads(true, s3, [PushBack(0)], Overwritten)
  {
    OneStep(true, s3, PushBack(0), Overwritten);
  }

  lemma OverflowRun()
    ensures Leads(true, AskedAgain, Overflows, Overwritten)
  {
    hide Leads, Next;
    var s1 := AskedAgain.(notices := [], back := [D, E, F], server := []);
    var s2 := Overwritten.(ring := Pair(1, 0, 1, 2, 1, [D, C]), stored := [A, B, C, D], back := [E, F]);
    var s3 := Overwritten.(ring := Pair(1, 1, 0, 1, 2, [D, E]), stored := [A, B, C, D, E], back := [F]);
    Fetches(s1);
    PushedBackD(s1, s2);
    PushedBackE(s2, s3);
    PushedBackF(s3);
    Onward(true, AskedAgain, [Notice(0, 2)], s1, [PushBack(0)], s2);
    Onward(true, AskedAgain, [Notice(0, 2)] + [PushBack(0)], s2, [PushBack(0)], s3);
    Onward(true, AskedAgain, [Notice(0, 2)] + [PushBack(0)] + [PushBack(0)], s3, [PushBack(0)], Overwritten);
    assert Overflows == [Notice(0, 2)] + [PushBack(0)] + [PushBack(0)] + [PushBack(0)];
  }

  /** Two slots, every packet in turn: `C` releases before the rest of its batch is back, a
      second batch is asked for, and the last push-back overwrites `D`, which holds the lock. */
  lemma PushBackOverwrites()
    ensures var steps := Fills + Drains + Refills + Overflows;
            && Tidy(Empty, steps) && InTurn(Empty, steps) && Possible(Empty, steps, Overwritten)
            && Overwritten.stored[Overwritten.taken] == D && D in Overwritten.granted
            && NetLockRings.Shaped(Overwritten.ring) && NetLockRings.Queue(Overwritten.ring) == [F, E]
  {
    hide Leads, Next, First, ByHolder, Tidy, Possible, InTurn;
    FillRun();
    DrainRun();
    RefillRun();
    OverflowRun();
    Onward(true, Empty, Fills, Full, Drains, Asked);
    Onward(true, Empty, Fills + Drains, Asked, Refills, AskedAgain);
    Onward(true, Empty, Fills + Drains + Refills, AskedAgain, Overflows, Overwritten);
    LeadsIsRun(true, Empty, Fills + Drains + Refills + Overflows, Overwritten);
  }
}
