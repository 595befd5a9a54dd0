/** Requests that do not fit into NetLock's switch queue go to the server and come back
    (baseline/NetLock/switch/p4/ingress.p4, baseline/NetLock/lib/lock_server.cc). The switch
    counts them in the second half of the slot register. Packets between switch and server may
    overtake each other. */
module NetLockSpills {
  import opened Messages
  import opened NetLockRings
  import opened NetLockServers
  import opened NetLockSwitches

  /** The ring of a lock, packets on their way to the server and back, and the server's queue.
      A notice tells the server that the ring is empty; of each one on its way it is known how
      many of the requests sent before it are still on theirs.
      History: all requests in order of arrival, those written into the ring, how many were
      taken off it, the grants in the order of issue, and whether each packet so far was
      delivered in the order of sending. */
  datatype State = State(ring: Ring, toServer: seq<Wqe>, server: seq<Wqe>, back: seq<Wqe>, notices: seq<nat>,
                         arrived: seq<Wqe>, stored: seq<Wqe>, taken: nat, granted: seq<Wqe>, inOrder: bool)

  datatype Step =
    | Request(x: Wqe)                // at the switch
    | Unlock(mode: Mode)             // at the switch, with all its passes
    | Enqueue(i: nat)                // the server receives a spilled request
    | Notice(k: nat, lenInSwitch: nat) // the server learns that the switch queue is empty
    | PushBack(i: nat)               // the switch receives a pushed back request

  function Initial(left: nat, right: nat, slots: seq<Wqe>): State
    requires left <= right
  {
    State(InitialRing(left, right, slots), [], [], [], [], [], [], 0, [], true)
  }

  function Without<T>(q: seq<T>, i: nat): seq<T>
    requires i < |q|
  {
    q[..i] + q[i + 1..]
  }

  /** Request `i` of those on their way to the server has arrived. */
  function Passed(notices: seq<nat>, i: nat): seq<nat> {
    seq(|notices|, k requires 0 <= k < |notices| => if i < notices[k] then notices[k] - 1 else notices[k])
  }

  /** Record a request that was written into the ring, and its grant if the switch notifies it. */
  function Written(s: State, x: Wqe, verdict: Verdict): State {
    s.(stored := s.stored + [x], granted := if verdict == Queued(true) then s.granted + [x] else s.granted)
  }

  predicate Enabled(s: State, step: Step) {
    match step
    case Request(_) => true
    case Unlock(_) => true
    case Enqueue(i) => i < |s.toServer|
    case Notice(k, _) => k < |s.notices|
    case PushBack(i) => i < |s.back|
  }

  function Next(s: State, step: Step): State
    requires Shaped(s.ring) && Enabled(s, step)
  {
    match step
    case Request(x) =>
      var (ring, verdict) := Acquired(s.ring, x);
      if verdict == Spilled then s.(ring := ring, toServer := s.toServer + [x], arrived := s.arrived + [x])
      else Written(s.(ring := ring, arrived := s.arrived + [x]), x, verdict)
    case Unlock(mode) =>
      var (ring, fate) := Released(s.ring, mode);
      s.(ring := ring, taken := s.taken + 1, notices := if fate == AskServer then s.notices + [|s.toServer|] else s.notices,
         granted := s.granted + NewGrants(mode, Queue(ring)))
    case Enqueue(i) =>
      s.(server := s.server + [s.toServer[i]], toServer := Without(s.toServer, i),
         notices := Passed(s.notices, i), inOrder := s.inOrder && i == 0)
    case Notice(k, lenInSwitch) =>
      var n := Min(|s.server|, lenInSwitch);
      s.(notices := Without(s.notices, k), back := s.back + s.server[..n], server := s.server[n..])
    case PushBack(i) =>
      var (ring, verdict) := PushedBack(s.ring, s.back[i]);
      Written(s.(ring := ring, back := Without(s.back, i), inOrder := s.inOrder && i == 0), s.back[i], verdict)
  }

  // ---- What every step keeps ----------------------------------------------------------

  /** The register counts the requests outside the switch. */
  predicate Counted(s: State) {
    Shaped(s.ring) && s.ring.spilled == |s.toServer| + |s.server| + |s.back|
  }

  predicate Conserved(s: State) {
    multiset(s.arrived) == multiset(s.stored) + multiset(s.toServer) + multiset(s.server) + multiset(s.back)
  }

  /** With packets in order: the requests in the ring, then those outside, oldest first. */
  predicate Ordered(s: State) {
    s.inOrder ==> s.arrived == s.stored + (s.back + (s.server + s.toServer))
  }

  lemma CountKept(s: State, step: Step)
    requires Counted(s) && Enabled(s, step)
    ensures Counted(Next(s, step))
  {
  }

  lemma TakeOne(q: seq<Wqe>, i: nat)
    requires i < |q|
    ensures multiset(q) == multiset(Without(q, i)) + multiset{q[i]}
    ensures i == 0 ==> q == [q[0]] + Without(q, 0)
  {
    assert q == q[..i] + [q[i]] + q[i + 1..];
  }

  /** Moving requests between two places keeps the sum. */
  lemma Move(a: multiset<Wqe>, b: multiset<Wqe>, m: multiset<Wqe>, a': multiset<Wqe>, b': multiset<Wqe>)
    requires a == a' + m && b' == b + m
    ensures a + b == a' + b'
  {
  }

  lemma NoneLost(s: State, step: Step)
    requires Counted(s) && Conserved(s) && Enabled(s, step)
    ensures Conserved(Next(s, step))
  {
    hide Shaped, Acquired, Released, PushedBack, Without;
    match step
    case Request(x) => RequestLosesNone(s, x);
    case Unlock(_) =>
    case Enqueue(i) => EnqueueLosesNone(s, i);
    case Notice(k, n) => NoticeLosesNone(s, k, n);
    case PushBack(i) => PushBackLosesNone(s, i);
  }

  lemma RequestLosesNone(s: State, x: Wqe)
    requires Counted(s) && Conserved(s)
    ensures Conserved(Next(s, Request(x)))
  {
    hide Shaped, Acquired;
    assert multiset(s.arrived + [x]) == multiset(s.arrived) + multiset{x};
    if Acquired(s.ring, x).1 == Spilled {
      assert multiset(s.toServer + [x]) == multiset(s.toServer) + multiset{x};
    } else {
      assert multiset(s.stored + [x]) == multiset(s.stored) + multiset{x};
    }
  }

  lemma EnqueueLosesNone(s: State, i: nat)
    requires Counted(s) && Conserved(s) && Enabled(s, Enqueue(i))
    ensures Conserved(Next(s, Enqueue(i)))
  {
    hide Shaped, Without;
    var t := Next(s, Enqueue(i));
    TakeOne(s.toServer, i);
    Move(multiset(s.toServer), multiset(s.server), multiset{s.toServer[i]}, multiset(t.toServer), multiset(t.server));
  }

  lemma NoticeLosesNone(s: State, k: nat, n: nat)
    requires Counted(s) && Conserved(s) && Enabled(s, Notice(k, n))
    ensures Conserved(Next(s, Notice(k, n)))
  {
    hide Shaped;
    var m := Min(|s.server|, n);
    var t := Next(s, Notice(k, n));
    assert s.server == s.server[..m] + s.server[m..];
    Move(multiset(s.server), multiset(s.back), multiset(s.server[..m]), multiset(t.server), multiset(t.back));
  }

  lemma PushBackLosesNone(s: State, i: nat)
    requires Counted(s) && Conserved(s) && Enabled(s, PushBack(i))
    ensures Conserved(Next(s, PushBack(i)))
  {
    hide Shaped, Without, PushedBack;
    var t := Next(s, PushBack(i));
    TakeOne(s.back, i);
    Move(multiset(s.back), multiset(s.stored), multiset{s.back[i]}, multiset(t.back), multiset(t.stored));
  }

  /** Moving the boundary between neighbours does not change their concatenation. */
  lemma Regroup(a: seq<Wqe>, b: seq<Wqe>, c: seq<Wqe>, d: seq<Wqe>)
    ensures a + ((b + c) + d) == (a + b) + (c + d)
  {
  }

  lemma RequestOrdered(s: State, x: Wqe)
    requires Counted(s) && Ordered(s)
    ensures Ordered(Next(s, Request(x)))
  {
    if s.ring.empty > 0 && s.ring.spilled == 0 {
      assert s.toServer == [] && s.server == [] && s.back == [];
    } else {
      assert s.stored + (s.back + (s.server + (s.toServer + [x]))) == s.stored + (s.back + (s.server + s.toServer)) + [x];
    }
  }

  lemma EnqueueOrdered(s: State, i: nat)
    requires Counted(s) && Ordered(s) && Enabled(s, Enqueue(i))
    ensures Ordered(Next(s, Enqueue(i)))
  {
    hide Shaped, Without;
    if i == 0 {
      var t := Next(s, Enqueue(0));
      TakeOne(s.toServer, 0);
      assert s.server + s.toServer == t.server + t.toServer;
    }
  }

  lemma NoticeOrdered(s: State, k: nat, n: nat)
    requires Counted(s) && Ordered(s) && Enabled(s, Notice(k, n))
    ensures Ordered(Next(s, Notice(k, n)))
  {
    hide Shaped;
    var t := Next(s, Notice(k, n));
    assert s.back + (s.server + s.toServer) == t.back + (t.server + t.toServer);
  }

  lemma PushBackOrdered(s: State, i: nat)
    requires Counted(s) && Ordered(s) && Enabled(s, PushBack(i))
    ensures Ordered(Next(s, PushBack(i)))
  {
    hide Shaped, Without, PushedBack;
    if i == 0 {
      TakeOne(s.back, 0);
      Regroup(s.stored, [s.back[0]], Next(s, PushBack(0)).back, s.server + s.toServer);
    }
  }

  lemma OrderKept(s: State, step: Step)
    requires Counted(s) && Ordered(s) && Enabled(s, step)
    ensures Ordered(Next(s, step))
  {
    match step
    case Request(x) => RequestOrdered(s, x);
    case Unlock(_) =>
    case Enqueue(i) => EnqueueOrdered(s, i);
    case Notice(k, n) => NoticeOrdered(s, k, n);
    case PushBack(i) => PushBackOrdered(s, i);
  }

  lemma StepKeeps(s: State, step: Step)
    requires Counted(s) && Conserved(s) && Ordered(s) && Enabled(s, step)
    ensures Counted(Next(s, step)) && Conserved(Next(s, step)) && Ordered(Next(s, step))
  {
    hide Conserved, Ordered, Next;
    CountKept(s, step);
    NoneLost(s, step);
    OrderKept(s, step);
  }

  ghost predicate Possible(s: State, steps: seq<Step>, t: State)
    decreases |steps|
  {
    if steps == [] then s == t
    else Shaped(s.ring) && Enabled(s, steps[0]) && Possible(Next(s, steps[0]), steps[1..], t)
  }

  lemma {:induction false} RunKeeps(s: State, steps: seq<Step>, t: State)
    requires Counted(s) && Conserved(s) && Ordered(s) && Possible(s, steps, t)
    ensures Counted(t) && Conserved(t) && Ordered(t)
    decreases |steps|
  {
    hide Conserved, Ordered, Next;
    if steps != [] {
      StepKeeps(s, steps[0]);
      RunKeeps(Next(s, steps[0]), steps[1..], t);
    }
  }

  /** In every run the register counts exactly the requests on their way to the server, queued
      there, and on their way back, and each request that arrived was either written into the
      ring or is one of them, none twice. Whether the ring keeps what is written into it is
      `RingKeepsExactly`. */
  lemma SpillAccounting(left: nat, right: nat, slots: seq<Wqe>, steps: seq<Step>, t: State)
    requires left <= right < |slots| && Possible(Initial(left, right, slots), steps, t)
    ensures t.ring.spilled == |t.toServer| + |t.server| + |t.back|
    ensures multiset(t.arrived) == multiset(t.stored) + multiset(t.toServer) + multiset(t.server) + multiset(t.back)
  {
    RunKeeps(Initial(left, right, slots), steps, t);
  }

  /** If the packets are delivered in order, requests enter the ring in order of arrival, with
      or without the detour by the server: a request never overtakes a spilled one. */
  lemma ArrivalOrder(left: nat, right: nat, slots: seq<Wqe>, steps: seq<Step>, t: State)
    requires left <= right < |slots| && Possible(Initial(left, right, slots), steps, t) && t.inOrder
    ensures t.arrived == t.stored + t.back + t.server + t.toServer
  {
    RunKeeps(Initial(left, right, slots), steps, t);
    assert t.stored + (t.back + (t.server + t.toServer)) == t.stored + t.back + t.server + t.toServer;
  }

  /** A request is written into the ring at once exactly if a slot is free and no request is
      outside the switch; otherwise it goes to the server. */
  lemma StoredExactly(left: nat, right: nat, slots: seq<Wqe>, steps: seq<Step>, s: State, x: Wqe)
    requires left <= right < |slots| && Possible(Initial(left, right, slots), steps, s)
    ensures Shaped(s.ring)
    ensures var t := Next(s, Request(x));
            if s.ring.empty > 0 && s.toServer == [] && s.server == [] && s.back == [] then
              t.stored == s.stored + [x] && t.toServer == []
            else t.stored == s.stored && t.toServer == s.toServer + [x]
  {
    RunKeeps(Initial(left, right, slots), steps, s);
  }

  // ---- What the ring keeps ------------------------------------------------------------

  /** The ring is what was written into it less what was taken off. */
  ghost predicate RingIs(s: State) {
    Shaped(s.ring) && Consistent(s.ring) && s.taken <= |s.stored| && Queue(s.ring) == s.stored[s.taken..]
  }

  /** A run in which every release is one by a holder, in the mode of the head of the queue. */
  ghost predicate Tidy(s: State, steps: seq<Step>)
    decreases |steps|
  {
    steps != [] ==>
      && Shaped(s.ring) && Enabled(s, steps[0])
      && (steps[0].Unlock? ==> Queue(s.ring) != [] && Queue(s.ring)[0].op == steps[0].mode)
      && Tidy(Next(s, steps[0]), steps[1..])
  }

  ghost predicate RingAlwaysIs(s: State, steps: seq<Step>)
    requires Tidy(s, steps)
    decreases |steps|
  {
    RingIs(s) && (steps != [] ==> RingAlwaysIs(Next(s, steps[0]), steps[1..]))
  }

  /** Every push-back of the run finds a free slot. */
  ghost predicate SlotsSuffice(s: State, steps: seq<Step>)
    requires Tidy(s, steps)
    decreases |steps|
  {
    steps != [] ==>
      (steps[0].PushBack? ==> s.ring.empty > 0) && SlotsSuffice(Next(s, steps[0]), steps[1..])
  }

  lemma OtherRegisters(r: Ring, spilled: int)
    requires Consistent(r)
    ensures Consistent(r.(spilled := spilled)) && Queue(r.(spilled := spilled)) == Queue(r)
  {
    assert Queue(r.(spilled := spilled)) == Queue(r);
  }

  lemma RequestRing(s: State, x: Wqe)
    requires RingIs(s)
    ensures RingIs(Next(s, Request(x)))
  {
    hide Queue, Consistent, Enqueued;
    if s.ring.empty > 0 && s.ring.spilled == 0 {
      EnqueueAppends(s.ring, x);
      assert (s.stored + [x])[s.taken..] == s.stored[s.taken..] + [x];
    } else {
      OtherRegisters(s.ring, s.ring.spilled + 1);
    }
  }

  lemma UnlockRing(s: State, mode: Mode)
    requires RingIs(s) && Queue(s.ring) != [] && Queue(s.ring)[0].op == mode
    ensures RingIs(Next(s, Unlock(mode)))
  {
    hide Consistent, Queue;
    ReleasePops(s.ring, mode);
    assert s.stored[s.taken..][1..] == s.stored[s.taken + 1..];
  }

  lemma PushBackRing(s: State, i: nat)
    requires RingIs(s) && i < |s.back|
    ensures RingIs(Next(s, PushBack(i))) <==> s.ring.empty > 0
  {
    hide Consistent, Queue, PushedBack;
    PushBackExactly(s.ring, s.back[i]);
    assert Shaped(PushedBack(s.ring, s.back[i]).0) by { PushBackShaped(s.ring, s.back[i]); }
    assert (s.stored + [s.back[i]])[s.taken..] == s.stored[s.taken..] + [s.back[i]];
  }

  lemma PushBackShaped(r: Ring, x: Wqe)
    requires Shaped(r)
    ensures Shaped(PushedBack(r, x).0)
  {
  }

  lemma StepRing(s: State, step: Step)
    requires RingIs(s) && Enabled(s, step)
    requires step.Unlock? ==> Queue(s.ring) != [] && Queue(s.ring)[0].op == step.mode
    ensures RingIs(Next(s, step)) <==> (step.PushBack? ==> s.ring.empty > 0)
  {
    match step
    case Request(x) => RequestRing(s, x);
    case Unlock(mode) => UnlockRing(s, mode);
    case Enqueue(_) =>
    case Notice(_, _) =>
    case PushBack(i) => PushBackRing(s, i);
  }

  lemma {:induction false} RingFrom(s: State, steps: seq<Step>)
    requires RingIs(s) && Tidy(s, steps)
    ensures RingAlwaysIs(s, steps) <==> SlotsSuffice(s, steps)
    decreases |steps|
  {
    hide RingIs, Next, Queue;
    if steps != [] {
      StepRing(s, steps[0]);
      if steps[0].PushBack? ==> s.ring.empty > 0 {
        RingFrom(Next(s, steps[0]), steps[1..]);
      }
    }
  }

  /** Throughout a run the ring is what was written into it less what was taken off exactly if
      every push-back finds a free slot. */
  lemma RingKeepsExactly(left: nat, right: nat, slots: seq<Wqe>, steps: seq<Step>)
    requires left <= right < |slots| && Tidy(Initial(left, right, slots), steps)
    ensures RingAlwaysIs(Initial(left, right, slots), steps) <==> SlotsSuffice(Initial(left, right, slots), steps)
  {
    InitialConsistent(left, right, slots);
    RingFrom(Initial(left, right, slots), steps);
  }

  // ---- What is granted ----------------------------------------------------------------

  /** The grants so far, in order, went to the requests taken off the ring and then to the
      leading run of its queue. A queue that has just been filled again has its run granted. */
  ghost predicate RunGranted(s: State) {
    RingIs(s) && s.granted == s.stored[..s.taken + RunLength(Queue(s.ring))]
  }

  /** A request written into the ring, on arrival or pushed back, is granted by the same packet
      exactly if the leading run of the queue reaches to it. */
  ghost predicate GrantedWhenWritten(s: State, step: Step)
    requires Shaped(s.ring) && Enabled(s, step)
  {
    var t := Next(s, step);
    |t.stored| > |s.stored| ==>
      && Shaped(t.ring)
      && t.granted == if RunLength(Queue(t.ring)) == |Queue(t.ring)| then s.granted + [t.stored[|s.stored|]] else s.granted
  }

  ghost predicate GrantsFollow(s: State, steps: seq<Step>)
    requires Tidy(s, steps)
    decreases |steps|
  {
    && RunGranted(s)
    && (steps != [] ==> GrantedWhenWritten(s, steps[0]) && GrantsFollow(Next(s, steps[0]), steps[1..]))
  }

  /** A request joins the queue of a ring whose run is granted. */
  lemma WriteGrants(s: State, x: Wqe, t: State, verdict: Verdict)
    requires RunGranted(s) && RingIs(t) && t.stored == s.stored + [x] && t.taken == s.taken
    requires verdict == Queued(if x.op == Shared then Writers(Queue(s.ring)) == [] else Queue(s.ring) == [])
    requires t.granted == if verdict == Queued(true) then s.granted + [x] else s.granted
    ensures RunGranted(t)
    ensures t.granted == if RunLength(Queue(t.ring)) == |Queue(t.ring)| then s.granted + [x] else s.granted
  {
    hide Queue, Consistent, RunLength, Shaped;
    var q := Queue(s.ring);
    assert Queue(t.ring) == q + [x];
    RunAppend(q, x);
    if verdict == Queued(true) {
      assert s.granted == s.stored;
      assert t.granted == t.stored;
    } else {
      assert s.stored[..s.taken + RunLength(q)] == t.stored[..s.taken + RunLength(q)];
    }
  }

  lemma RequestGrants(s: State, x: Wqe)
    requires RunGranted(s)
    ensures RunGranted(Next(s, Request(x))) && GrantedWhenWritten(s, Request(x))
  {
    hide Queue, Consistent, Enqueued, RunLength, Shaped;
    var t := Next(s, Request(x));
    RequestRing(s, x);
    if s.ring.empty > 0 && s.ring.spilled == 0 {
      EnqueueAppends(s.ring, x);
      WriteGrants(s, x, t, Acquired(s.ring, x).1);
    } else {
      OtherRegisters(s.ring, s.ring.spilled + 1);
    }
  }

  lemma PushBackGrants(s: State, i: nat)
    requires RunGranted(s) && i < |s.back| && s.ring.empty > 0
    ensures RunGranted(Next(s, PushBack(i))) && GrantedWhenWritten(s, PushBack(i))
  {
    hide Queue, Consistent, PushedBack, RunLength, Shaped, Without;
    PushBackRing(s, i);
    PushBackExactly(s.ring, s.back[i]);
    WriteGrants(s, s.back[i], Next(s, PushBack(i)), PushedBack(s.ring, s.back[i]).1);
  }

  /** The rest of a run of readers is as long as before less the one; otherwise the run ends. */
  lemma RunTail(q: seq<Wqe>)
    requires q != []
    ensures if q[1..] != [] && q[0].op == q[1].op == Shared then RunLength(q) == 1 + RunLength(q[1..])
            else RunLength(q) == 1
  {
    assert q[0].op == Shared ==> LeadingReaders(q) == 1 + LeadingReaders(q[1..]);
  }

  lemma UnlockGrants(s: State, mode: Mode)
    requires RunGranted(s) && Queue(s.ring) != [] && Queue(s.ring)[0].op == mode
    ensures RunGranted(Next(s, Unlock(mode)))
  {
    hide Queue, Consistent, RunLength, Released;
    var q, t := Queue(s.ring), Next(s, Unlock(mode));
    ReleasePops(s.ring, mode);
    UnlockRing(s, mode);
    RunTail(q);
    assert s.stored[..t.taken] + q[1..] == s.stored;
  }

  lemma StepGrants(s: State, step: Step)
    requires RunGranted(s) && Enabled(s, step)
    requires step.Unlock? ==> Queue(s.ring) != [] && Queue(s.ring)[0].op == step.mode
    requires step.PushBack? ==> s.ring.empty > 0
    ensures RunGranted(Next(s, step)) && GrantedWhenWritten(s, step)
  {
    hide Queue, RunLength;
    match step
    case Request(x) => RequestGrants(s, x);
    case Unlock(mode) => UnlockGrants(s, mode);
    case Enqueue(_) =>
    case Notice(_, _) =>
    case PushBack(i) => PushBackGrants(s, i);
  }

  lemma {:induction false} GrantsFrom(s: State, steps: seq<Step>)
    requires RunGranted(s) && Tidy(s, steps)
    ensures GrantsFollow(s, steps) <==> SlotsSuffice(s, steps)
    decreases |steps|
  {
    hide RunGranted, GrantedWhenWritten, Next, Queue;
    if steps != [] {
      if steps[0].PushBack? && s.ring.empty == 0 {
        FullLosesRing(s, steps[0].i);
      } else {
        StepGrants(s, steps[0]);
        GrantsFrom(Next(s, steps[0]), steps[1..]);
      }
    }
  }

  lemma FullLosesRing(s: State, i: nat)
    requires RunGranted(s) && i < |s.back| && s.ring.empty == 0
    ensures !RunGranted(Next(s, PushBack(i)))
  {
    hide Queue, Next;
    PushBackRing(s, i);
  }

  /** A queue of requests never stands still: its head holds the lock. */
  lemma HeadGranted(s: State)
    requires RunGranted(s) && Queue(s.ring) != []
    ensures s.taken < |s.granted| && s.granted[s.taken] == Queue(s.ring)[0]
  {
    assert RunLength(Queue(s.ring)) > 0;
  }

  /** Throughout a run the grants go in order to exactly the requests taken off and the leading
      run, and every request written into the ring is granted at once exactly if it joins that
      run, if and only if every push-back finds a free slot. */
  lemma GrantsFollowExactly(left: nat, right: nat, slots: seq<Wqe>, steps: seq<Step>)
    requires left <= right < |slots| && Tidy(Initial(left, right, slots), steps)
    ensures GrantsFollow(Initial(left, right, slots), steps) <==> SlotsSuffice(Initial(left, right, slots), steps)
  {
    InitialConsistent(left, right, slots);
    GrantsFrom(Initial(left, right, slots), steps);
  }

}
