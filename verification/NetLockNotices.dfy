/** Why the requests that NetLock keeps at its server come back: the notice that the ring is
    empty. If a notice overtakes a request on the way to the server, the lock can stand still
    for good (baseline/NetLock/switch/p4/ingress.p4, baseline/NetLock/lib/lock_server.cc). */
module NetLockNotices {
  import opened Messages
  import NetLockRings
  import opened NetLockServers
  import opened NetLockSpills

  // ---- Notices that arrive in turn ----------------------------------------------------

  /** No notice overtakes a request that was sent to the server before it, and the server takes
      the ring to have at least one slot. */
  ghost predicate NoticesInTurn(s: State, steps: seq<Step>)
    decreases |steps|
  {
    steps != [] && NetLockRings.Shaped(s.ring) && Enabled(s, steps[0]) ==>
      && (steps[0].Notice? ==> s.notices[steps[0].k] == 0 && steps[0].lenInSwitch > 0)
      && NoticesInTurn(Next(s, steps[0]), steps[1..])
  }

  /** A notice that will find a request at the server. */
  predicate Finds(s: State, v: nat) {
    v in s.notices && |s.server| + v > 0
  }

  /** While the ring is empty, requests outside the switch are on their way back, or a notice
      that will bring some back is on its way. */
  ghost predicate Coming(s: State) {
    NetLockRings.Fill(s.ring) == 0 && s.ring.spilled > 0 ==> s.back != [] || exists v: nat :: Finds(s, v)
  }

  ghost predicate Supplied(s: State) {
    && Counted(s) && Coming(s)
    && (forall k :: 0 <= k < |s.notices| ==> s.notices[k] <= |s.toServer|)
  }

  lemma RequestSupplied(s: State, x: Wqe)
    requires Supplied(s)
    ensures Supplied(Next(s, Request(x)))
  {
    CountKept(s, Request(x));
    var t := Next(s, Request(x));
    if v: nat :| Finds(s, v) {
      assert Finds(t, v);
    }
  }

  lemma UnlockSupplied(s: State, mode: Mode)
    requires Supplied(s)
    ensures Supplied(Next(s, Unlock(mode)))
  {
    CountKept(s, Unlock(mode));
    hide NetLockRings.Queue;
    var t := Next(s, Unlock(mode));
    if s.ring.empty == s.ring.right - s.ring.left {
      assert t.notices[|s.notices|] == |s.toServer|;
      if s.back == [] && s.ring.spilled > 0 {
        assert Finds(t, |s.toServer|);
      }
    } else if v: nat :| Finds(s, v) {
      assert Finds(t, v);
    }
  }

  lemma EnqueueSupplied(s: State, i: nat)
    requires Supplied(s) && i < |s.toServer|
    ensures Supplied(Next(s, Enqueue(i)))
  {
    CountKept(s, Enqueue(i));
    var t := Next(s, Enqueue(i));
    if v: nat :| Finds(s, v) {
      var k :| 0 <= k < |s.notices| && s.notices[k] == v;
      assert t.notices[k] == if i < v then v - 1 else v;
      assert Finds(t, t.notices[k]);
    }
  }

  lemma NoticeSupplied(s: State, k: nat, n: nat)
    requires Supplied(s) && k < |s.notices| && s.notices[k] == 0 && n > 0
    ensures Supplied(Next(s, Notice(k, n)))
  {
    CountKept(s, Notice(k, n));
    var t := Next(s, Notice(k, n));
    if v: nat :| Finds(s, v) {
      if s.server == [] {
        var j :| 0 <= j < |s.notices| && s.notices[j] == v;
        assert t.notices[if j < k then j else j - 1] == v;
        assert Finds(t, v);
      }
    }
  }

  lemma PushBackSupplied(s: State, i: nat)
    requires Supplied(s) && i < |s.back|
    ensures Supplied(Next(s, PushBack(i)))
  {
    CountKept(s, PushBack(i));
  }

  lemma StepSupplied(s: State, step: Step)
    requires Supplied(s) && Enabled(s, step)
    requires step.Notice? ==> s.notices[step.k] == 0 && step.lenInSwitch > 0
    ensures Supplied(Next(s, step))
  {
    hide Supplied, Next;
    match step
    case Request(x) => RequestSupplied(s, x);
    case Unlock(mode) => UnlockSupplied(s, mode);
    case Enqueue(i) => EnqueueSupplied(s, i);
    case Notice(k, n) => NoticeSupplied(s, k, n);
    case PushBack(i) => PushBackSupplied(s, i);
  }

  lemma {:induction false} RunSupplied(s: State, steps: seq<Step>, t: State)
    requires Supplied(s) && Possible(s, steps, t) && NoticesInTurn(s, steps)
    ensures Supplied(t)
    decreases |steps|
  {
    hide Supplied, Next;
    if steps != [] {
      StepSupplied(s, steps[0]);
      RunSupplied(Next(s, steps[0]), steps[1..], t);
    }
  }

  /** If no notice overtakes a request, then whenever the ring is empty, requests outside the
      switch are on their way back or a notice that will find one at the server is on its way. */
  lemma NoneStranded(left: nat, right: nat, slots: seq<Wqe>, steps: seq<Step>, t: State)
    requires left <= right < |slots| && Possible(Initial(left, right, slots), steps, t)
    requires NoticesInTurn(Initial(left, right, slots), steps)
    ensures NetLockRings.Fill(t.ring) == 0 && t.server + t.toServer != [] && t.back == [] ==> exists v: nat :: Finds(t, v)
  {
    RunSupplied(Initial(left, right, slots), steps, t);
    assert |t.server + t.toServer| == |t.server| + |t.toServer|;
  }

  // ---- A notice that overtakes a request ----------------------------------------------

  /** Nobody holds the lock, requests are outside the switch, and nothing will bring them in. */
  predicate Stranded(s: State) {
    NetLockRings.Shaped(s.ring) && NetLockRings.Fill(s.ring) == 0 && s.ring.spilled > 0 && s.back == [] && s.notices == []
  }

  /** From there on no request is ever written into the ring or granted. */
  lemma {:induction false} StrandedForever(s: State, steps: seq<Step>, t: State)
    requires Stranded(s) && Possible(s, steps, t) && Tidy(s, steps)
    ensures Stranded(t) && t.stored == s.stored && t.granted == s.granted
    decreases |steps|
  {
    if steps != [] {
      StrandedForever(Next(s, steps[0]), steps[1..], t);
    }
  }
}
