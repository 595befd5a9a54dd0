/** The results about all runs of NetLock's queue of one lock in the switch, and runs that show
    what fails without their condition. */
module NetLockSafety {
  import opened Messages
  import opened NetLockRings
  import opened NetLockRuns

  /** A state of a run in which arrivals spare the slots that packets still have to read. */
  ghost predicate Reachable(s: State) {
    exists left: nat, right: nat, slots, steps ::
      left <= right < |slots| && Careful(Initial(left, right, slots), steps)
      && Possible(Initial(left, right, slots), steps) && s == After(Initial(left, right, slots), steps)
  }

  lemma ReachableInv(s: State)
    requires Reachable(s)
    ensures Inv(s)
  {
    hide Inv, NetLockRuns.Next;
    var left: nat, right: nat, slots, steps :|
      left <= right < |slots| && Careful(Initial(left, right, slots), steps)
      && Possible(Initial(left, right, slots), steps) && s == After(Initial(left, right, slots), steps);
    InitialInv(left, right, slots);
    RunKeeps(Initial(left, right, slots), steps);
  }

  // ---- The condition on arrivals ------------------------------------------------------

  /** At every state of the run the slots that packets still have to read hold the requests
      they were sent for. */
  ghost predicate AlwaysIntact(s: State, steps: seq<Step>)
    requires Possible(s, steps)
    decreases |steps|
  {
    AllIntact(s) && (steps != [] ==> AlwaysIntact(NetLockRuns.Next(s, steps[0]), steps[1..]))
  }

  lemma {:induction false} IntactFrom(s: State, steps: seq<Step>)
    requires Possible(s, steps)
    ensures Inv(s) ==> (AlwaysIntact(s, steps) <==> Careful(s, steps))
    decreases |steps|
  {
    hide AllIntact, Spares, NetLockRuns.Next, Enabled, Stored, AllAimed, Accounts, Pendings, Holders;
    if steps != [] && Inv(s) {
      var step := steps[0];
      if step.Arrive? {
        ArriveIntactExactly(s, step.x);
      }
      if step.Arrive? ==> Spares(s) {
        StepKeeps(s, step);
        IntactFrom(NetLockRuns.Next(s, step), steps[1..]);
      }
    }
  }

  /** Every pass finds the request it was sent for exactly in the careful runs. */
  lemma ReadsOwnExactly(left: nat, right: nat, slots: seq<Wqe>, steps: seq<Step>)
    requires left <= right < |slots| && Possible(Initial(left, right, slots), steps)
    ensures AlwaysIntact(Initial(left, right, slots), steps) <==> Careful(Initial(left, right, slots), steps)
  {
    InitialInv(left, right, slots);
    IntactFrom(Initial(left, right, slots), steps);
  }

  // ---- Exclusion ----------------------------------------------------------------------

  lemma InvExcludes(s: State, i: nat, j: nat)
    requires Accounts(s) && Holders(s) && i < j < |s.arrived| && Holds(s, i) && Holds(s, j)
    ensures s.arrived[i].op == s.arrived[j].op == Shared
  {
    FrontIs(s.arrived, s.popped);
    assert HolderFits(s, i) && HolderFits(s, j) && WriterFits(s, i) && WriterFits(s, j);
  }

  /** Two holders at a time are readers, in whatever order holders release and whatever
      recirculates meanwhile. */
  lemma MutualExclusion(s: State, i: nat, j: nat)
    requires Reachable(s) && i < j < |s.arrived| && Holds(s, i) && Holds(s, j)
    ensures s.arrived[i].op == s.arrived[j].op == Shared
  {
    ReachableInv(s);
    InvExcludes(s, i, j);
  }

  /** The queue is the FIFO of the requests that arrived and were not yet taken off; each was
      granted exactly once if it is before the end of the leading run and no recirculating
      release is still to grant it, and otherwise never. */
  lemma GrantedExactlyOnce(s: State, i: nat)
    requires Reachable(s) && i < |s.arrived|
    ensures Shaped(s.ring) && s.popped <= |s.arrived| == |s.grants| && Queue(s.ring) == s.arrived[s.popped..]
    ensures s.grants[i]
            == if i < s.popped + RunLength(Queue(s.ring)) && !Pending(s.arrived, s.packets, i) then 1 else 0
    ensures s.packets == [] ==> (s.grants[i] == 1 <==> i < s.popped + RunLength(Queue(s.ring)))
  {
    ReachableInv(s);
  }

  // ---- Holders and the leading run ----------------------------------------------------

  ghost function Held(s: State): set<nat> {
    set i | i in Below(|s.grants|) && Holds(s, i)
  }

  /** The arrivals that recirculating releases are still to grant. */
  ghost function ToGrant(s: State): set<nat> {
    set i | i in Below(|s.arrived|) && Pending(s.arrived, s.packets, i)
  }

  /** The arrivals that make up the leading run of the queue. */
  ghost function LeadingRun(s: State): set<nat>
    requires s.popped <= |s.arrived|
  {
    Below(Front(s.arrived, s.popped)) - Below(s.popped)
  }

  lemma HeldAre(s: State)
    requires Accounts(s) && Pendings(s)
    ensures var whole := Below(Front(s.arrived, s.popped));
            && Held(s) == whole - s.released - ToGrant(s) && s.released + ToGrant(s) <= whole && s.released !! ToGrant(s)
  {
    hide Pending, Wants, Front;
    var g := Front(s.arrived, s.popped);
    FrontIs(s.arrived, s.popped);
    forall i: nat ensures i in ToGrant(s) ==> i < g {
      if i in ToGrant(s) {
        PendingInside(s, i);
      }
    }
    forall i: nat ensures i in Held(s) <==> i < g && i !in s.released && i !in ToGrant(s) {
      assert i < |s.grants| ==> (s.grants[i] == 1 <==> i < g && !Pending(s.arrived, s.packets, i));
    }
    assert Held(s) == Below(g) - s.released - ToGrant(s);
  }

  lemma PendingInside(s: State, i: int)
    requires s.popped <= |s.arrived| && Pendings(s) && Pending(s.arrived, s.packets, i)
    ensures i < Front(s.arrived, s.popped)
  {
    var k :| 0 <= k < |s.packets| && Wants(s.arrived, s.packets[k], i);
    assert Grantable(s.arrived, s.popped, i);
  }

  /** In every reachable state the holders and the requests still to be granted are together as
      many as the leading run has, and the holders have its mode. */
  lemma HeldMatchesRun(s: State)
    requires Reachable(s)
    ensures Shaped(s.ring) && |Held(s)| + |ToGrant(s)| == RunLength(Queue(s.ring))
    ensures Queue(s.ring) != [] ==> forall i :: i in Held(s) ==> i < |s.arrived| && s.arrived[i].op == Queue(s.ring)[0].op
  {
    ReachableInv(s);
    RunIsFront(s);
    hide Stored, AllAimed, AllIntact, Pendings;
    HeldAre(s);
    RestSize(Below(Front(s.arrived, s.popped)), s.released, ToGrant(s));
    hide Accounts;
    forall i | i in Held(s) ensures i < |s.arrived| && (s.popped < |s.arrived| ==> s.arrived[i].op == s.arrived[s.popped].op) {
      assert HolderFits(s, i);
    }
  }

  lemma RunIsFront(s: State)
    requires Inv(s)
    ensures Shaped(s.ring) && s.popped <= |s.arrived| == |s.grants| && Queue(s.ring) == s.arrived[s.popped..]
    ensures s.popped + RunLength(Queue(s.ring)) == Front(s.arrived, s.popped) && |s.released| == s.popped
  {
  }

  lemma RestSize(whole: set<nat>, a: set<nat>, b: set<nat>)
    requires a + b <= whole && a !! b
    ensures |whole - a - b| + |b| == |whole| - |a|
  {
    assert |whole - a| == |whole| - |a|;
    assert b <= whole - a;
    assert |whole - a - b| == |whole - a| - |b|;
  }

  /** The holders are those of the leading run that no packet is still to grant. */
  ghost predicate HoldersAreRun(s: State) {
    s.popped <= |s.arrived| && Held(s) == LeadingRun(s) - ToGrant(s)
  }

  /** At every state of the run the holders are the granted part of the leading run. */
  ghost predicate AlwaysRun(s: State, steps: seq<Step>)
    requires Possible(s, steps)
    decreases |steps|
  {
    HoldersAreRun(s) && (steps != [] ==> AlwaysRun(NetLockRuns.Next(s, steps[0]), steps[1..]))
  }

  /** Every release of the run comes from the request at the head of the queue. */
  ghost predicate InOrder(s: State, steps: seq<Step>)
    requires Possible(s, steps)
    decreases |steps|
  {
    steps != [] ==>
      (steps[0].Depart? ==> steps[0].i == s.popped) && InOrder(NetLockRuns.Next(s, steps[0]), steps[1..])
  }

  lemma OrderedHolders(s: State)
    requires Accounts(s) && Pendings(s) && s.released == Below(s.popped)
    ensures HoldersAreRun(s)
  {
    HeldAre(s);
  }

  lemma HolderBehind(s: State, i: nat)
    requires Accounts(s) && Holds(s, i) && s.released == Below(s.popped) && i != s.popped && s.popped < |s.arrived|
    ensures s.popped < i < Front(s.arrived, s.popped) && !Pending(s.arrived, s.packets, i)
    ensures !Closing(s.arrived, s.popped) && Front(s.arrived, s.popped + 1) == Front(s.arrived, s.popped)
  {
    hide Front, Pending;
    FrontPops(s.arrived, s.popped);
  }

  /** A release by a holder other than the head leaves a released request in the run. */
  lemma DisorderLeft(s: State, i: nat, t: State)
    requires Accounts(s) && Pendings(s) && Holders(s) && i < |s.arrived| && Holds(s, i)
    requires s.popped < |s.arrived| && Departs(s, i, t)
    requires s.released == Below(s.popped) && i != s.popped
    ensures t.popped <= |t.arrived| && i in LeadingRun(t) && i !in ToGrant(t) && i !in Held(t)
  {
    hide Front, Pending, Wants, Pendings, Holders, Accounts, Closing;
    HolderBehind(s, i);
    DepartFacts(s, i, t);
    DepartPending(s, i, t, i);
    assert i in t.released;
  }

  lemma DisorderShows(s: State, i: nat)
    requires Inv(s) && Enabled(s, Depart(i))
    ensures s.released == Below(s.popped) && i != s.popped ==> !HoldersAreRun(NetLockRuns.Next(s, Depart(i)))
  {
    hide Stored, AllAimed, AllIntact, Pendings, Departs, Accounts, LeadingRun, Held, ToGrant, NetLockRuns.Next;
    assert s.popped < |s.arrived| && s.arrived[i].op == s.arrived[s.popped].op by { ClosedRun(s, i); }
    hide Holders;
    if s.released == Below(s.popped) && i != s.popped {
      DepartEffect(s, i);
      DisorderLeft(s, i, NetLockRuns.Next(s, Depart(i)));
    }
  }

  lemma {:induction false} OrderFrom(s: State, steps: seq<Step>)
    requires Possible(s, steps)
    ensures Inv(s) && s.released == Below(s.popped) && Careful(s, steps) ==>
              (AlwaysRun(s, steps) <==> InOrder(s, steps))
    decreases |steps|
  {
    hide Inv, Spares, HoldersAreRun, NetLockRuns.Next;
    if Inv(s) && s.released == Below(s.popped) && Careful(s, steps) {
      assert HoldersAreRun(s) by { InvParts(s); OrderedHolders(s); }
      if steps != [] {
        var step := steps[0];
        StepKeeps(s, step);
        ReleasedNext(s, step);
        if step.Depart? && step.i != s.popped {
          DisorderShows(s, step.i);
        } else {
          OrderFrom(NetLockRuns.Next(s, step), steps[1..]);
        }
      }
    }
  }

  lemma InvParts(s: State)
    requires Inv(s)
    ensures Accounts(s) && Pendings(s)
  {
  }

  lemma ReleasedNext(s: State, step: Step)
    requires Enabled(s, step) && s.released == Below(s.popped)
    ensures !(step.Depart? && step.i != s.popped) ==>
              NetLockRuns.Next(s, step).released == Below(NetLockRuns.Next(s, step).popped)
  {
    assert Below(s.popped + 1) == Below(s.popped) + {s.popped};
  }

  /** The holders are the granted part of the leading run itself, at every state of a run,
      exactly if every release comes from the head of the queue. */
  lemma HoldersAreRunExactly(left: nat, right: nat, slots: seq<Wqe>, steps: seq<Step>)
    requires left <= right < |slots| && Careful(Initial(left, right, slots), steps)
    ensures Possible(Initial(left, right, slots), steps)
    ensures AlwaysRun(Initial(left, right, slots), steps) <==> InOrder(Initial(left, right, slots), steps)
  {
    InitialInv(left, right, slots);
    RunKeeps(Initial(left, right, slots), steps);
    OrderFrom(Initial(left, right, slots), steps);
  }
}
