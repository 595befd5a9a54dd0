/** ParLock's lock table entry (baseline/ParLock/lib/lock_queue.cc) and the reader-first
    handlers that its server and its local clients run on it (server.cc, client.cc), in both
    queue layouts: waiters only, or holders and waiters (PARLOCK_ENQUEUE_HOLDERS). */
module ParLocks {
  import opened Messages
  import opened RwLocks

  datatype LockState = StateFree | StateShared | StateExclusive

  // ---- What the queue functions compute -----------------------------------------------

  function IndexOf(q: seq<Wqe>, r: Wqe): nat
    requires r in q
  {
    if q[0] == r then 0 else 1 + IndexOf(q[1..], r)
  }

  /** The return value of `erase_lock_request` in the two layouts. */
  function EraseResult(q: seq<Wqe>, r: Wqe, holdersQueued: bool): int {
    if !holdersQueued then (if r in q then 1 else 0)
    else if r !in q then -1
    else if r.op == Shared then 0
    else IndexOf(q, r)
  }

  lemma {:induction false} EraseAt(q: seq<Wqe>, r: Wqe, i: nat)
    requires i < |q| && q[i] == r && r !in q[..i]
    ensures Erase(q, r) == q[..i] + q[i + 1..] && IndexOf(q, r) == i
  {
    if i > 0 {
      assert q[0] in q[..i];
      assert r !in q[1..][..i - 1] by {
        assert forall x :: x in q[1..][..i - 1] ==> x in q[..i];
      }
      EraseAt(q[1..], r, i - 1);
      assert q[..i] == [q[0]] + q[1..][..i - 1];
    }
  }

  // ---- What a table entry stands for --------------------------------------------------

  /** The fields of a table entry, as a value. */
  datatype Entry = Entry(holdersQueued: bool, state: LockState, sharedCounter: int, queue: seq<Wqe>)

  /** `e` represents abstract lock `s`. With holders in the queue they are its head in
      exclusive state and its shared entries in shared state. */
  ghost predicate Represents(e: Entry, s: RwLock) {
    && Sound(s) && Distinct(e.queue)
    && match e.state
       case StateFree => s == UNLOCKED && e.sharedCounter == 0 && e.queue == []
       case StateShared =>
         && s.granted != {} && AllShared(s.granted) && e.sharedCounter == |s.granted|
         && (if e.holdersQueued then s.granted == Elements(Readers(e.queue)) && s.waiting == Writers(e.queue)
             else s.waiting == e.queue)
       case StateExclusive =>
         && e.sharedCounter == 0 && (exists x :: s.granted == {x} && x.op == Exclusive)
         && (if e.holdersQueued then e.queue != [] && s.granted == {e.queue[0]} && s.waiting == e.queue[1..]
             else s.waiting == e.queue)
  }

  /** What the three states mean for counter, holders and waiters. */
  lemma StateMeaning(e: Entry, s: RwLock)
    requires Represents(e, s)
    ensures e.state == StateFree <==> s.granted == {}
    ensures e.state == StateFree ==> e.queue == [] && e.sharedCounter == 0
    ensures e.state == StateShared ==>
              && e.sharedCounter == |s.granted| > 0 && AllShared(s.granted)
              && forall r :: r in s.waiting ==> r.op == Exclusive
    ensures e.state == StateExclusive ==>
              e.sharedCounter == 0 && |s.granted| == 1 && forall r :: r in s.granted ==> r.op == Exclusive
  {
    if e.state == StateExclusive {
      var x :| s.granted == {x} && x.op == Exclusive;
    }
  }

  /** Queued requests are waiting, or, in the other layout, holders. */
  lemma QueueMembers(e: Entry, s: RwLock, r: Wqe)
    requires Represents(e, s)
    ensures r in e.queue <==> r in s.waiting || (e.holdersQueued && r in s.granted)
  {
    PartitionMembers(e.queue, r);
    if e.holdersQueued && e.state == StateExclusive {
      assert e.queue == [e.queue[0]] + e.queue[1..];
    }
  }

  function Queue(e: Entry, r: Wqe): Entry {
    e.(queue := e.queue + [r])
  }

  /** A reader joins a free or shared lock. */
  lemma GrantReader(e: Entry, s: RwLock, r: Wqe)
    requires Represents(e, s) && Admissible(s, Acquires(r)) && r.op == Shared && e.state != StateExclusive
    ensures var f := (if e.holdersQueued then Queue(e, r) else e).(state := StateShared, sharedCounter := e.sharedCounter + 1);
            Represents(f, AfterAcquire(s, r).lock) && AfterAcquire(s, r).grants == [r]
  {
    StepSound(s, Acquires(r));
    QueueMembers(e, s, r);
    AppendDistinct(e.queue, r);
    ReadersConcat(e.queue, [r]);
    WritersConcat(e.queue, [r]);
    ReaderAlone(r);
    WriterAlone(r);
    assert |s.granted + {r}| == |s.granted| + 1;
    assert Elements(Readers(e.queue) + [r]) == Elements(Readers(e.queue)) + {r};
  }

  /** A writer takes a free lock. */
  lemma GrantWriter(e: Entry, s: RwLock, r: Wqe)
    requires Represents(e, s) && r.op == Exclusive && e.state == StateFree
    ensures var f := (if e.holdersQueued then Queue(e, r) else e).(state := StateExclusive);
            Represents(f, AfterAcquire(s, r).lock) && AfterAcquire(s, r).grants == [r]
  {
    StepSound(s, Acquires(r));
    assert {} + {r} == {r};
    assert [] + [r] == [r];
  }

  /** A request that must wait. */
  lemma Suspend(e: Entry, s: RwLock, r: Wqe)
    requires Represents(e, s) && Admissible(s, Acquires(r))
    requires e.state == StateExclusive || (e.state == StateShared && r.op == Exclusive)
    ensures Represents(Queue(e, r), AfterAcquire(s, r).lock) && AfterAcquire(s, r).grants == []
  {
    hide Readers, Writers, Distinct, Elements;
    StepSound(s, Acquires(r));
    QueueMembers(e, s, r);
    AppendDistinct(e.queue, r);
    ReadersConcat(e.queue, [r]);
    WritersConcat(e.queue, [r]);
    ReaderAlone(r);
    WriterAlone(r);
    assert Readers(e.queue) + [] == Readers(e.queue);
    if e.state == StateExclusive {
      var x :| s.granted == {x} && x.op == Exclusive;
      assert x in s.granted && !AllShared(s.granted);
      assert e.holdersQueued ==> (e.queue + [r])[1..] == e.queue[1..] + [r];
    }
  }

  lemma {:induction false} ReadersDistinct(q: seq<Wqe>)
    requires Distinct(q)
    ensures Distinct(Readers(q))
  {
    if q != [] {
      ReadersDistinct(q[1..]);
      PartitionMembers(q[1..], q[0]);
      if q[0].op == Shared {
        assert Readers(q)[1..] == Readers(q[1..]);
      } else {
        assert Readers(q) == Readers(q[1..]);
      }
    }
  }

  lemma {:induction false} ElementsSize(q: seq<Wqe>)
    requires Distinct(q)
    ensures |Elements(q)| == |q|
  {
    if q != [] {
      ElementsSize(q[1..]);
      assert Elements(q) == Elements(q[1..]) + {q[0]};
    }
  }

  lemma EraseElements(q: seq<Wqe>, r: Wqe)
    requires Distinct(q)
    ensures Elements(Erase(q, r)) == Elements(q) - {r}
  {
    ErasePlain(q, r);
    EraseDistinct(q, r);
  }

  /** Once the only reader has left the queue, the writers remain. */
  lemma {:induction false} OnlyReader(q: seq<Wqe>, r: Wqe)
    requires Distinct(q) && r in q && r.op == Shared && forall x :: x in q && x.op == Shared ==> x == r
    ensures Erase(q, r) == Writers(q)
  {
    if q[0] == r {
      NoReaders(q[1..]);
      assert Writers(q) == Writers(q[1..]);
    } else {
      assert q[0] in q;
      OnlyReader(q[1..], r);
    }
  }

  lemma {:induction false} NoReaders(q: seq<Wqe>)
    requires forall x :: x in q ==> x.op == Exclusive
    ensures Writers(q) == q
  {
    if q != [] {
      assert q[0] in q;
      NoReaders(q[1..]);
    }
  }

  /** A waiter withdraws: the handlers see that it was no holder. */
  lemma Withdraw(e: Entry, s: RwLock, r: Wqe)
    requires Represents(e, s) && r in s.waiting
    ensures var f := e.(queue := Erase(e.queue, r));
            Represents(f, AfterRelease(s, r).lock) && AfterRelease(s, r).grants == []
    ensures r.op == Exclusive && e.state == StateExclusive ==> EraseResult(e.queue, r, e.holdersQueued) != 0
    ensures r.op == Shared ==> e.state == StateExclusive
  {
    StepSound(s, Releases(r));
    QueueMembers(e, s, r);
    EraseDistinct(e.queue, r);
    if e.holdersQueued && e.state == StateShared {
      WritersErase(e.queue, r);
      ReadersErase(e.queue, r);
      PartitionMembers(e.queue, r);
      EraseAbsent(Readers(e.queue), r);
    }
  }

  /** A reader leaves and others remain. */
  lemma Leave(e: Entry, s: RwLock, r: Wqe)
    requires Represents(e, s) && r in s.granted && s.granted - {r} != {}
    ensures var f := e.(queue := Erase(e.queue, r), sharedCounter := e.sharedCounter - 1);
            Represents(f, AfterRelease(s, r).lock) && AfterRelease(s, r).grants == [] && f.sharedCounter > 0
    ensures r.op == Shared && e.state == StateShared && EraseResult(e.queue, r, e.holdersQueued) == 0
  {
    StepSound(s, Releases(r));
    QueueMembers(e, s, r);
    EraseDistinct(e.queue, r);
    if e.holdersQueued {
      WritersErase(e.queue, r);
      ReadersErase(e.queue, r);
      ReadersDistinct(e.queue);
      EraseElements(Readers(e.queue), r);
      PartitionMembers(e.queue, r);
      EraseAbsent(Writers(e.queue), r);
    } else {
      EraseAbsent(e.queue, r);
    }
  }

  /** The last holder leaves: in both layouts the queue is then the waiting requests. */
  lemma LastLeaves(e: Entry, s: RwLock, r: Wqe)
    requires Represents(e, s) && s.granted == {r}
    ensures Erase(e.queue, r) == s.waiting && EraseResult(e.queue, r, e.holdersQueued) == 0
    ensures AfterRelease(s, r) == HandOff(s.waiting)
    ensures if r.op == Shared then e.state == StateShared && e.sharedCounter == 1
            else e.state == StateExclusive && e.sharedCounter == 0
    ensures r.op == Shared && s.waiting != [] ==> s.waiting[0].op == Exclusive
  {
    QueueMembers(e, s, r);
    assert r in s.granted && s.granted - {r} == {};
    assert |s.granted| == 1;
    if !e.holdersQueued {
      EraseAbsent(e.queue, r);
    } else if e.state == StateShared {
      forall x | x in e.queue && x.op == Shared ensures x == r {
        PartitionMembers(e.queue, x);
        assert x in s.granted;
      }
      OnlyReader(e.queue, r);
    }
  }

  /** An exclusive holder holds alone. */
  lemma OneWriter(e: Entry, s: RwLock, r: Wqe)
    requires Represents(e, s) && r in s.granted
    ensures Distinct(s.waiting)
    ensures r.op == Exclusive ==> s.granted == {r}
  {
  }

  /** The entry after a hand-off of the waiting requests `w`. */
  function HandedOff(holdersQueued: bool, w: seq<Wqe>): Entry {
    if w == [] then Entry(holdersQueued, StateFree, 0, [])
    else if w[0].op == Exclusive then Entry(holdersQueued, StateExclusive, 0, if holdersQueued then w else w[1..])
    else Entry(holdersQueued, StateShared, |Readers(w)|, if holdersQueued then w else Writers(w))
  }

  lemma HandOffRepresents(holdersQueued: bool, w: seq<Wqe>)
    requires Distinct(w)
    ensures Represents(HandedOff(holdersQueued, w), HandOff(w).lock)
  {
    HandOffSound(w);
    if w != [] && w[0].op == Exclusive {
      assert HandOff(w).lock.granted == {w[0]};
    } else if w != [] {
      ReadersDistinct(w);
      ElementsSize(Readers(w));
      WritersDistinct(w);
      forall x | x in Readers(w) ensures x.op == Shared {
        PartitionMembers(w, x);
      }
    }
  }

  /** Split the first unscanned entry off the queue. */
  lemma Unfold(q: seq<Wqe>, i: nat)
    requires i < |q|
    ensures q[..i + 1] == q[..i] + [q[i]]
    ensures Readers(q[i..]) == (if q[i].op == Shared then [q[i]] else []) + Readers(q[i + 1..])
    ensures Writers(q[i..]) == (if q[i].op == Shared then [] else [q[i]]) + Writers(q[i + 1..])
  {
    assert q[i..][1..] == q[i + 1..];
  }

  lemma PartitionEmpty()
    ensures Readers([]) == [] && Writers([]) == []
  {
  }

  /** What an exclusive unlock must do, by the tests that the handler makes. */
  lemma ExclusiveUnlockCases(e: Entry, s: RwLock, r: Wqe)
    requires Represents(e, s) && r.op == Exclusive && Admissible(s, Releases(r))
    ensures var q := Erase(e.queue, r);
            var after := AfterRelease(s, r);
            if e.state == StateExclusive && EraseResult(e.queue, r, e.holdersQueued) == 0
            then Represents(HandedOff(e.holdersQueued, q), after.lock) && after.grants == HandOff(q).grants && e.sharedCounter == 0
            else Represents(e.(queue := q), after.lock) && after.grants == []
  {
    hide Represents, AfterRelease, HandOff, HandedOff;
    if r in s.waiting {
      Withdraw(e, s, r);
    } else {
      OneWriter(e, s, r);
      LastLeaves(e, s, r);
      HandOffRepresents(e.holdersQueued, s.waiting);
    }
  }

  /** What a shared unlock must do, by the tests that the handler makes. */
  lemma SharedUnlockCases(e: Entry, s: RwLock, r: Wqe)
    requires Represents(e, s) && r.op == Shared && Admissible(s, Releases(r))
    ensures var q := Erase(e.queue, r);
            var after := AfterRelease(s, r);
            if e.state == StateShared
            then
              && EraseResult(e.queue, r, e.holdersQueued) == 0
              && if e.sharedCounter > 1
                 then Represents(e.(queue := q, sharedCounter := e.sharedCounter - 1), after.lock) && after.grants == []
                 else Represents(HandedOff(e.holdersQueued, q), after.lock) && after.grants == HandOff(q).grants
                      && e.sharedCounter == 1 && (q != [] ==> q[0].op == Exclusive)
            else Represents(e.(queue := q), after.lock) && after.grants == []
  {
    hide Represents, AfterRelease, HandOff, HandedOff;
    if r in s.waiting {
      Withdraw(e, s, r);
    } else if s.granted == {r} {
      OneWriter(e, s, r);
      LastLeaves(e, s, r);
      HandOffRepresents(e.holdersQueued, s.waiting);
    } else {
      assert exists x :: x in s.granted && x != r;
      assert s.granted - {r} != {};
      Leave(e, s, r);
    }
  }

  /** The request of a coroutine of this machine. */
  function Local(requester: nat, op: Mode, localhost: nat): Wqe {
    Wqe(Id(localhost, requester), op)
  }

  /** How a grant reaches its request: a waiting coroutine of this host is signalled, another
      host gets a packet. */
  datatype Notice = WakeUp(r: Wqe) | Reply(r: Wqe)

  function Announce(r: Wqe, localhost: nat): Notice {
    if r.id.host == localhost then WakeUp(r) else Reply(r)
  }

  function Announced(grants: seq<Wqe>, localhost: nat): seq<Notice> {
    seq(|grants|, i requires 0 <= i < |grants| => Announce(grants[i], localhost))
  }

  /** One entry of the lock table. `lock` is the abstract lock that it implements. */
  class LockQueue {
    const holdersQueued: bool
    var state: LockState
    var sharedCounter: int
    var queue: seq<Wqe>
    ghost var lock: RwLock

    ghost function Fields(): Entry
      reads this
    {
      Entry(holdersQueued, state, sharedCounter, queue)
    }

    ghost predicate Valid()
      reads this
    {
      Represents(Fields(), lock)
    }

    constructor (enqueueHolders: bool)
      ensures Valid() && lock == UNLOCKED && holdersQueued == enqueueHolders
    {
      holdersQueued, state, sharedCounter, queue, lock := enqueueHolders, StateFree, 0, [], UNLOCKED;
    }

    // ---- lock_queue.cc ----

    /** Erase a request: the scan stops at the first match. */
    method EraseLockRequest(r: Wqe) returns (ret: int)
      modifies this`queue
      ensures queue == Erase(old(queue), r)
      ensures ret == EraseResult(old(queue), r, holdersQueued)
    {
      for idx := 0 to |queue|
        invariant queue == old(queue) && r !in queue[..idx]
      {
        if queue[idx] == r {
          EraseAt(queue, r, idx);
          queue := queue[..idx] + queue[idx + 1..];
          if !holdersQueued {
            return 1;
          }
          return if r.op == Shared then 0 else idx;
        }
      }
      assert queue[..|queue|] == queue;
      EraseAbsent(queue, r);
      return if holdersQueued then -1 else 0;
    }

    /** Take all shared requests out of the queue, in order: a stable partition made by
        erasing in place and restarting behind the last entry kept. */
    method DequeueSharedRequests() returns (result: seq<Wqe>)
      modifies this`queue
      ensures result == Readers(old(queue)) && queue == Writers(old(queue))
    {
      hide Readers, Writers;
      PartitionEmpty();
      result := [];
      var iter, prevIdx := 0, -1;
      assert queue[0..] == queue;
      while iter < |queue|
        invariant 0 <= iter == prevIdx + 1 <= |queue|
        invariant result + Readers(queue[iter..]) == Readers(old(queue))
        invariant queue[..iter] + Writers(queue[iter..]) == Writers(old(queue))
        decreases |queue| - iter
      {
        Unfold(queue, iter);
        if queue[iter].op == Shared {
          var kept, rest := queue[..iter], queue[iter + 1..];
          result := result + [queue[iter]];
          queue := kept + rest;
          assert queue[..iter] == kept && queue[iter..] == rest;
          if queue == [] {
            return;
          }
          iter := prevIdx + 1;
        } else {
          iter := iter + 1;
          prevIdx := prevIdx + 1;
        }
      }
      assert queue[iter..] == [] && queue[..iter] == queue;
    }

    /** The shared requests, left in the queue. */
    method GetSharedRequests() returns (result: seq<Wqe>)
      ensures result == Readers(queue)
    {
      result := [];
      for i := 0 to |queue|
        invariant result == Readers(queue[..i])
      {
        assert queue[..i + 1] == queue[..i] + [queue[i]];
        ReadersConcat(queue[..i], [queue[i]]);
        ReaderAlone(queue[i]);
        if queue[i].op == Shared {
          result := result + [queue[i]];
        }
      }
      assert queue[..|queue|] == queue;
    }

    // ---- server.cc ----

    method ServerExclusiveLock(r: Wqe) returns (grants: seq<Wqe>)
      requires Valid() && r.op == Exclusive && Admissible(lock, Acquires(r))
      modifies this
      ensures Valid() && Result(lock, grants) == Step(old(lock), Acquires(r))
    {
      hide Represents, AfterAcquire;
      if state == StateFree {
        GrantWriter(Fields(), lock, r);
        state := StateExclusive;
        if holdersQueued {
          queue := queue + [r];
        }
        grants := [r];
      } else {
        Suspend(Fields(), lock, r);
        queue := queue + [r];
        grants := [];
      }
      lock := AfterAcquire(lock, r).lock;
    }

    method ServerSharedLock(r: Wqe) returns (grants: seq<Wqe>)
      requires Valid() && r.op == Shared && Admissible(lock, Acquires(r))
      modifies this
      ensures Valid() && Result(lock, grants) == Step(old(lock), Acquires(r))
    {
      hide Represents, AfterAcquire;
      if state != StateExclusive {
        GrantReader(Fields(), lock, r);
        state := StateShared;
        if holdersQueued {
          queue := queue + [r];
        }
        sharedCounter := sharedCounter + 1;
        grants := [r];
      } else {
        Suspend(Fields(), lock, r);
        queue := queue + [r];
        grants := [];
      }
      lock := AfterAcquire(lock, r).lock;
    }

    /** Grant an exclusive head of the queue. */
    method GrantHead() returns (grants: seq<Wqe>)
      requires queue != []
      modifies this`state, this`queue
      ensures state == StateExclusive && queue == (if holdersQueued then old(queue) else old(queue)[1..])
      ensures grants == [old(queue)[0]]
    {
      grants := [queue[0]];
      state := StateExclusive;
      if !holdersQueued {
        queue := queue[1..];
      }
    }

    /** Grant all the shared waiters. */
    method GrantReaders() returns (grants: seq<Wqe>)
      modifies this`state, this`queue, this`sharedCounter
      ensures state == StateShared && sharedCounter == old(sharedCounter) + |Readers(old(queue))|
      ensures queue == (if holdersQueued then old(queue) else Writers(old(queue)))
      ensures grants == Readers(old(queue))
    {
      hide Readers, Writers;
      state := StateShared;
      var head;
      if holdersQueued {
        head := GetSharedRequests();
      } else {
        head := DequeueSharedRequests();
      }
      grants := [];
      for i := 0 to |head|
        invariant grants == head[..i] && sharedCounter == old(sharedCounter) + i
        invariant state == StateShared && queue == if holdersQueued then old(queue) else Writers(old(queue))
      {
        sharedCounter := sharedCounter + 1;
        grants := grants + [head[i]];
      }
      assert head[..|head|] == head;
    }

    /** Release by the exclusive holder, or withdrawal of an exclusive waiter. */
    method ServerExclusiveUnlock(r: Wqe) returns (grants: seq<Wqe>)
      requires Valid() && r.op == Exclusive && Admissible(lock, Releases(r))
      modifies this
      ensures Valid() && Result(lock, grants) == Step(old(lock), Releases(r))
    {
      hide Represents, AfterRelease, Readers, Writers, Erase, EraseResult;
      ExclusiveUnlockCases(Fields(), lock, r);
      grants := [];
      var ret := EraseLockRequest(r);
      if state == StateExclusive && ret == 0 {
        state := StateFree;
        if queue != [] && queue[0].op == Exclusive {
          grants := GrantHead();
        } else if queue != [] {
          grants := GrantReaders();
        }
        assert Fields() == HandedOff(holdersQueued, Erase(old(queue), r));
      }
      lock := AfterRelease(lock, r).lock;
    }

    /** Release by a reader, or withdrawal of a shared waiter. `abnormal` is set where the
        handler reports an abnormal condition. */
    method ServerSharedUnlock(r: Wqe) returns (grants: seq<Wqe>, abnormal: bool)
      requires Valid() && r.op == Shared && Admissible(lock, Releases(r))
      modifies this
      ensures Valid() && Result(lock, grants) == Step(old(lock), Releases(r))
      ensures !abnormal
    {
      hide Represents, AfterRelease, Readers, Writers, Erase, EraseResult;
      SharedUnlockCases(Fields(), lock, r);
      grants, abnormal := [], false;
      var ret := EraseLockRequest(r);
      if state == StateShared && ret == 0 {
        sharedCounter := sharedCounter - 1;
        if sharedCounter <= 0 {
          state := StateFree;
          if queue != [] && queue[0].op == Exclusive {
            grants := GrantHead();
          } else if queue != [] {
            abnormal := true;
          }
        }
      } else if state == StateShared {
        abnormal := true;
      }
      lock := AfterRelease(lock, r).lock;
    }

    // ---- client.cc ----

    /** A local acquisition: the requester itself is woken if it is granted. */
    method AcquireLockLocal(requester: nat, op: Mode, localhost: nat) returns (out: seq<Notice>)
      requires Valid() && Admissible(lock, Acquires(Local(requester, op, localhost)))
      modifies this
      ensures var after := Step(old(lock), Acquires(Local(requester, op, localhost)));
              Valid() && lock == after.lock && out == Announced(after.grants, localhost)
    {
      hide Represents, AfterAcquire;
      var r := Local(requester, op, localhost);
      ghost var e := Fields();
      out := [];
      if op == Exclusive {
        if state == StateFree {
          GrantWriter(e, lock, r);
          state := StateExclusive;
          if holdersQueued {
            queue := queue + [r];
          }
          out := [WakeUp(r)];
        } else {
          Suspend(e, lock, r);
          queue := queue + [r];
        }
      } else {
        if state != StateExclusive {
          GrantReader(e, lock, r);
          state := StateShared;
          if holdersQueued {
            queue := queue + [r];
          }
          sharedCounter := sharedCounter + 1;
          out := [WakeUp(r)];
        } else {
          Suspend(e, lock, r);
          queue := queue + [r];
        }
      }
      lock := AfterAcquire(lock, r).lock;
    }

    /** A local release or withdrawal. The next holders are woken if they wait on this host and
        get a packet otherwise. `abnormal` is set where an abnormal condition is reported. */
    method ReleaseLockLocal(requester: nat, op: Mode, localhost: nat)
      returns (out: seq<Notice>, abnormal: bool)
      requires Valid() && Admissible(lock, Releases(Local(requester, op, localhost)))
      modifies this
      ensures var after := Step(old(lock), Releases(Local(requester, op, localhost)));
              Valid() && lock == after.lock && out == Announced(after.grants, localhost)
      ensures !abnormal
    {
      hide Represents, AfterRelease, Readers, Writers, Erase, EraseResult;
      var r := Local(requester, op, localhost);
      if op == Exclusive {
        ExclusiveUnlockCases(Fields(), lock, r);
      } else {
        SharedUnlockCases(Fields(), lock, r);
      }
      out, abnormal := [], false;
      var ret := EraseLockRequest(r);
      if op == Exclusive {
        if state == StateExclusive && ret == 0 {
          state := StateFree;
          if queue != [] && queue[0].op == Exclusive {
            out := WakeHead(localhost);
          } else if queue != [] {
            out := WakeReaders(localhost);
          }
          assert Fields() == HandedOff(holdersQueued, Erase(old(queue), r));
        }
      } else {
        if state == StateShared && ret == 0 {
          sharedCounter := sharedCounter - 1;
          if sharedCounter <= 0 {
            state := StateFree;
            if queue != [] && queue[0].op == Exclusive {
              out := WakeHead(localhost);
            } else if queue != [] {
              abnormal := true;
            }
          }
        } else if state == StateShared {
          abnormal := true;
        }
      }
      lock := AfterRelease(lock, r).lock;
    }

    /** The client takes the exclusive head off the queue before it changes the state. */
    method WakeHead(localhost: nat) returns (out: seq<Notice>)
      requires queue != []
      modifies this`state, this`queue
      ensures state == StateExclusive && queue == (if holdersQueued then old(queue) else old(queue)[1..])
      ensures out == [Announce(old(queue)[0], localhost)]
    {
      var head := queue[0];
      if !holdersQueued {
        queue := queue[1..];
      }
      state := StateExclusive;
      if head.id.host == localhost {
        out := [WakeUp(head)];
      } else {
        out := [Reply(head)];
      }
    }

    /** Wake all shared waiters of this host and reply to the others. */
    method WakeReaders(localhost: nat) returns (out: seq<Notice>)
      modifies this`state, this`queue, this`sharedCounter
      ensures state == StateShared && sharedCounter == old(sharedCounter) + |Readers(old(queue))|
      ensures queue == (if holdersQueued then old(queue) else Writers(old(queue)))
      ensures out == Announced(Readers(old(queue)), localhost)
    {
      hide Readers, Writers;
      state := StateShared;
      var head;
      if holdersQueued {
        head := GetSharedRequests();
      } else {
        head := DequeueSharedRequests();
      }
      out := [];
      for i := 0 to |head|
        invariant out == Announced(head[..i], localhost)
        invariant sharedCounter == old(sharedCounter) + i
        invariant state == StateShared && queue == if holdersQueued then old(queue) else Writers(old(queue))
      {
        sharedCounter := sharedCounter + 1;
        if head[i].id.host == localhost {
          out := out + [WakeUp(head[i])];
        } else {
          out := out + [Reply(head[i])];
        }
      }
      assert head[..|head|] == head;
    }
  }

  // ---- Histories ----------------------------------------------------------------------

  /** Serve one event by the handler for its operation. */
  method Serve(table: LockQueue, e: Event) returns (grants: seq<Wqe>, abnormal: bool)
    requires table.Valid() && Admissible(table.lock, e)
    modifies table
    ensures table.Valid() && Result(table.lock, grants) == Step(old(table.lock), e) && !abnormal
  {
    abnormal := false;
    match e
    case Acquires(r) =>
      if r.op == Exclusive {
        grants := table.ServerExclusiveLock(r);
      } else {
        grants := table.ServerSharedLock(r);
      }
    case Releases(r) =>
      if r.op == Exclusive {
        grants := table.ServerExclusiveUnlock(r);
      } else {
        grants, abnormal := table.ServerSharedUnlock(r);
      }
  }

  /** The grants that a step of history `h` issues in the abstract lock. */
  function Issued(h: seq<Event>, i: nat): seq<Wqe>
    requires i < |h|
  {
    Step(Run(h[..i]).lock, h[i]).grants
  }

  function Flat(ss: seq<seq<Wqe>>): seq<Wqe> {
    if ss == [] then [] else Flat(ss[..|ss| - 1]) + ss[|ss| - 1]
  }

  /** The grants of all steps, one after the other, are the grants of the history. */
  lemma {:induction false} FlatIssued(h: seq<Event>, out: seq<seq<Wqe>>)
    requires |out| == |h| && forall i :: 0 <= i < |h| ==> out[i] == Issued(h, i)
    ensures Flat(out) == Run(h).grants
  {
    if h != [] {
      var n := |h| - 1;
      forall i | 0 <= i < n ensures out[..n][i] == Issued(h[..n], i) {
        assert h[..n][..i] == h[..i];
      }
      FlatIssued(h[..n], out[..n]);
    }
  }

  /** A manager that issues the grants of the abstract lock at every step serves the requests
      of either mode in order of arrival. */
  lemma ServesInOrder(op: Mode, h: seq<Event>, out: seq<seq<Wqe>>)
    requires WellFormed(h) && |out| == |h| && forall i :: 0 <= i < |h| ==> out[i] == Issued(h, i)
    ensures OfMode(op, Flat(out)) + OfMode(op, Run(h).lock.waiting) == Arrived(op, h)
  {
    FlatIssued(h, out);
    ServedInOrder(op, h);
  }

  /** For every well-formed history, withdrawals included, the two queue layouts grant the
      same requests in the same order at every step, those of the abstract lock, so that
      `ServesInOrder` applies, and no handler reports an abnormal condition. */
  method ServeBoth(h: seq<Event>) returns (waitersOnly: seq<seq<Wqe>>, withHolders: seq<seq<Wqe>>, abnormal: bool)
    requires WellFormed(h)
    ensures waitersOnly == withHolders && |waitersOnly| == |h| && !abnormal
    ensures forall i :: 0 <= i < |h| ==> waitersOnly[i] == Issued(h, i)
  {
    hide Represents, Step, WellFormed;
    waitersOnly, withHolders, abnormal := [], [], false;
    var a := new LockQueue(false);
    var b := new LockQueue(true);
    for i := 0 to |h|
      invariant |waitersOnly| == i && waitersOnly == withHolders && !abnormal
      invariant a.Valid() && b.Valid() && a.lock == b.lock == Run(h[..i]).lock
      invariant forall k :: 0 <= k < i ==> waitersOnly[k] == Issued(h, k)
    {
      NextAdmissible(h, i);
      var g, x := Serve(a, h[i]);
      var k, y := Serve(b, h[i]);
      waitersOnly, withHolders, abnormal := waitersOnly + [g], withHolders + [k], abnormal || x || y;
    }
  }

  lemma NextAdmissible(h: seq<Event>, i: nat)
    requires WellFormed(h) && i < |h|
    ensures Admissible(Run(h[..i]).lock, h[i])
    ensures Run(h[..i + 1]).lock == Step(Run(h[..i]).lock, h[i]).lock
  {
    PrefixWellFormed(h, i + 1);
    assert h[..i + 1][..i] == h[..i];
  }
}
