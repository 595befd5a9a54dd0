/** NetLock's lock server (baseline/NetLock/lib/lock_server.cc, request.cc). As primary it
    manages a lock alone and implements the abstract reader-preference lock; as secondary it
    keeps the requests that do not fit into the switch and pushes them back. */
module NetLockServers {
  import opened Messages
  import opened RwLocks
  import opened ParLocks

  /** A queue entry per request, holders included. */
  function Primary(state: LockState, sharedCounter: int, queue: seq<Wqe>): Entry {
    Entry(true, state, sharedCounter, queue)
  }

  /** The return value of `erase_lock_request`: 0 for the head and for an absent request. */
  function ErasedIndex(q: seq<Wqe>, r: Wqe): nat {
    if r in q then IndexOf(q, r) else 0
  }

  /** The entry and the grants after a primary release, by the tests that the server makes. */
  function AfterPrimaryRelease(e: Entry, r: Wqe): (Entry, seq<Wqe>) {
    var q := Erase(e.queue, r);
    if r.op == Shared && e.state == StateShared then
      if e.sharedCounter > 1 then (e.(queue := q, sharedCounter := e.sharedCounter - 1), [])
      else if q != [] && q[0].op == Shared then
        (e.(queue := q, sharedCounter := e.sharedCounter - 1, state := StateFree), [])
      else (Scheduled(e.(queue := q, sharedCounter := e.sharedCounter - 1)), HandOff(q).grants)
    else if r.op == Exclusive && e.state == StateExclusive && ErasedIndex(e.queue, r) == 0 then
      (Scheduled(e.(queue := q)), HandOff(q).grants)
    else (e.(queue := q), [])
  }

  /** The entry and the grants after a primary acquisition. */
  function AfterPrimaryAcquire(e: Entry, r: Wqe): (Entry, seq<Wqe>) {
    var f := e.(queue := e.queue + [r]);
    if r.op == Shared && e.state != StateExclusive then
      (f.(state := StateShared, sharedCounter := e.sharedCounter + 1), [r])
    else if r.op == Exclusive && e.state == StateFree then (f.(state := StateExclusive), [r])
    else (f, [])
  }

  /** The head of the queue gets the lock; if it is a reader, all readers do. */
  function Scheduled(e: Entry): Entry {
    if e.queue == [] then e.(state := StateFree)
    else if e.queue[0].op == Exclusive then e.(state := StateExclusive)
    else e.(state := StateShared, sharedCounter := e.sharedCounter + |Readers(e.queue)|)
  }

  /** An acquisition is that of the abstract lock. */
  lemma PrimaryAcquireRefines(e: Entry, s: RwLock, r: Wqe)
    requires Represents(e, s) && e.holdersQueued && Admissible(s, Acquires(r))
    ensures var (f, grants) := AfterPrimaryAcquire(e, r);
            Represents(f, AfterAcquire(s, r).lock) && grants == AfterAcquire(s, r).grants
  {
    hide Represents, AfterAcquire;
    if r.op == Shared && e.state != StateExclusive {
      GrantReader(e, s, r);
    } else if r.op == Exclusive && e.state == StateFree {
      GrantWriter(e, s, r);
    } else {
      Suspend(e, s, r);
    }
  }

  /** The index test recognises the holder among the outstanding exclusive requests. */
  lemma IndexTest(e: Entry, s: RwLock, r: Wqe)
    requires Represents(e, s) && e.holdersQueued && Admissible(s, Releases(r)) && r.op == Exclusive
    ensures ErasedIndex(e.queue, r) == EraseResult(e.queue, r, true)
  {
    QueueMembers(e, s, r);
  }

  /** The release of an outstanding request is that of the abstract lock. */
  lemma PrimaryReleaseRefines(e: Entry, s: RwLock, r: Wqe)
    requires Represents(e, s) && e.holdersQueued && Admissible(s, Releases(r))
    ensures var (f, grants) := AfterPrimaryRelease(e, r);
            Represents(f, AfterRelease(s, r).lock) && grants == AfterRelease(s, r).grants
  {
    hide Represents, AfterRelease, Erase, EraseResult, Readers, Writers;
    if r.op == Exclusive {
      IndexTest(e, s, r);
      ExclusiveUnlockCases(e, s, r);
    } else {
      SharedUnlockCases(e, s, r);
    }
    EntryKinds(e, s);
  }

  lemma EntryKinds(e: Entry, s: RwLock)
    requires Represents(e, s)
    ensures e.state == StateExclusive ==> e.sharedCounter == 0
    ensures e.state == StateShared && e.holdersQueued ==> e.sharedCounter > 0 && e.queue != []
  {
    if e.state == StateShared && e.holdersQueued {
      var x :| x in s.granted;
      QueueMembers(e, s, x);
    }
  }

  /** A release that matches no outstanding request is ignored exactly if the lock is not held
      in its mode: the server cannot tell it from a holder's release. */
  lemma StrayRelease(e: Entry, s: RwLock, r: Wqe)
    requires Represents(e, s) && e.holdersQueued && !Admissible(s, Releases(r))
    ensures AfterPrimaryRelease(e, r) == (e, [])
            <==> e.state != (if r.op == Shared then StateShared else StateExclusive)
  {
    QueueMembers(e, s, r);
    EraseAbsent(e.queue, r);
    EntryKinds(e, s);
  }

  /** A writer holds and another waits: a stray exclusive release grants the holder again. */
  lemma StrayGrantsAgain(holder: Wqe, waiter: Wqe, stray: Wqe)
    requires holder.op == waiter.op == stray.op == Exclusive && stray !in {holder, waiter} && holder != waiter
    ensures var e := Primary(StateExclusive, 0, [holder, waiter]);
            && Represents(e, RwLock({holder}, [waiter]))
            && AfterPrimaryRelease(e, stray) == (e, [holder])
  {
    EraseAbsent([holder, waiter], stray);
    assert [holder, waiter][1..] == [waiter] && [waiter][1..] == [];
    assert holder in {holder} && !AllShared({holder});
  }

  /** A reader holds: a stray shared release frees the lock under it, and the next writer is
      granted beside it. */
  lemma StrayBreaksExclusion(reader: Wqe, writer: Wqe, stray: Wqe)
    requires reader.op == stray.op == Shared && writer.op == Exclusive && stray != reader
    ensures var e := Primary(StateShared, 1, [reader]);
            && Represents(e, RwLock({reader}, []))
            && AfterPrimaryRelease(e, stray) == (Primary(StateFree, 0, [reader]), [])
            && AfterPrimaryAcquire(Primary(StateFree, 0, [reader]), writer).1 == [writer]
  {
    EraseAbsent([reader], stray);
    ReaderAlone(reader);
    WriterAlone(reader);
    assert Elements([reader]) == {reader} && |{reader}| == 1;
    assert [reader][1..] == [];
  }

  function Min(a: int, b: int): int {
    if a < b then a else b
  }

  class RequestQueue {
    var state: LockState
    var sharedCounter: int
    var seqnum: int
    var queue: seq<Wqe>
    ghost var lock: RwLock

    ghost function Fields(): Entry
      reads this
    {
      Primary(state, sharedCounter, queue)
    }

    ghost predicate Valid()
      reads this
    {
      Represents(Fields(), lock)
    }

    constructor ()
      ensures Valid() && lock == UNLOCKED && seqnum == 0
    {
      state, sharedCounter, seqnum, queue, lock := StateFree, 0, 0, [], UNLOCKED;
    }

    // ---- request.cc ----

    method EraseLockRequest(r: Wqe) returns (ret: int)
      modifies this`queue
      ensures queue == Erase(old(queue), r) && ret == ErasedIndex(old(queue), r)
    {
      for count := 0 to |queue|
        invariant queue == old(queue) && r !in queue[..count]
      {
        if queue[count] == r {
          EraseAt(queue, r, count);
          queue := queue[..count] + queue[count + 1..];
          return count;
        }
      }
      assert queue[..|queue|] == queue;
      EraseAbsent(queue, r);
      return 0;
    }

    method GetSharedRequests() returns (result: seq<Wqe>)
      ensures result == Readers(queue)
    {
      result := [];
      for i := 0 to |queue|
        invariant result == Readers(queue[..i])
      {
        assert queue[..i + 1] == queue[..i] + [queue[i]];
        ReadersConcat(queue[..i], [queue[i]]);
        ReaderAlone(queue[i]);
        if queue[i].op == Shared {
          result := result + [queue[i]];
        }
      }
      assert queue[..|queue|] == queue;
    }

    // ---- Primary ----

    /** Enqueue first, then grant if the state allows it. */
    method PrimaryAcquire(r: Wqe) returns (grants: seq<Wqe>)
      modifies this
      ensures (Fields(), grants) == AfterPrimaryAcquire(old(Fields()), r) && seqnum == old(seqnum)
      ensures old(Valid()) && Admissible(old(lock), Acquires(r)) ==>
                Valid() && Result(lock, grants) == Step(old(lock), Acquires(r))
    {
      hide Represents, AfterAcquire;
      queue := queue + [r];
      grants := [];
      if r.op == Shared {
        if state == StateFree || state == StateShared {
          state := StateShared;
          sharedCounter := sharedCounter + 1;
          grants := [r];
        }
      } else if state == StateFree {
        state := StateExclusive;
        grants := [r];
      }
      if old(Valid()) && Admissible(lock, Acquires(r)) {
        PrimaryAcquireRefines(old(Fields()), lock, r);
        lock := AfterAcquire(lock, r).lock;
      }
    }

    /** Any release: the new fields and the grants are those of `AfterPrimaryRelease`. For an
        outstanding request they are those of the abstract lock, and the sequence number
        advances exactly when the lock becomes free. */
    method PrimaryRelease(r: Wqe) returns (grants: seq<Wqe>)
      modifies this
      ensures (Fields(), grants) == AfterPrimaryRelease(old(Fields()), r)
      ensures old(Valid()) && Admissible(old(lock), Releases(r)) ==>
                && Valid() && Result(lock, grants) == Step(old(lock), Releases(r))
                && seqnum == old(seqnum) + if lock == UNLOCKED then 1 else 0
    {
      hide Represents, AfterRelease, Readers, Writers, Erase, ErasedIndex;
      grants := [];
      var ret := EraseLockRequest(r);
      if r.op == Shared {
        if state == StateShared {
          sharedCounter := sharedCounter - 1;
          if sharedCounter <= 0 {
            state := StateFree;
            if queue != [] && queue[0].op == Exclusive {
              state := StateExclusive;
              grants := [queue[0]];
            } else if queue == [] {
              seqnum := seqnum + 1;
            }
          }
        }
      } else if state == StateExclusive && ret == 0 {
        state := StateFree;
        if queue != [] && queue[0].op == Exclusive {
          state := StateExclusive;
          grants := [queue[0]];
        } else if queue != [] {
          grants := GrantReaders();
        } else {
          seqnum := seqnum + 1;
        }
      }
      ghost var e, s := old(Fields()), old(lock);
      assert (Fields(), grants) == AfterPrimaryRelease(e, r);
      if old(Valid()) && Admissible(s, Releases(r)) {
        PrimaryReleaseRefines(e, s, r);
        lock := AfterRelease(s, r).lock;
        BecomesFree(Fields(), lock);
        BecomesFree(e, s);
      }
    }

    method GrantReaders() returns (grants: seq<Wqe>)
      modifies this`state, this`sharedCounter
      ensures state == StateShared && sharedCounter == old(sharedCounter) + |Readers(queue)|
      ensures grants == Readers(queue)
    {
      hide Readers;
      state := StateShared;
      var head := GetSharedRequests();
      grants := [];
      for i := 0 to |head|
        invariant grants == head[..i] && sharedCounter == old(sharedCounter) + i && state == StateShared
      {
        sharedCounter := sharedCounter + 1;
        grants := grants + [head[i]];
      }
      assert head[..|head|] == head;
    }

    // ---- Secondary ----

    method SecondaryAcquire(r: Wqe)
      modifies this`queue
      ensures queue == old(queue) + [r]
    {
      queue := queue + [r];
    }

    /** Push back as many requests as fit into the switch, the oldest first. */
    method SecondaryRelease(lenInSwitch: nat) returns (pushed: seq<Wqe>)
      modifies this`queue
      ensures pushed == old(queue)[..Min(|old(queue)|, lenInSwitch)]
      ensures pushed + queue == old(queue)
    {
      var dequeueLength := Min(|queue|, lenInSwitch);
      pushed := [];
      for n := 0 to dequeueLength
        invariant pushed == queue[..n] && queue == old(queue)
      {
        pushed := pushed + [queue[n]];
      }
      for n := 0 to dequeueLength
        invariant queue == old(queue)[n..]
      {
        queue := queue[1..];
      }
    }
  }

  /** An entry is in state free exactly if it represents the unlocked lock; then it queues nothing. */
  lemma BecomesFree(e: Entry, s: RwLock)
    requires Represents(e, s)
    ensures e.state == StateFree <==> s == UNLOCKED
    ensures e.state == StateFree ==> e.queue == []
  {
  }
}
