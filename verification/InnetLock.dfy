/** `innet_lock` and the handlers that change it in place (lib/lock.cc), for a lock that the
    switch manages. Each method is proved against the function of module `Hosts` that the
    protocol proofs use. */
module InnetLocks {
  import opened Messages
  import opened Hosts
  import RwLocks

  /** What a packet leaves behind: packets for the switch, and tasks told of their grant. */
  datatype Effect = Effect(send: seq<Msg>, notified: set<Id>)

  class InnetLock {
    const self: nat                      // LOCALHOST_ID
    var mode: HostMode
    var isAgent: bool
    var ncnt: nat
    var holders: set<Id>
    var wqueue: seq<Wqe>
    var earlyRelease: map<Id, bool>
    var delayedFree: bool
    var fwdBackCnt: map<Id, nat>

    predicate Marked(id: Id)
      reads this
    {
      id in earlyRelease && earlyRelease[id]
    }

    ghost function View(): Host
      reads this
    {
      var early := set id | id in earlyRelease && earlyRelease[id];
      Host(mode, isAgent, ncnt, holders, wqueue, early, delayedFree, fwdBackCnt)
    }

    constructor (host: nat)
      ensures self == host && View() == IDLE
    {
      self := host;
      mode := Unlocked;
      isAgent, ncnt, holders, wqueue, delayedFree := false, 0, {}, [], false;
      earlyRelease, fwdBackCnt := map[], map[];
    }

    /** `lock_free_helper` and `lock_transfer_helper`. */
    method Surrender() returns (m: Msg)
      modifies this
      ensures var r := GiveUp(old(View()), self);
              View() == r.host && [m] == r.send
    {
      if wqueue == [] {
        m := Free(OldModeBit(mode), self, ncnt % 256);
      } else {
        m := Transfer(wqueue[0], wqueue[1..], OldModeBit(mode), self, ncnt % 256);
      }
      isAgent, mode, ncnt, wqueue := false, Unlocked, 0, [];
    }

    /** If all current holders have released the lock, free or transfer it. */
    method SurrenderIfIdle() returns (send: seq<Msg>)
      modifies this
      ensures var r := GiveUpIfIdle(old(View()), self);
              View() == r.host && send == r.send
    {
      send := [];
      if holders == {} {
        var m := Surrender();
        send := [m];
      }
    }

    /** POST_LOCK_ACQUIRE, with or without the granted bit. */
    method HandleAcquire(id: Id, op: Mode, granted: bool) returns (send: seq<Msg>)
      requires granted ==> op == Shared
      modifies this
      ensures var r := if granted then OnNotify(old(View()), id) else OnAcquire(old(View()), id, op);
              View() == r.host && send == r.send
    {
      send := [];
      if op == Shared && granted {
        ncnt := ncnt + 1;
      }
      if Marked(id) {
        earlyRelease := earlyRelease[id := false];
        return;
      }
      if !isAgent {
        if op == Shared {
          if granted {
            holders := holders + {id};
            return;
          }
        } else {
          if id in fwdBackCnt && fwdBackCnt[id] > 2 {
            wqueue := wqueue + [Wqe(id, op)];
            fwdBackCnt := fwdBackCnt - {id};
            return;
          }
          fwdBackCnt := fwdBackCnt[id := (if id in fwdBackCnt then fwdBackCnt[id] else 0) + 1];
        }
        send := [Acquire(id, op)];
      } else if granted {
        holders := holders + {id};
      } else {
        wqueue := wqueue + [Wqe(id, op)];
      }
    }

    /** `lock_digest_wq`: a grant for each reader, the writers to the wait queue. */
    method DigestWq(wq: seq<Wqe>) returns (send: seq<Msg>)
      modifies this`holders, this`wqueue
      ensures View() == Digest(old(View()), wq) && send == Grants(wq)
    {
      hide Grants, Writers, SharedIds;
      send := [];
      ghost var h := View();
      DigestNone(wq[..0]);
      for i := 0 to |wq|
        invariant holders == h.holders + SharedIds(wq[..i])
        invariant wqueue == h.wqueue + Writers(wq[..i])
        invariant send == Grants(wq[..i])
      {
        DigestOne(wq, i);
        if wq[i].op == Shared {
          holders := holders + {wq[i].id};
          send := send + [GrantWithoutAgent(wq[i].id)];
        } else {
          wqueue := wqueue + [wq[i]];
        }
      }
      assert wq[..|wq|] == wq;
    }

    /** POST_LOCK_GRANT_WITH_AGENT. */
    method HandleGrantWithAgent(id: Id, newMode: Mode, transferred: bool, wq: seq<Wqe>) returns (send: seq<Msg>)
      modifies this
      ensures var r := OnGrantWithAgent(old(View()), id, newMode, transferred, wq);
              View() == r.host && send == r.send
    {
      send := [];
      isAgent := true;
      holders := holders + {id};
      if transferred {
        mode := Locked(newMode);
        if |wq| > 0 {
          if newMode == Shared {
            send := DigestWq(wq);
          } else {
            wqueue := wqueue + wq;
          }
        }
      } else {
        mode := Locked(newMode);
        if newMode == Shared {
          ncnt := ncnt + 1;
        } else {
          ncnt := 0;
        }
      }
      assert wq == [] ==> SharedIds(wq) == {} && wqueue + wq == wqueue;
    }

    /** Look for an aborted waiter and erase it. */
    method EraseWaiter(id: Id) returns (found: bool)
      modifies this`wqueue
      ensures found == Queued(old(wqueue), id)
      ensures View() == old(View()).(wqueue := Dequeue(old(wqueue), id))
    {
      found := false;
      for i := 0 to |wqueue|
        invariant wqueue == old(wqueue)
        invariant forall j :: 0 <= j < i ==> wqueue[j].id != id
      {
        if wqueue[i].id == id {
          DequeueAt(wqueue, id, i);
          wqueue := wqueue[..i] + wqueue[i + 1..];
          found := true;
          return;
        }
      }
      DequeueNone(wqueue, id);
    }

    /** POST_LOCK_RELEASE. */
    method HandleRelease(id: Id) returns (send: seq<Msg>)
      modifies this
      ensures var r := OnRelease(old(View()), self, id);
              View() == r.host && send == r.send
    {
      send := [];
      if id !in holders {
        ghost var before := wqueue;
        var found := EraseWaiter(id);
        if found {
          return;
        }
        DequeueNone(before, id);
        earlyRelease := earlyRelease[id := true];
      } else if !isAgent {
        holders := holders - {id};
        delayedFree := true;
        return;
      } else {
        holders := holders - {id};
      }
      send := SurrenderIfIdle();
    }

    /** POST_LOCK_TRANSFER and POST_LOCK_FREE pushed back by the switch. */
    method HandlePushBack(m: Msg) returns (send: seq<Msg>)
      requires m.GivesUp()
      modifies this
      ensures var r := OnPushBack(old(View()), m);
              View() == r.host && send == r.send
    {
      send := [];
      if delayedFree && holders == {} {
        send := [m.(ncnt := (m.ncnt + ncnt) % 256)];
        ncnt, delayedFree := 0, false;
        return;
      }
      mode, isAgent, ncnt := Locked(m.oldMode), true, ncnt + m.ncnt;
      if m.Transfer? {
        wqueue := wqueue + [m.next];
        if |m.wq| > 0 {
          wqueue := wqueue + m.wq;
        } else {
          assert wqueue + m.wq == wqueue;
        }
      }
    }

    /** `lock_packet_process`. */
    method Process(m: Msg) returns (e: Effect)
      modifies this
      ensures Reaction(View(), e.send, e.notified) == OnPacket(old(View()), self, m)
    {
      var send: seq<Msg> := [];
      match m {
        case Acquire(id, op) =>
          send := HandleAcquire(id, op, false);
          return Effect(send, {});
        case Notify(id) =>
          send := HandleAcquire(id, Shared, true);
          return Effect(send, {});
        case GrantWithAgent(id, newMode, transferred, wq) =>
          send := HandleGrantWithAgent(id, newMode, transferred, wq);
          return Effect(send, {id});
        case GrantWithoutAgent(id) =>
          return Effect([], {id});
        case Release(id) =>
          send := HandleRelease(id);
          return Effect(send, {});
        case _ =>
          send := HandlePushBack(m);
          return Effect(send, {});
      }
    }

    /** `lock_acquire_async`: granted on the spot, suspended locally, or sent to the switch. */
    method AcquireLock(id: Id, op: Mode) returns (e: Effect)
      modifies this
      ensures Reaction(View(), e.send, e.notified) == AcquireAsync(old(View()), id, op)
    {
      if isAgent {
        if mode == Locked(Shared) && op == Shared {
          holders := holders + {id};
          return Effect([], {id});
        }
        wqueue := wqueue + [Wqe(id, op)];
        return Effect([], {});
      }
      return Effect([Acquire(id, op)], {});
    }

    /** `lock_release`. */
    method Release(id: Id) returns (e: Effect)
      modifies this
      ensures Reaction(View(), e.send, e.notified) == ReleaseLock(old(View()), self, id)
    {
      if !isAgent {
        return Effect([Msg.Release(id)], {});
      }
      if id !in holders {
        earlyRelease := earlyRelease[id := true];
      } else {
        holders := holders - {id};
      }
      var send := SurrenderIfIdle();
      return Effect(send, {});
    }
  }

  // ---- Lemmas about the loops ---------------------------------------------------------

  lemma GrantsCons(e: Wqe, wq: seq<Wqe>)
    ensures Grants([e] + wq) == (if e.op == Shared then [GrantWithoutAgent(e.id)] else []) + Grants(wq)
  {
    assert ([e] + wq)[1..] == wq;
  }

  lemma {:induction false} GrantsConcat(a: seq<Wqe>, b: seq<Wqe>)
    ensures Grants(a + b) == Grants(a) + Grants(b)
  {
    if a == [] {
      assert a + b == b;
    } else {
      hide Grants;
      assert a == [a[0]] + a[1..] && a + b == [a[0]] + (a[1..] + b);
      GrantsConcat(a[1..], b);
      GrantsCons(a[0], a[1..]);
      GrantsCons(a[0], a[1..] + b);
    }
  }

  lemma DigestNone(wq: seq<Wqe>)
    requires wq == []
    ensures Grants(wq) == [] && Writers(wq) == [] && SharedIds(wq) == {}
  {
  }

  lemma DigestOne(wq: seq<Wqe>, i: nat)
    requires i < |wq|
    ensures var e := wq[i];
            if e.op == Shared then
              && Grants(wq[..i + 1]) == Grants(wq[..i]) + [GrantWithoutAgent(e.id)]
              && Writers(wq[..i + 1]) == Writers(wq[..i])
              && SharedIds(wq[..i + 1]) == SharedIds(wq[..i]) + {e.id}
            else
              && Grants(wq[..i + 1]) == Grants(wq[..i])
              && Writers(wq[..i + 1]) == Writers(wq[..i]) + [e]
              && SharedIds(wq[..i + 1]) == SharedIds(wq[..i])
  {
    var e := wq[i];
    assert wq[..i + 1] == wq[..i] + [e];
    GrantsConcat(wq[..i], [e]);
    RwLocks.WritersConcat(wq[..i], [e]);
    assert [e][1..] == [];
    forall id ensures id in SharedIds(wq[..i + 1]) <==> id in SharedIds(wq[..i]) || (e.op == Shared && id == e.id) {
      if id in SharedIds(wq[..i]) {
        assert Wqe(id, Shared) in wq[..i];
        assert Wqe(id, Shared) in wq[..i + 1];
      }
      if id in SharedIds(wq[..i + 1]) {
        assert Wqe(id, Shared) in wq[..i + 1];
      }
    }
  }

  lemma {:induction false} DequeueAt(wq: seq<Wqe>, id: Id, i: nat)
    requires i < |wq| && wq[i].id == id && forall j :: 0 <= j < i ==> wq[j].id != id
    ensures Dequeue(wq, id) == wq[..i] + wq[i + 1..]
  {
    if i > 0 {
      DequeueAt(wq[1..], id, i - 1);
      assert wq[1..][..i - 1] == wq[1..i] && wq[1..][i..] == wq[i + 1..];
      assert wq[..i] == [wq[0]] + wq[1..i];
    }
  }

  lemma {:induction false} DequeueNone(wq: seq<Wqe>, id: Id)
    requires forall j :: 0 <= j < |wq| ==> wq[j].id != id
    ensures Dequeue(wq, id) == wq
  {
    if wq != [] {
      DequeueNone(wq[1..], id);
    }
  }
}
