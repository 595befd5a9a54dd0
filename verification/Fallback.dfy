/** FissLock's fallback for locks that the switch does not manage: one host manages the lock
    in an `innet_lock` with only mode, holders and wait queue in use (lib/lock.cc). After an
    exclusive hand-off the new holder is not among the recorded holders; the refinement
    relation allows for that. */
module Fallback {
  import opened Messages
  import opened Hosts
  import opened RwLocks
  import opened InnetLocks
  import opened ParLocks
  import opened NetLockServers

  /** `handle_acquire_lm` and the reply to a granted request. */
  function AcquireLm(h: Host, id: Id, op: Mode): (Host, seq<Msg>) {
    if h.mode == Unlocked then
      (h.(mode := Locked(op), holders := h.holders + {id}), [GrantWithoutAgent(id)])
    else if h.mode == Locked(Shared) && op == Shared then
      (h.(holders := h.holders + {id}), [GrantWithoutAgent(id)])
    else (h.(wqueue := h.wqueue + [Wqe(id, op)]), [])
  }

  /** `handle_release_lm` and what its callers do when it asks for a reply. */
  function ReleaseLm(h: Host, id: Id): (Host, seq<Msg>) {
    var h := h.(holders := h.holders - {id});
    if h.holders != {} then (h, [])
    else if h.wqueue == [] then (h.(mode := Unlocked), [])
    else if h.wqueue[0].op == Shared then
      (Digest(h.(mode := Locked(Shared), wqueue := []), h.wqueue), Grants(h.wqueue))
    else (h.(mode := Locked(Exclusive), wqueue := h.wqueue[1..]), [GrantWithoutAgent(h.wqueue[0].id)])
  }

  // ---- The handlers, in place ---------------------------------------------------------

  method HandleAcquireLm(l: InnetLock, id: Id, op: Mode) returns (grant: bool)
    modifies l
    ensures var (h, send) := AcquireLm(old(l.View()), id, op);
            l.View() == h && grant == (send != [])
  {
    if l.mode == Unlocked {
      l.mode := Locked(op);
      l.holders := l.holders + {id};
      return true;
    } else if l.mode == Locked(Shared) {
      if op == Shared {
        l.holders := l.holders + {id};
        return true;
      }
      l.wqueue := l.wqueue + [Wqe(id, op)];
      return false;
    } else {
      l.wqueue := l.wqueue + [Wqe(id, op)];
      return false;
    }
  }

  /** `reply`: the caller is to grant the head of the wait queue and erase it. */
  method HandleReleaseLm(l: InnetLock, id: Id) returns (reply: bool, send: seq<Msg>)
    modifies l
    ensures var (h, grants) := ReleaseLm(old(l.View()), id);
            if reply
            then l.wqueue != [] && send == [] && grants == [GrantWithoutAgent(l.wqueue[0].id)]
                 && h == l.View().(wqueue := l.wqueue[1..])
            else send == grants && h == l.View()
  {
    reply, send := false, [];
    l.holders := l.holders - {id};
    if l.holders == {} {
      if l.wqueue == [] {
        l.mode := Unlocked;
      } else {
        l.mode := Locked(l.wqueue[0].op);
        if l.mode == Locked(Shared) {
          var wq := l.wqueue;
          l.wqueue := [];
          send := l.DigestWq(wq);
        } else {
          reply := true;
        }
      }
    }
  }

  /** An acquisition, by packet or by a local task; the reply is a packet or a return value. */
  method Acquisition(l: InnetLock, id: Id, op: Mode) returns (send: seq<Msg>)
    modifies l
    ensures (l.View(), send) == AcquireLm(old(l.View()), id, op)
  {
    var grant := HandleAcquireLm(l, id, op);
    send := if grant then [GrantWithoutAgent(id)] else [];
  }

  /** A release, by packet or by a local task. */
  method ReleaseOf(l: InnetLock, id: Id) returns (send: seq<Msg>)
    modifies l
    ensures (l.View(), send) == ReleaseLm(old(l.View()), id)
  {
    var reply;
    reply, send := HandleReleaseLm(l, id);
    if reply {
      send := [GrantWithoutAgent(l.wqueue[0].id)];
      l.wqueue := l.wqueue[1..];
    }
  }

  // ---- Refinement ---------------------------------------------------------------------

  ghost predicate Outstanding(s: RwLock, x: Wqe) {
    x in s.granted || x in s.waiting
  }

  /** No two outstanding requests share host and task. */
  ghost predicate UniqueIds(s: RwLock) {
    forall x, y :: Outstanding(s, x) && Outstanding(s, y) && x.id == y.id ==> x == y
  }

  function Ids(rs: set<Wqe>): set<Id> {
    set r | r in rs :: r.id
  }

  /** `h` represents `s`; an exclusive holder may be missing from the holders. */
  ghost predicate Stands(h: Host, s: RwLock) {
    && Sound(s) && UniqueIds(s) && h.wqueue == s.waiting
    && match h.mode
       case Unlocked => s == UNLOCKED && h.holders == {}
       case Locked(Shared) => s.granted != {} && AllShared(s.granted) && h.holders == Ids(s.granted)
       case Locked(Exclusive) =>
         exists x :: s.granted == {x} && x.op == Exclusive && h.holders <= {x.id}
  }

  /** The packets that carry grants. */
  function Replies(grants: seq<Wqe>): seq<Msg> {
    seq(|grants|, i requires 0 <= i < |grants| => GrantWithoutAgent(grants[i].id))
  }

  lemma {:induction false} GrantsAreReplies(wq: seq<Wqe>)
    ensures Grants(wq) == Replies(Readers(wq))
  {
    if wq != [] {
      GrantsAreReplies(wq[1..]);
    }
  }

  lemma StepOutstanding(s: RwLock, e: Event, x: Wqe)
    requires Outstanding(Step(s, e).lock, x)
    ensures Outstanding(s, x) || e == Acquires(x)
  {
    match e
    case Acquires(r) =>
    case Releases(r) =>
      ErasePlain(s.waiting, r);
      PartitionMembers(s.waiting, x);
  }

  /** The event, if an acquisition, brings a new host and task. */
  ghost predicate NewId(s: RwLock, e: Event) {
    e.Acquires? ==> forall x :: Outstanding(s, x) ==> x.id != e.r.id
  }

  lemma StepUnique(s: RwLock, e: Event)
    requires UniqueIds(s) && NewId(s, e)
    ensures UniqueIds(Step(s, e).lock)
  {
    hide Step;
    var t := Step(s, e).lock;
    forall x, y | Outstanding(t, x) && Outstanding(t, y) && x.id == y.id ensures x == y {
      StepOutstanding(s, e, x);
      StepOutstanding(s, e, y);
    }
  }

  lemma AcquireRefines(h: Host, s: RwLock, r: Wqe)
    requires Stands(h, s) && Admissible(s, Acquires(r)) && NewId(s, Acquires(r))
    ensures var (g, send) := AcquireLm(h, r.id, r.op);
            Stands(g, AfterAcquire(s, r).lock) && send == Replies(AfterAcquire(s, r).grants)
  {
    StepSound(s, Acquires(r));
    StepUnique(s, Acquires(r));
    var t := AfterAcquire(s, r).lock;
    assert Ids(s.granted + {r}) == Ids(s.granted) + {r.id};
    if h.mode == Unlocked {
      assert t.granted == {r};
      assert Ids({r}) == {r.id};
    } else if h.mode == Locked(Exclusive) {
      var x :| s.granted == {x} && x.op == Exclusive && h.holders <= {x.id};
      assert x in s.granted && !AllShared(s.granted);
    }
  }

  lemma IdsWithout(s: RwLock, r: Wqe)
    requires UniqueIds(s) && r in s.granted
    ensures Ids(s.granted - {r}) == Ids(s.granted) - {r.id}
  {
    forall i | i in Ids(s.granted) - {r.id} ensures i in Ids(s.granted - {r}) {
      var x :| x in s.granted && x.id == i;
      assert x in s.granted - {r};
    }
    forall i | i in Ids(s.granted - {r}) ensures i in Ids(s.granted) - {r.id} {
      var x :| x in s.granted - {r} && x.id == i;
      assert Outstanding(s, x) && Outstanding(s, r);
    }
  }

  lemma DigestedIds(wq: seq<Wqe>)
    ensures Ids(Elements(Readers(wq))) == SharedIds(wq)
  {
    forall x ensures x in Readers(wq) <==> x in wq && x.op == Shared {
      PartitionMembers(wq, x);
    }
    forall i | i in SharedIds(wq) ensures i in Ids(Elements(Readers(wq))) {
      var x :| x in wq && x.op == Shared && x.id == i;
      assert x in Elements(Readers(wq));
    }
  }

  lemma ReadersAllShared(waiting: seq<Wqe>)
    ensures AllShared(Elements(Readers(waiting)))
  {
    forall x | x in Readers(waiting) ensures x.op == Shared {
      PartitionMembers(waiting, x);
    }
  }

  /** Nobody holds any more: the hand-off is that of the abstract lock. */
  lemma HandOffStands(h: Host, waiting: seq<Wqe>, id: Id)
    requires h.wqueue == waiting && h.holders - {id} == {}
    requires Sound(HandOff(waiting).lock) && UniqueIds(HandOff(waiting).lock)
    ensures var (g, send) := ReleaseLm(h, id);
            Stands(g, HandOff(waiting).lock) && send == Replies(HandOff(waiting).grants)
  {
    hide Sound, UniqueIds, Grants, Readers, Writers, SharedIds;
    if waiting != [] {
      GrantsAreReplies(waiting);
      DigestedIds(waiting);
      ReadersAllShared(waiting);
      if waiting[0].op == Exclusive {
        assert HandOff(waiting).lock.granted == {waiting[0]};
      } else {
        PartitionMembers(waiting, waiting[0]);
        assert waiting[0] in HandOff(waiting).lock.granted;
      }
    }
  }

  /** A holder's release is that of the abstract lock. */
  lemma ReleaseRefines(h: Host, s: RwLock, r: Wqe)
    requires Stands(h, s) && r in s.granted
    ensures var (g, send) := ReleaseLm(h, r.id);
            Stands(g, AfterRelease(s, r).lock) && send == Replies(AfterRelease(s, r).grants)
  {
    hide HandOff, Digest, Grants, Sound, UniqueIds;
    StepSound(s, Releases(r));
    StepUnique(s, Releases(r));
    assert r !in s.waiting by { HolderWaitsNot(s, r); }
    IdsWithout(s, r);
    if s.granted - {r} == {} {
      assert h.holders - {r.id} == {};
      HandOffStands(h, s.waiting, r.id);
    } else {
      var x :| x in s.granted - {r};
      assert h.mode == Locked(Shared);
      assert x.id in Ids(s.granted - {r});
    }
  }

  lemma HolderWaitsNot(s: RwLock, r: Wqe)
    requires Sound(s) && r in s.granted
    ensures r !in s.waiting
  {
  }

  lemma {:induction false} EraseShortens(q: seq<Wqe>, r: Wqe)
    requires r in q
    ensures |Erase(q, r)| == |q| - 1
  {
    if q[0] != r {
      EraseShortens(q[1..], r);
    }
  }

  /** The fallback follows the abstract lock exactly on releases by holders. The release of a
      waiter leaves it in the queue, and after an exclusive hand-off it even grants the lock
      to the next request. */
  lemma ReleaseRefinesExactly(h: Host, s: RwLock, r: Wqe)
    requires Stands(h, s) && Outstanding(s, r)
    ensures var (g, send) := ReleaseLm(h, r.id);
            Stands(g, AfterRelease(s, r).lock) && send == Replies(AfterRelease(s, r).grants)
            <==> r in s.granted
  {
    if r in s.granted {
      ReleaseRefines(h, s, r);
    } else {
      EraseShortens(s.waiting, r);
      WaiterReleases(h, s, r);
    }
  }

  lemma WaiterReleases(h: Host, s: RwLock, r: Wqe)
    requires Stands(h, s) && r in s.waiting
    ensures ReleaseLm(h, r.id).0.wqueue == s.waiting || ReleaseLm(h, r.id).1 != []
  {
    if h.wqueue[0].op == Shared {
      GrantsAreReplies(h.wqueue);
    }
  }

  /** Three writers: the first releases, the second is granted, the third gives up waiting and
      is granted the lock that the second holds. */
  lemma WithdrawalBreaksExclusion(a: Id, b: Id, c: Id)
    requires a != b && b != c && a != c
    ensures var h0 := IDLE;
            var (h1, s1) := AcquireLm(h0, a, Exclusive);
            var (h2, s2) := AcquireLm(h1, b, Exclusive);
            var (h3, s3) := AcquireLm(h2, c, Exclusive);
            var (h4, s4) := ReleaseLm(h3, a);
            var (h5, s5) := ReleaseLm(h4, c);
            && s1 == [GrantWithoutAgent(a)] && s2 == s3 == []
            && s4 == [GrantWithoutAgent(b)]
            && s5 == [GrantWithoutAgent(c)]
  {
    var h1 := AcquireLm(IDLE, a, Exclusive).0;
    var h3 := AcquireLm(AcquireLm(h1, b, Exclusive).0, c, Exclusive).0;
    assert h1.holders == {a} && h3.holders - {a} == {};
    assert h3.wqueue == [Wqe(b, Exclusive), Wqe(c, Exclusive)];
  }

  // ---- All four managers --------------------------------------------------------------

  lemma {:induction false} OutstandingWereMade(h: seq<Event>, x: Wqe)
    requires Outstanding(Run(h).lock, x)
    ensures Acquires(x) in h
  {
    if h != [] {
      var g := h[..|h| - 1];
      StepOutstanding(Run(g).lock, h[|h| - 1], x);
      if Outstanding(Run(g).lock, x) {
        OutstandingWereMade(g, x);
        assert Acquires(x) in g;
      }
    }
  }

  /** Every acquisition has its own host and task, and nobody gives up waiting. */
  ghost predicate Plain(h: seq<Event>) {
    && (forall i, j :: 0 <= i < j < |h| && h[i].Acquires? && h[j].Acquires? ==> h[i].r.id != h[j].r.id)
    && (forall i :: 0 <= i < |h| && h[i].Releases? ==> h[i].r in Run(h[..i]).lock.granted)
  }

  lemma NextIsNew(h: seq<Event>, i: nat)
    requires Plain(h) && i < |h|
    ensures NewId(Run(h[..i]).lock, h[i])
    ensures h[i].Releases? ==> h[i].r in Run(h[..i]).lock.granted
  {
    forall x | h[i].Acquires? && Outstanding(Run(h[..i]).lock, x) ensures x.id != h[i].r.id {
      OutstandingWereMade(h[..i], x);
      var k :| 0 <= k < i && h[..i][k] == Acquires(x);
      assert h[k] == Acquires(x);
    }
  }

  /** One event at a NetLock primary server. */
  method ServePrimary(q: RequestQueue, e: Event) returns (grants: seq<Wqe>)
    requires q.Valid() && Admissible(q.lock, e)
    modifies q
    ensures q.Valid() && Result(q.lock, grants) == Step(old(q.lock), e)
  {
    match e
    case Acquires(r) => grants := q.PrimaryAcquire(r);
    case Releases(r) => grants := q.PrimaryRelease(r);
  }

  /** One event at the fallback manager, standing for abstract lock `s`. */
  method ServeFallback(l: InnetLock, e: Event, ghost s: RwLock) returns (send: seq<Msg>)
    requires Stands(l.View(), s) && Admissible(s, e) && NewId(s, e)
    requires e.Releases? ==> e.r in s.granted
    modifies l
    ensures Stands(l.View(), Step(s, e).lock) && send == Replies(Step(s, e).grants)
  {
    hide Stands, AcquireLm, ReleaseLm;
    match e
    case Acquires(r) =>
      AcquireRefines(l.View(), s, r);
      send := Acquisition(l, r.id, r.op);
    case Releases(r) =>
      ReleaseRefines(l.View(), s, r);
      send := ReleaseOf(l, r.id);
  }

  /** On every well-formed history without withdrawals the four managers issue the same
      grants at every step: those of the abstract lock, so that `ServesInOrder` applies. */
  method ServeAll(h: seq<Event>, localhost: nat, enqueueHolders: bool)
    returns (remote: seq<seq<Wqe>>, mixed: seq<seq<Notice>>, primary: seq<seq<Wqe>>, fallback: seq<seq<Msg>>)
    requires WellFormed(h) && Plain(h)
    ensures remote == primary && |remote| == |mixed| == |fallback| == |h|
    ensures forall i :: 0 <= i < |h| ==> remote[i] == Issued(h, i)
    ensures forall i :: 0 <= i < |h| ==> mixed[i] == Announced(Issued(h, i), localhost)
    ensures forall i :: 0 <= i < |h| ==> fallback[i] == Replies(Issued(h, i))
  {
    hide Represents, Stands, Step, WellFormed, NewId, Replies, Announced, Plain, Run;
    remote, mixed, primary, fallback := [], [], [], [];
    var server := new LockQueue(enqueueHolders);
    var client := new LockQueue(enqueueHolders);
    var netlock := new RequestQueue();
    var innet := new InnetLock(localhost);
    IdleStands();
    StartsUnlocked();
    assert h[..0] == [];
    for i := 0 to |h|
      invariant |remote| == |mixed| == |fallback| == i && remote == primary
      invariant server.Valid() && client.Valid() && netlock.Valid()
      invariant server.lock == client.lock == netlock.lock == Run(h[..i]).lock
      invariant Stands(innet.View(), Run(h[..i]).lock)
      invariant forall k :: 0 <= k < i ==> remote[k] == Issued(h, k)
      invariant forall k :: 0 <= k < i ==> mixed[k] == Announced(Issued(h, k), localhost)
      invariant forall k :: 0 <= k < i ==> fallback[k] == Replies(Issued(h, k))
    {
      NextAdmissible(h, i);
      NextIsNew(h, i);
      var a, b, c, d := ServeEach(server, client, netlock, innet, h[i], localhost, Run(h[..i]).lock);
      remote, mixed, primary, fallback := remote + [a], mixed + [b], primary + [c], fallback + [d];
    }
  }

  lemma IdleStands()
    ensures Stands(IDLE, UNLOCKED)
  {
  }

  lemma StartsUnlocked()
    ensures Run([]).lock == UNLOCKED
  {
  }

  /** One event at all four managers. */
  method ServeEach(server: LockQueue, client: LockQueue, netlock: RequestQueue, innet: InnetLock,
                   e: Event, localhost: nat, ghost s: RwLock)
    returns (remote: seq<Wqe>, mixed: seq<Notice>, primary: seq<Wqe>, fallback: seq<Msg>)
    requires server != client && server.Valid() && client.Valid() && netlock.Valid()
    requires server.lock == client.lock == netlock.lock == s && Stands(innet.View(), s)
    requires Admissible(s, e) && NewId(s, e) && (e.Releases? ==> e.r in s.granted)
    modifies server, client, netlock, innet
    ensures server.Valid() && client.Valid() && netlock.Valid()
    ensures server.lock == client.lock == netlock.lock == Step(s, e).lock && Stands(innet.View(), Step(s, e).lock)
    ensures remote == primary == Step(s, e).grants && fallback == Replies(Step(s, e).grants)
    ensures mixed == Announced(Step(s, e).grants, localhost)
  {
    hide Represents, Stands, Step, NewId, Replies, Announced;
    var abnormal;
    remote, abnormal := Serve(server, e);
    mixed := ServeMixed(client, e, localhost);
    primary := ServePrimary(netlock, e);
    fallback := ServeFallback(innet, e, s);
  }

  /** One event at a ParLock table: by the client's own code if it comes from this host, and
      otherwise by the server's, which announces its grants likewise. */
  method ServeMixed(table: LockQueue, e: Event, localhost: nat) returns (out: seq<Notice>)
    requires table.Valid() && Admissible(table.lock, e)
    modifies table
    ensures var after := Step(old(table.lock), e);
            table.Valid() && table.lock == after.lock && out == Announced(after.grants, localhost)
  {
    var abnormal;
    if e.r.id.host != localhost {
      var grants;
      grants, abnormal := Serve(table, e);
      out := Announced(grants, localhost);
    } else if e.Acquires? {
      out := table.AcquireLockLocal(e.r.id.task, e.r.op, localhost);
    } else {
      out, abnormal := table.ReleaseLockLocal(e.r.id.task, e.r.op, localhost);
    }
  }
}
