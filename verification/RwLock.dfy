/** A reader-preference read/write lock, abstractly: who holds it and who waits. ParLock's
    server and client, NetLock's primary server and FissLock's fallback for locks the switch
    does not manage are proved to implement it. */
module RwLocks {
  import opened Messages

  datatype RwLock = RwLock(granted: set<Wqe>, waiting: seq<Wqe>)

  const UNLOCKED := RwLock({}, [])

  /** A new state and the grants issued, in order. */
  datatype Result = Result(lock: RwLock, grants: seq<Wqe>)

  predicate AllShared(rs: set<Wqe>) {
    forall r :: r in rs ==> r.op == Shared
  }

  function Elements(q: seq<Wqe>): set<Wqe> {
    set r | r in q
  }

  /** Remove the first entry equal to `r`. */
  function Erase(q: seq<Wqe>, r: Wqe): seq<Wqe> {
    if q == [] then []
    else if q[0] == r then q[1..]
    else [q[0]] + Erase(q[1..], r)
  }

  /** Readers join readers even if writers wait. */
  function AfterAcquire(s: RwLock, r: Wqe): Result {
    if s.granted == {} || (r.op == Shared && AllShared(s.granted)) then
      Result(s.(granted := s.granted + {r}), [r])
    else Result(s.(waiting := s.waiting + [r]), [])
  }

  /** The lock has no holder left: the first waiter, if a writer, or else all readers. */
  function HandOff(waiting: seq<Wqe>): Result {
    if waiting == [] then Result(UNLOCKED, [])
    else if waiting[0].op == Exclusive then Result(RwLock({waiting[0]}, waiting[1..]), [waiting[0]])
    else Result(RwLock(Elements(Readers(waiting)), Writers(waiting)), Readers(waiting))
  }

  /** Release by a holder, or withdrawal of a waiter. */
  function AfterRelease(s: RwLock, r: Wqe): Result {
    if r in s.waiting then Result(s.(waiting := Erase(s.waiting, r)), [])
    else if s.granted - {r} == {} then HandOff(s.waiting)
    else Result(s.(granted := s.granted - {r}), [])
  }

  datatype Event = Acquires(r: Wqe) | Releases(r: Wqe)

  /** A request is made once before it is released, and only an outstanding one is released. */
  predicate Admissible(s: RwLock, e: Event) {
    match e
    case Acquires(r) => r !in s.granted && r !in s.waiting
    case Releases(r) => r in s.granted || r in s.waiting
  }

  function Step(s: RwLock, e: Event): Result {
    match e
    case Acquires(r) => AfterAcquire(s, r)
    case Releases(r) => AfterRelease(s, r)
  }

  // ---- The invariant ------------------------------------------------------------------

  ghost predicate Distinct(q: seq<Wqe>) {
    q == [] || (q[0] !in q[1..] && Distinct(q[1..]))
  }

  /** Readers together or one writer; nobody waits for a free lock; no reader waits on readers. */
  ghost predicate Sound(s: RwLock) {
    && (AllShared(s.granted) || exists x :: s.granted == {x})
    && (s.waiting != [] ==> s.granted != {})
    && (s.granted != {} && AllShared(s.granted) ==> forall r :: r in s.waiting ==> r.op == Exclusive)
    && Distinct(s.waiting)
    && (forall r :: r in s.waiting ==> r !in s.granted)
  }

  lemma {:induction false} ErasePlain(q: seq<Wqe>, r: Wqe)
    ensures forall x :: x in Erase(q, r) ==> x in q
    ensures forall x :: x in q && x != r ==> x in Erase(q, r)
  {
    if q != [] && q[0] != r {
      ErasePlain(q[1..], r);
    }
  }

  lemma {:induction false} EraseDistinct(q: seq<Wqe>, r: Wqe)
    requires Distinct(q)
    ensures Distinct(Erase(q, r)) && r !in Erase(q, r)
  {
    if q != [] && q[0] != r {
      EraseDistinct(q[1..], r);
      ErasePlain(q[1..], r);
    }
  }

  lemma {:induction false} AppendDistinct(q: seq<Wqe>, r: Wqe)
    requires Distinct(q) && r !in q
    ensures Distinct(q + [r])
  {
    if q != [] {
      AppendDistinct(q[1..], r);
      assert (q + [r])[1..] == q[1..] + [r];
    }
  }

  lemma {:induction false} PartitionMembers(q: seq<Wqe>, x: Wqe)
    ensures x in Readers(q) <==> x in q && x.op == Shared
    ensures x in Writers(q) <==> x in q && x.op == Exclusive
  {
    if q != [] {
      PartitionMembers(q[1..], x);
    }
  }

  lemma {:induction false} WritersDistinct(q: seq<Wqe>)
    requires Distinct(q)
    ensures Distinct(Writers(q))
  {
    if q != [] {
      WritersDistinct(q[1..]);
      PartitionMembers(q[1..], q[0]);
      if q[0].op == Exclusive {
        assert Writers(q)[1..] == Writers(q[1..]);
      } else {
        assert Writers(q) == Writers(q[1..]);
      }
    }
  }

  lemma HandOffSound(waiting: seq<Wqe>)
    requires Distinct(waiting)
    ensures Sound(HandOff(waiting).lock)
  {
    if waiting != [] {
      if waiting[0].op == Exclusive {
        var s := HandOff(waiting).lock;
        assert waiting[0] in s.granted && !AllShared(s.granted);
      } else {
        WritersDistinct(waiting);
        forall x ensures (x in Readers(waiting) <==> x in waiting && x.op == Shared)
                         && (x in Writers(waiting) <==> x in waiting && x.op == Exclusive)
        {
          PartitionMembers(waiting, x);
        }
        var s := HandOff(waiting).lock;
        assert AllShared(s.granted) && waiting[0] in s.granted;
      }
    }
  }

  lemma StepSound(s: RwLock, e: Event)
    requires Sound(s) && Admissible(s, e)
    ensures Sound(Step(s, e).lock)
  {
    match e
    case Acquires(r) =>
      AppendDistinct(s.waiting, r);
      if s.granted == {} {
        assert s.granted + {r} == {r};
      }
    case Releases(r) =>
      if r in s.waiting {
        EraseDistinct(s.waiting, r);
        ErasePlain(s.waiting, r);
      } else if s.granted - {r} == {} {
        HandOffSound(s.waiting);
      } else {
        assert AllShared(s.granted);
      }
  }

  // ---- Histories ----------------------------------------------------------------------

  function Run(h: seq<Event>): (r: Result) {
    if h == [] then Result(UNLOCKED, [])
    else
      var before := Run(h[..|h| - 1]);
      var after := Step(before.lock, h[|h| - 1]);
      Result(after.lock, before.grants + after.grants)
  }

  /** Every event is admissible when it comes, and every request is new. */
  ghost predicate WellFormed(h: seq<Event>) {
    h == []
    || (var g, e := h[..|h| - 1], h[|h| - 1];
        WellFormed(g) && Admissible(Run(g).lock, e) && (e.Acquires? ==> e !in g))
  }

  lemma {:induction false} PrefixWellFormed(h: seq<Event>, i: nat)
    requires WellFormed(h) && i <= |h|
    ensures WellFormed(h[..i])
  {
    if i < |h| {
      PrefixWellFormed(h[..|h| - 1], i);
      assert h[..|h| - 1][..i] == h[..i];
    } else {
      assert h[..i] == h;
    }
  }

  lemma {:induction false} AlwaysSound(h: seq<Event>)
    requires WellFormed(h)
    ensures Sound(Run(h).lock)
  {
    if h != [] {
      AlwaysSound(h[..|h| - 1]);
      StepSound(Run(h[..|h| - 1]).lock, h[|h| - 1]);
    }
  }

  /** Mutual exclusion in every well-formed history. */
  lemma Excludes(h: seq<Event>, a: Wqe, b: Wqe)
    requires WellFormed(h) && a in Run(h).lock.granted && b in Run(h).lock.granted && a != b
    ensures a.op == b.op == Shared
  {
    AlwaysSound(h);
  }

  // ---- Each mode is served in order ---------------------------------------------------

  /** The entries of one mode, in order. */
  function OfMode(op: Mode, q: seq<Wqe>): seq<Wqe> {
    if op == Shared then Readers(q) else Writers(q)
  }

  /** `arrived` after one more event: a new request of the mode joins at the end, a withdrawn
      one leaves. */
  function Arrive(op: Mode, arrived: seq<Wqe>, s: RwLock, e: Event): seq<Wqe> {
    match e
    case Acquires(r) => if r.op == op then arrived + [r] else arrived
    case Releases(r) => if r in s.waiting then Erase(arrived, r) else arrived
  }

  /** The requests of one mode in order of arrival, without the withdrawn ones. */
  function Arrived(op: Mode, h: seq<Event>): seq<Wqe> {
    if h == [] then []
    else Arrive(op, Arrived(op, h[..|h| - 1]), Run(h[..|h| - 1]).lock, h[|h| - 1])
  }

  /** The writers after one more request at the front. */
  lemma WritersCons(x: Wqe, q: seq<Wqe>)
    ensures Writers([x] + q) == if x.op == Exclusive then [x] + Writers(q) else Writers(q)
  {
    assert ([x] + q)[1..] == q;
  }

  lemma {:induction false} WritersConcat(a: seq<Wqe>, b: seq<Wqe>)
    ensures Writers(a + b) == Writers(a) + Writers(b)
  {
    if a == [] {
      assert a + b == b;
    } else {
      hide Writers;
      assert a == [a[0]] + a[1..] && a + b == [a[0]] + (a[1..] + b);
      WritersConcat(a[1..], b);
      WritersCons(a[0], a[1..]);
      WritersCons(a[0], a[1..] + b);
    }
  }

  /** The readers after one more request at the front. */
  lemma ReadersCons(x: Wqe, q: seq<Wqe>)
    ensures Readers([x] + q) == if x.op == Shared then [x] + Readers(q) else Readers(q)
  {
    assert ([x] + q)[1..] == q;
  }

  lemma {:induction false} ReadersConcat(a: seq<Wqe>, b: seq<Wqe>)
    ensures Readers(a + b) == Readers(a) + Readers(b)
  {
    if a == [] {
      assert a + b == b;
    } else {
      hide Readers;
      assert a == [a[0]] + a[1..] && a + b == [a[0]] + (a[1..] + b);
      ReadersConcat(a[1..], b);
      ReadersCons(a[0], a[1..]);
      ReadersCons(a[0], a[1..] + b);
    }
  }

  lemma ReaderAlone(r: Wqe)
    ensures Readers([r]) == if r.op == Shared then [r] else []
  {
    assert [r][1..] == [];
  }

  lemma {:induction false} WritersOfReaders(q: seq<Wqe>)
    ensures Writers(Readers(q)) == [] && Writers(Writers(q)) == Writers(q)
  {
    if q != [] {
      WritersOfReaders(q[1..]);
      WritersConcat(if q[0].op == Shared then [q[0]] else [], Readers(q[1..]));
      WritersConcat(if q[0].op == Shared then [] else [q[0]], Writers(q[1..]));
      assert Writers([q[0]]) == (if q[0].op == Shared then [] else [q[0]]) + Writers([]);
    }
  }

  lemma {:induction false} WritersErase(q: seq<Wqe>, r: Wqe)
    ensures Writers(Erase(q, r)) == Erase(Writers(q), r)
  {
    if q != [] {
      var x, rest := q[0], q[1..];
      assert q == [x] + rest;
      WritersErase(rest, r);
      WritersCons(x, rest);
      WritersCons(x, Erase(rest, r));
      EraseCons(x, rest, r);
      EraseCons(x, Writers(rest), r);
      if x == r && r.op == Shared {
        PartitionMembers(rest, r);
        EraseAbsent(Writers(rest), r);
      }
    }
  }

  lemma {:induction false} ReadersOfWriters(q: seq<Wqe>)
    ensures Readers(Writers(q)) == [] && Readers(Readers(q)) == Readers(q)
  {
    if q != [] {
      ReadersOfWriters(q[1..]);
      ReadersConcat(if q[0].op == Shared then [] else [q[0]], Writers(q[1..]));
      ReadersConcat(if q[0].op == Shared then [q[0]] else [], Readers(q[1..]));
      assert Readers([q[0]]) == (if q[0].op == Shared then [q[0]] else []) + Readers([]);
    }
  }

  lemma {:induction false} ReadersErase(q: seq<Wqe>, r: Wqe)
    ensures Readers(Erase(q, r)) == Erase(Readers(q), r)
  {
    if q != [] {
      var x, rest := q[0], q[1..];
      assert q == [x] + rest;
      ReadersErase(rest, r);
      ReadersCons(x, rest);
      ReadersCons(x, Erase(rest, r));
      EraseCons(x, rest, r);
      EraseCons(x, Readers(rest), r);
      if x == r && r.op == Exclusive {
        PartitionMembers(rest, r);
        EraseAbsent(Readers(rest), r);
      }
    }
  }

  lemma EraseCons(x: Wqe, q: seq<Wqe>, r: Wqe)
    ensures Erase([x] + q, r) == if x == r then q else [x] + Erase(q, r)
  {
    assert ([x] + q)[1..] == q;
  }

  lemma {:induction false} EraseAbsent(q: seq<Wqe>, r: Wqe)
    requires r !in q
    ensures Erase(q, r) == q
  {
    if q != [] {
      EraseAbsent(q[1..], r);
    }
  }

  lemma {:induction false} EraseAfter(a: seq<Wqe>, b: seq<Wqe>, r: Wqe)
    requires r !in a
    ensures Erase(a + b, r) == a + Erase(b, r)
  {
    if a == [] {
      assert a + b == b && a + Erase(b, r) == Erase(b, r);
    } else {
      assert (a + b)[1..] == a[1..] + b;
      EraseAfter(a[1..], b, r);
    }
  }

  /** Granted and waiting requests were made, and a waiting one has no grant yet. */
  ghost predicate Placed(h: seq<Event>) {
    var r := Run(h);
    && (forall x :: x in r.grants || x in r.lock.waiting ==> Acquires(x) in h)
    && (forall x :: x in r.lock.waiting ==> x !in r.grants)
  }

  lemma HandOffPlaces(waiting: seq<Wqe>, x: Wqe)
    requires Distinct(waiting)
    ensures var r := HandOff(waiting);
            && (x in r.grants ==> x in waiting && x !in r.lock.waiting)
            && (x in r.lock.waiting ==> x in waiting)
  {
    PartitionMembers(waiting, x);
  }

  lemma StepPlaces(s: RwLock, e: Event, x: Wqe)
    requires Sound(s) && Admissible(s, e)
    ensures var r := Step(s, e);
            && (x in r.grants ==> (x in s.waiting || e == Acquires(x)) && x !in r.lock.waiting)
            && (x in r.lock.waiting ==> x in s.waiting || e == Acquires(x))
  {
    if e.Releases? {
      HandOffPlaces(s.waiting, x);
      ErasePlain(s.waiting, e.r);
    }
  }

  lemma {:induction false} AlwaysPlaced(h: seq<Event>)
    requires WellFormed(h)
    ensures Placed(h)
  {
    if h != [] {
      var n := |h| - 1;
      var g, e := h[..n], h[n];
      AlwaysPlaced(g);
      AlwaysSound(g);
      forall x ensures x in Run(h).grants || x in Run(h).lock.waiting ==> Acquires(x) in h
               ensures x in Run(h).lock.waiting ==> x !in Run(h).grants
      {
        StepPlaces(Run(g).lock, e, x);
        assert Acquires(x) in g ==> Acquires(x) in h;
      }
    }
  }

  lemma WriterAlone(r: Wqe)
    ensures Writers([r]) == if r.op == Exclusive then [r] else []
  {
    assert [r][1..] == [];
  }

  /** No reader waits where only writers do. */
  lemma {:induction false} NoReaders(q: seq<Wqe>)
    requires forall r :: r in q ==> r.op == Exclusive
    ensures Readers(q) == []
  {
    if q != [] {
      NoReaders(q[1..]);
    }
  }

  lemma OfModeConcat(op: Mode, a: seq<Wqe>, b: seq<Wqe>)
    ensures OfMode(op, a + b) == OfMode(op, a) + OfMode(op, b)
  {
    ReadersConcat(a, b);
    WritersConcat(a, b);
  }

  lemma OfModeAlone(op: Mode, r: Wqe)
    ensures OfMode(op, [r]) == if r.op == op then [r] else []
  {
    ReaderAlone(r);
    WriterAlone(r);
  }

  lemma OfModeErase(op: Mode, q: seq<Wqe>, r: Wqe)
    ensures OfMode(op, Erase(q, r)) == Erase(OfMode(op, q), r)
  {
    ReadersErase(q, r);
    WritersErase(q, r);
  }

  /** The grants of one mode, followed by the waiters of that mode. */
  function Served(op: Mode, r: Result): seq<Wqe> {
    OfMode(op, r.grants) + OfMode(op, r.lock.waiting)
  }

  lemma AcquireServes(op: Mode, s: RwLock, q: Wqe)
    requires Sound(s)
    ensures Served(op, AfterAcquire(s, q)) == OfMode(op, s.waiting) + OfMode(op, [q])
  {
    OfModeAlone(op, q);
    OfModeConcat(op, s.waiting, [q]);
    if s.granted != {} && AllShared(s.granted) {
      NoReaders(s.waiting);
    }
  }

  lemma HandOffServes(op: Mode, waiting: seq<Wqe>)
    ensures Served(op, HandOff(waiting)) == OfMode(op, waiting)
  {
    if waiting != [] {
      if waiting[0].op == Exclusive {
        assert waiting == [waiting[0]] + waiting[1..];
        OfModeConcat(op, [waiting[0]], waiting[1..]);
      } else {
        WritersOfReaders(waiting);
        ReadersOfWriters(waiting);
      }
    }
  }

  lemma ReleaseServes(op: Mode, s: RwLock, q: Wqe)
    ensures Served(op, AfterRelease(s, q))
            == if q in s.waiting then Erase(OfMode(op, s.waiting), q) else OfMode(op, s.waiting)
  {
    if q in s.waiting {
      OfModeErase(op, s.waiting, q);
    } else {
      HandOffServes(op, s.waiting);
    }
  }

  lemma OfModeMembers(op: Mode, q: seq<Wqe>, x: Wqe)
    ensures x in OfMode(op, q) <==> x in q && x.op == op
  {
    PartitionMembers(q, x);
  }

  lemma StepServes(op: Mode, before: Result, e: Event)
    requires Sound(before.lock)
    requires e.Releases? && e.r in before.lock.waiting ==> e.r !in before.grants
    ensures var after := Step(before.lock, e);
            Served(op, Result(after.lock, before.grants + after.grants))
            == Arrive(op, Served(op, before), before.lock, e)
  {
    hide OfMode, Erase, AfterAcquire, AfterRelease, Sound;
    var after := Step(before.lock, e);
    OfModeConcat(op, before.grants, after.grants);
    assert Served(op, Result(after.lock, before.grants + after.grants))
        == OfMode(op, before.grants) + Served(op, after);
    match e
    case Acquires(q) =>
      AcquireServes(op, before.lock, q);
      OfModeAlone(op, q);
    case Releases(q) =>
      ReleaseServes(op, before.lock, q);
      if q in before.lock.waiting {
        OfModeMembers(op, before.grants, q);
        EraseAfter(OfMode(op, before.grants), OfMode(op, before.lock.waiting), q);
      }
  }

  /** In every well-formed history the grants of either mode, followed by the waiters of that
      mode, are its arrivals that were not withdrawn, in order. */
  lemma {:induction false} ServedInOrder(op: Mode, h: seq<Event>)
    requires WellFormed(h)
    ensures Served(op, Run(h)) == Arrived(op, h)
  {
    if h != [] {
      var g := h[..|h| - 1];
      ServedInOrder(op, g);
      AlwaysSound(g);
      AlwaysPlaced(g);
      StepServes(op, Run(g), h[|h| - 1]);
    }
  }

  // ---- Who is served ------------------------------------------------------------------

  /** After any well-formed history and one more event: an arrival is granted exactly if it can
      hold the lock together with every holder; a release grants exactly if it is the last
      holder's, and then the first waiter, and with a reader all other waiting readers. */
  lemma GrantsExactly(h: seq<Event>, e: Event, x: Wqe)
    requires WellFormed(h) && Admissible(Run(h).lock, e)
    ensures var s := Run(h).lock;
            x in Step(s, e).grants <==>
            match e
            case Acquires(r) => x == r && forall y :: y in s.granted ==> y.op == r.op == Shared
            case Releases(r) =>
              && s.granted == {r} && s.waiting != []
              && (x == s.waiting[0] || (x in s.waiting && x.op == s.waiting[0].op == Shared))
  {
    AlwaysSound(h);
    PartitionMembers(Run(h).lock.waiting, x);
  }

  /** Every request that was made and not released holds the lock or waits, and not both;
      a holder holds until it releases, and only grants make holders. */
  lemma OutstandingExactly(h: seq<Event>, e: Event, x: Wqe)
    requires WellFormed(h) && Admissible(Run(h).lock, e)
    ensures var s, r := Run(h).lock, Step(Run(h).lock, e);
            && (x in r.lock.granted || x in r.lock.waiting
                <==> (x in s.granted || x in s.waiting || e == Acquires(x)) && e != Releases(x))
            && (x in r.lock.granted <==> (x in s.granted || x in r.grants) && e != Releases(x))
            && !(x in r.lock.granted && x in r.lock.waiting)
  {
    var s := Run(h).lock;
    AlwaysSound(h);
    StepSound(s, e);
    PartitionMembers(s.waiting, x);
    if e.Releases? && e.r in s.waiting {
      ErasePlain(s.waiting, e.r);
      EraseDistinct(s.waiting, e.r);
    }
  }
}
