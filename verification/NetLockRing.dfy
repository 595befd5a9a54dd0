/** NetLock's queue of one lock in the switch (baseline/NetLock/switch/p4/ingress.p4): a ring
    in a range of the shared slot registers, with registers for head, tail, empty slots and
    the numbers of queued shared and exclusive requests. A release recirculates to grant the
    next requests. The functions here say what one pass of a packet does to the registers. */
module NetLockRings {
  import opened Messages
  import opened RwLocks
  import opened ParLocks

  /** The registers of a lock. Its slots are `left..right` of the slot registers, its queue
      lies behind `head` up to `tail`. `empty` and `spilled` are the two halves of the slot
      register: free slots, and requests sent to the server. */
  datatype Ring = Ring(left: nat, right: nat, head: nat, tail: nat, empty: nat, spilled: int,
                       exclusive: int, shared: int, slots: seq<Wqe>)

  predicate Shaped(r: Ring) {
    && r.left <= r.head <= r.right < |r.slots| && r.left <= r.tail <= r.right
    && r.empty <= Capacity(r)
  }

  function Capacity(r: Ring): int {
    r.right - r.left + 1
  }

  function Fill(r: Ring): int {
    Capacity(r) - r.empty
  }

  /** One step around the ring. */
  function Next(r: Ring, p: nat): nat {
    if p == r.right then r.left else p + 1
  }

  /** The slot `k` steps behind the head. */
  function Slot(r: Ring, k: nat): int {
    if r.head + k <= r.right then r.head + k else r.head + k - Capacity(r)
  }

  /** The queued requests, oldest first. */
  function Queue(r: Ring): seq<Wqe>
    requires Shaped(r)
  {
    seq(Fill(r), i requires 0 <= i < Fill(r) => r.slots[Slot(r, i + 1)])
  }

  /** The registers agree: the tail closes the queue, the counts are those of the queue. */
  ghost predicate Consistent(r: Ring) {
    && Shaped(r) && r.tail == Slot(r, Fill(r))
    && r.exclusive == |Writers(Queue(r))| && r.shared == |Readers(Queue(r))|
  }

  function InitialRing(left: nat, right: nat, slots: seq<Wqe>): Ring
    requires left <= right
  {
    Ring(left, right, left, left, right - left + 1, 0, 0, 0, slots)
  }

  // ---- One pass of a packet -----------------------------------------------------------

  datatype Verdict = Spilled | Queued(granted: bool)

  /** Store a request behind the tail; it is granted if the counts allow it. */
  function Enqueued(r: Ring, x: Wqe): (Ring, Verdict)
    requires Shaped(r)
  {
    var tail := Next(r, r.tail);
    var s := r.(tail := tail, slots := r.slots[tail := x]);
    if x.op == Shared then (s.(shared := r.shared + 1), Queued(r.exclusive <= 0))
    else (s.(exclusive := r.exclusive + 1), Queued(r.exclusive <= 0 && r.shared <= 0))
  }

  /** ACQUIRE_LOCK. */
  function Acquired(r: Ring, x: Wqe): (Ring, Verdict)
    requires Shaped(r)
  {
    if r.empty > 0 && r.spilled == 0 then Enqueued(r.(empty := r.empty - 1), x)
    else (r.(spilled := r.spilled + 1), Spilled)
  }

  /** PUSH_BACK_LOCK: a request that had been sent to the server. */
  function PushedBack(r: Ring, x: Wqe): (Ring, Verdict)
    requires Shaped(r)
  {
    Enqueued(r.(empty := if r.empty > 0 then r.empty - 1 else 0, spilled := r.spilled - 1), x)
  }

  /** The header that a recirculating release carries. */
  datatype Header = Header(flag: nat, curHead: nat, curTail: nat, dequeued: Mode)

  datatype Fate = AskServer | Again(header: Header) | Dropped

  /** First pass of RELEASE_LOCK by a client that held the lock in `mode`. */
  function Released(r: Ring, mode: Mode): (Ring, Fate)
    requires Shaped(r)
  {
    var s := r.(empty := if r.empty <= r.right - r.left then r.empty + 1 else r.empty,
                head := Next(r, r.head),
                exclusive := if mode == Exclusive then r.exclusive - 1 else r.exclusive,
                shared := if mode == Shared then r.shared - 1 else r.shared);
    if r.empty == r.right - r.left then (s, AskServer)
    else if s.head != s.tail then
      (s, Again(Header(1, Next(s, s.head), s.tail, s.slots[s.head].op)))
    else (s, Dropped)
  }

  /** A later pass: the request granted, if any, and what becomes of the packet. */
  function Recirculated(slots: seq<Wqe>, left: nat, right: nat, h: Header): (seq<Wqe>, Fate)
    requires h.curHead < |slots|
  {
    var x := slots[h.curHead];
    if (h.flag == 1 && (h.dequeued == Exclusive || x.op == Exclusive)) || (h.flag == 2 && x.op == Shared) then
      if h.curHead != h.curTail && ((h.flag == 1 && x.op == Shared) || h.flag == 2) then
        ([x], Again(h.(flag := 2, curHead := if h.curHead == right then left else h.curHead + 1)))
      else ([x], Dropped)
    else ([], Dropped)
  }

  // ---- The ring is a queue ------------------------------------------------------------

  lemma InitialConsistent(left: nat, right: nat, slots: seq<Wqe>)
    requires left <= right < |slots|
    ensures Consistent(InitialRing(left, right, slots)) && Queue(InitialRing(left, right, slots)) == []
  {
  }

  /** Storing a request while a slot is free appends it to the queue. */
  lemma EnqueueAppends(r: Ring, x: Wqe)
    requires Consistent(r) && r.empty > 0
    ensures var (s, v) := Enqueued(r.(empty := r.empty - 1), x);
            && Shaped(s) && Consistent(s) && Queue(s) == Queue(r) + [x]
            && v != Spilled && (v == Queued(true) <==> if x.op == Shared then Writers(Queue(r)) == [] else Queue(r) == [])
  {
    hide Readers, Writers;
    var (s, v) := Enqueued(r.(empty := r.empty - 1), x);
    var q := Queue(r);
    forall i | 0 <= i < |q| ensures Queue(s)[i] == q[i] {
      assert Slot(r, i + 1) != s.tail;
    }
    assert s.tail == Slot(s, Fill(s));
    assert Queue(s) == q + [x];
    ReadersConcat(q, [x]);
    WritersConcat(q, [x]);
    ReaderAlone(x);
    WriterAlone(x);
    CountsAddUp(q);
  }

  lemma {:induction false} CountsAddUp(q: seq<Wqe>)
    ensures |Readers(q)| + |Writers(q)| == |q|
  {
    if q != [] {
      CountsAddUp(q[1..]);
    }
  }

  /** Moving the head up by one takes the oldest request off the queue. */
  lemma HeadMoves(r: Ring, s: Ring)
    requires Shaped(r) && Fill(r) > 0
    requires s == r.(head := Next(r, r.head), empty := r.empty + 1, exclusive := s.exclusive, shared := s.shared)
    ensures Shaped(s) && Queue(s) == Queue(r)[1..] && s.slots[s.head] == Queue(r)[0]
    ensures Slot(s, Fill(s)) == Slot(r, Fill(r))
  {
    var q := Queue(r);
    forall i | 0 <= i < |q| - 1 ensures Queue(s)[i] == q[i + 1] {
      assert Slot(s, i + 1) == Slot(r, i + 2);
    }
  }

  /** A release by a holder whose mode is that of the head takes the head off the queue. */
  lemma ReleasePops(r: Ring, mode: Mode)
    requires Consistent(r) && Queue(r) != [] && Queue(r)[0].op == mode
    ensures var (s, fate) := Released(r, mode);
            && Shaped(s) && Consistent(s) && Queue(s) == Queue(r)[1..] && s.spilled == r.spilled
            && (Queue(s) == [] ==> fate == AskServer)
            && (Queue(s) != [] ==> fate == Again(Header(1, Slot(s, 1), Slot(s, |Queue(s)|), mode)))
  {
    var (s, fate) := Released(r, mode);
    HeadMoves(r, s);
    hide Queue, Readers, Writers;
    var q := Queue(r);
    Unfold(q, 0);
    assert q[0..] == q;
  }

  /** The slots of other locks do not matter. */
  lemma OtherSlots(r: Ring, slots: seq<Wqe>)
    requires Shaped(r) && |slots| == |r.slots|
    requires forall p :: r.left <= p <= r.right ==> slots[p] == r.slots[p]
    ensures Shaped(r.(slots := slots)) && Queue(r.(slots := slots)) == Queue(r)
  {
    assert forall i :: 0 <= i < Fill(r) ==> Queue(r.(slots := slots))[i] == Queue(r)[i];
  }

  /** A push-back keeps the queue exactly when a slot is free: the register action decrements
      the spill count and stores the request in any case. The counts decide on its grant as on
      that of a new request. */
  lemma PushBackExactly(r: Ring, x: Wqe)
    requires Consistent(r)
    ensures var s := PushedBack(r, x).0;
            Consistent(s) && Queue(s) == Queue(r) + [x] <==> r.empty > 0
    ensures PushedBack(r, x).1 == Queued(if x.op == Shared then Writers(Queue(r)) == [] else Queue(r) == [])
  {
    hide Readers, Writers;
    CountsAddUp(Queue(r));
    if r.empty > 0 {
      assert Queue(r.(spilled := r.spilled - 1)) == Queue(r);
      EnqueueAppends(r.(spilled := r.spilled - 1), x);
    } else {
      assert |Queue(PushedBack(r, x).0)| == |Queue(r)|;
    }
  }

  // ---- The leading run ----------------------------------------------------------------

  /** The number of leading requests that may hold the lock together. */
  function RunLength(q: seq<Wqe>): (n: nat)
    ensures n <= |q|
  {
    if q == [] then 0 else if q[0].op == Exclusive then 1 else LeadingReaders(q)
  }

  function LeadingReaders(q: seq<Wqe>): (n: nat)
    ensures n <= |q|
  {
    if q == [] || q[0].op == Exclusive then 0 else 1 + LeadingReaders(q[1..])
  }

  lemma {:induction false} LeadingReadersAre(q: seq<Wqe>)
    ensures forall i :: 0 <= i < LeadingReaders(q) ==> q[i].op == Shared
    ensures LeadingReaders(q) < |q| ==> q[LeadingReaders(q)].op == Exclusive
    ensures LeadingReaders(q) == |q| <==> Writers(q) == []
  {
    if q != [] {
      LeadingReadersAre(q[1..]);
      assert forall i :: 0 < i < |q| ==> q[i] == q[1..][i - 1];
    }
  }

  lemma {:induction false} LeadingReadersAppend(q: seq<Wqe>, x: Wqe)
    ensures LeadingReaders(q + [x])
            == if LeadingReaders(q) == |q| && x.op == Shared then |q| + 1 else LeadingReaders(q)
  {
    LeadingReadersAre(q);
    if q == [] {
      assert [x][1..] == [];
    } else {
      assert (q + [x])[1..] == q[1..] + [x];
      LeadingReadersAppend(q[1..], x);
    }
  }

  /** A new request joins the leading run exactly when the counts let it be granted. */
  lemma RunAppend(q: seq<Wqe>, x: Wqe)
    ensures var free := if x.op == Shared then Writers(q) == [] else q == [];
            if free then RunLength(q) == |q| && RunLength(q + [x]) == |q| + 1
            else RunLength(q + [x]) == RunLength(q)
  {
    LeadingReadersAppend(q, x);
    LeadingReadersAre(q);
  }
}
