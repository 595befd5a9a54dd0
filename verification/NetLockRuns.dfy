/** All runs of NetLock's queue of one lock in the switch without spill to the server.
    Acquires, releases and the passes of any number of recirculating releases interleave. */
module NetLockRuns {
  import opened Messages
  import opened NetLockRings

  /** A recirculating release: it was sent to look at arrivals `at..last`. */
  datatype Packet = Packet(header: Header, at: nat, last: nat)

  /** The ring and the recirculating packets, with the history of all requests in order of
      arrival: the slot each was stored in, how many were taken off the queue, how many grants
      each got and which were released. */
  datatype State = State(ring: Ring, packets: seq<Packet>, arrived: seq<Wqe>, places: seq<nat>,
                         popped: nat, grants: seq<nat>, released: set<nat>)

  datatype Step = Arrive(x: Wqe) | Depart(i: nat) | Pass(k: nat)

  /** Arrival `i` has been granted and not released. */
  predicate Holds(s: State, i: nat) {
    i < |s.grants| && s.grants[i] > 0 && i !in s.released
  }

  function Initial(left: nat, right: nat, slots: seq<Wqe>): State
    requires left <= right
  {
    State(InitialRing(left, right, slots), [], [], [], 0, [], {})
  }

  predicate Enabled(s: State, step: Step) {
    match step
    case Arrive(_) => Shaped(s.ring) && s.ring.empty > 0 && s.ring.spilled == 0
    case Depart(i) => Shaped(s.ring) && i < |s.arrived| && Holds(s, i)
    case Pass(k) => k < |s.packets| && s.packets[k].header.curHead < |s.ring.slots|
  }

  /** The arrival whose request is in a slot: the last one stored there; -1 if there is none. */
  function Owner(places: seq<nat>, slot: nat): int {
    if places == [] then -1
    else if places[|places| - 1] == slot then |places| - 1
    else Owner(places[..|places| - 1], slot)
  }

  /** The packets after the first pass of a release that took arrival `popped` off the queue. */
  function Launch(packets: seq<Packet>, fate: Fate, popped: nat, arrivals: nat): seq<Packet> {
    if fate.Again? && arrivals > 0 then packets + [Packet(fate.header, popped + 1, arrivals - 1)] else packets
  }

  /** The packets after packet `k` was dropped or sent round again. */
  function Fly(packets: seq<Packet>, k: nat, fate: Fate): seq<Packet>
    requires k < |packets|
  {
    if fate.Again? then packets[k := Packet(fate.header, packets[k].at + 1, packets[k].last)]
    else packets[..k] + packets[k + 1..]
  }

  /** One more grant for arrival `i`. */
  function Granted(grants: seq<nat>, i: int): seq<nat> {
    if 0 <= i < |grants| then grants[i := grants[i] + 1] else grants
  }

  /** A pass grants the request it finds in the slot that it reads. */
  function Next(s: State, step: Step): State
    requires Enabled(s, step)
  {
    match step
    case Arrive(x) =>
      var (ring, verdict) := Acquired(s.ring, x);
      s.(ring := ring, arrived := s.arrived + [x], places := s.places + [ring.tail],
         grants := s.grants + [if verdict == Queued(true) then 1 else 0])
    case Depart(i) =>
      var (ring, fate) := Released(s.ring, s.arrived[i].op);
      s.(ring := ring, packets := Launch(s.packets, fate, s.popped, |s.arrived|),
         popped := s.popped + 1, released := s.released + {i})
    case Pass(k) =>
      var h := s.packets[k].header;
      var (granted, fate) := Recirculated(s.ring.slots, s.ring.left, s.ring.right, h);
      s.(packets := Fly(s.packets, k, fate),
         grants := if granted != [] then Granted(s.grants, Owner(s.places, h.curHead)) else s.grants)
  }

  // ---- What packets read and grant ----------------------------------------------------

  predicate AllReaders(arrived: seq<Wqe>, lo: int, hi: int) {
    forall b :: 0 <= lo <= b < hi <= |arrived| ==> arrived[b].op == Shared
  }

  /** The packet goes on after a reader. */
  predicate GoesOn(f: Packet) {
    f.header.flag == 2 || f.header.dequeued == Exclusive
  }

  /** Packet `f` still has to read the slot of arrival `a`: it reads the first one, and then on
      over readers up to the tail it was sent with or to a writer. */
  predicate Visits(arrived: seq<Wqe>, f: Packet, a: int) {
    f.at <= a <= f.last && (a == f.at || (GoesOn(f) && AllReaders(arrived, f.at, a)))
  }

  /** Packet `f` will grant arrival `i`. */
  predicate Wants(arrived: seq<Wqe>, f: Packet, i: int) {
    && f.at <= i <= f.last < |arrived|
    && (GoesOn(f) || arrived[f.at].op == Exclusive)
    && ((i == f.at && f.header.flag == 1) || AllReaders(arrived, f.at, i + 1))
  }

  /** Some packet will grant arrival `i`. */
  ghost predicate Pending(arrived: seq<Wqe>, packets: seq<Packet>, i: int) {
    exists k :: 0 <= k < |packets| && Wants(arrived, packets[k], i)
  }

  /** An arrival is stored in a slot that no packet still has to read. */
  ghost predicate Spares(s: State) {
    forall k, a :: 0 <= k < |s.packets| && 0 <= a < |s.places| && Visits(s.arrived, s.packets[k], a) ==>
      s.places[a] != NetLockRings.Next(s.ring, s.ring.tail)
  }

  // ---- The invariant ------------------------------------------------------------------

  /** The numbers below `n`. */
  function Below(n: nat): (r: set<nat>)
    ensures |r| == n && forall i: nat :: i in r <==> i < n
  {
    if n == 0 then {} else Below(n - 1) + {n - 1}
  }

  /** The end of the leading run, as an arrival. */
  function Front(arrived: seq<Wqe>, popped: nat): nat
    requires popped <= |arrived|
  {
    popped + RunLength(arrived[popped..])
  }

  /** Every arrival before the front has one grant, unless a packet will grant it; others none. */
  ghost predicate Accounts(s: State) {
    && |s.grants| == |s.arrived| && s.popped <= |s.arrived|
    && (forall i :: 0 <= i < |s.grants| ==>
          s.grants[i] == if i < Front(s.arrived, s.popped) && !Pending(s.arrived, s.packets, i) then 1 else 0)
    && |s.released| == s.popped
    && (forall i :: i in s.released ==> i < |s.grants| && s.grants[i] == 1)
  }

  /** An arrival that a packet may grant: before the front, and a writer only at the head. */
  predicate Grantable(arrived: seq<Wqe>, popped: nat, i: int)
    requires popped <= |arrived|
  {
    0 <= i < |arrived| && i < Front(arrived, popped) && (arrived[i].op == Exclusive ==> i == popped)
  }

  /** No two packets will grant the same arrival, and they grant inside the leading run, or
      readers that an early release of another reader took off the queue. */
  ghost predicate Pendings(s: State)
    requires s.popped <= |s.arrived|
  {
    && (forall k, l, i :: 0 <= k < l < |s.packets| && Wants(s.arrived, s.packets[k], i) ==>
          !Wants(s.arrived, s.packets[l], i))
    && (forall k, i :: 0 <= k < |s.packets| && Wants(s.arrived, s.packets[k], i) ==>
          Grantable(s.arrived, s.popped, i))
  }

  /** A holder has the mode of the head. */
  predicate HolderFits(s: State, i: nat) {
    i < |s.arrived| && Holds(s, i) ==> s.popped < |s.arrived| && s.arrived[i].op == s.arrived[s.popped].op
  }

  /** A writer is released exactly when it is taken off the queue. */
  predicate WriterFits(s: State, i: nat) {
    i < |s.arrived| && s.arrived[i].op == Exclusive ==> (i in s.released <==> i < s.popped)
  }

  ghost predicate Holders(s: State) {
    && (forall i: nat :: HolderFits(s, i))
    && (forall i: nat :: WriterFits(s, i))
  }

  /** Arrival `a` is stored one step around the ring from the one before. */
  predicate Follows(r: Ring, places: seq<nat>, a: int) {
    0 < a < |places| ==> places[a] == NetLockRings.Next(r, places[a - 1])
  }

  /** Arrivals are stored around the ring, those in the queue behind the head. */
  ghost predicate Placed(r: Ring, places: seq<nat>, popped: nat) {
    && (forall a :: 0 <= a < |places| ==> r.left <= places[a] <= r.right)
    && (forall a :: popped <= a < |places| ==> places[a] == Slot(r, a - popped + 1))
    && (forall a :: Follows(r, places, a))
    && (places != [] ==> r.tail == places[|places| - 1])
  }

  /** A slot keeps the last request stored in it. */
  ghost predicate Kept(slots: seq<Wqe>, places: seq<nat>, arrived: seq<Wqe>) {
    forall a :: 0 <= a < |places| == |arrived| && Owner(places, places[a]) == a ==>
      places[a] < |slots| && slots[places[a]] == arrived[a]
  }

  /** The ring is the queue of the arrivals not taken off. */
  ghost predicate Stored(s: State) {
    && Shaped(s.ring) && Consistent(s.ring)
    && s.popped <= |s.arrived| == |s.places| && Queue(s.ring) == s.arrived[s.popped..]
    && Placed(s.ring, s.places, s.popped) && Kept(s.ring.slots, s.places, s.arrived)
  }

  /** A packet's header points at its arrivals. */
  ghost predicate Aimed(places: seq<nat>, f: Packet) {
    && f.at <= f.last < |places| && f.header.flag in {1, 2}
    && f.header.curHead == places[f.at] && f.header.curTail == places[f.last]
    && (forall a :: f.at <= a < f.last ==> places[a] != places[f.last])
  }

  /** The slots that a packet still has to read hold the requests it was sent for. */
  ghost predicate Intact(arrived: seq<Wqe>, places: seq<nat>, f: Packet) {
    forall a :: 0 <= a < |places| && Visits(arrived, f, a) ==> Owner(places, places[a]) == a
  }

  ghost predicate AllAimed(s: State) {
    forall k :: 0 <= k < |s.packets| ==> Aimed(s.places, s.packets[k])
  }

  ghost predicate AllIntact(s: State) {
    forall k :: 0 <= k < |s.packets| ==> Intact(s.arrived, s.places, s.packets[k])
  }

  ghost predicate Inv(s: State) {
    Stored(s) && AllAimed(s) && AllIntact(s) && Accounts(s) && Pendings(s) && Holders(s)
  }

  lemma InitialInv(left: nat, right: nat, slots: seq<Wqe>)
    requires left <= right < |slots|
    ensures Inv(Initial(left, right, slots))
  {
    InitialConsistent(left, right, slots);
  }

  /** A subset as large as the whole is the whole. */
  lemma AllBelow(rs: set<nat>, n: nat)
    requires |rs| == n && forall i :: i in rs ==> i < n
    ensures rs == Below(n)
  {
    assert rs <= Below(n);
    assert |Below(n) - rs| == 0;
  }

  /** The front, by the head of the queue. */
  lemma FrontIs(arrived: seq<Wqe>, p: nat)
    requires p <= |arrived|
    ensures var g := Front(arrived, p);
            if p == |arrived| then g == p
            else if arrived[p].op == Exclusive then g == p + 1
            else p < g <= |arrived| && AllReaders(arrived, p, g) && (g < |arrived| ==> arrived[g].op == Exclusive)
  {
    var q := arrived[p..];
    LeadingReadersAre(q);
    forall b | p <= b < Front(arrived, p) && p < |arrived| && arrived[p].op == Shared ensures arrived[b].op == Shared {
      assert arrived[b] == q[b - p];
    }
  }

  // ---- Who holds what -----------------------------------------------------------------

  /** With a writer at the head, or no head, everything before it has been released. */
  lemma Settled(s: State)
    requires Accounts(s) && Holders(s)
    requires s.popped < |s.arrived| ==> s.arrived[s.popped].op == Exclusive
    ensures s.released == Below(s.popped)
  {
    hide Pending;
    FrontIs(s.arrived, s.popped);
    assert WriterFits(s, s.popped);
    AllBelow(s.released, s.popped);
  }

  /** An arrival that a packet will grant has the mode of the head. */
  lemma PendingAlike(s: State, k: nat, i: nat)
    requires Accounts(s) && Pendings(s) && Holders(s) && k < |s.packets| && Wants(s.arrived, s.packets[k], i)
    ensures s.popped < |s.arrived| && s.arrived[i].op == s.arrived[s.popped].op && s.grants[i] == 0
  {
    assert Pending(s.arrived, s.packets, i);
    assert Grantable(s.arrived, s.popped, i);
    if s.popped < |s.arrived| ==> s.arrived[s.popped].op == Exclusive {
      Settled(s);
      FrontIs(s.arrived, s.popped);
    }
  }

  // ---- Arrivals -----------------------------------------------------------------------

  lemma WantsGrows(arrived: seq<Wqe>, x: Wqe, f: Packet, i: int)
    requires f.last < |arrived|
    ensures Wants(arrived + [x], f, i) == Wants(arrived, f, i)
    ensures Visits(arrived + [x], f, i) == Visits(arrived, f, i)
  {
    var t := arrived + [x];
    assert forall b :: 0 <= b < |arrived| ==> t[b] == arrived[b];
    if i <= f.last {
      assert AllReaders(t, f.at, i + 1) == AllReaders(arrived, f.at, i + 1);
      assert AllReaders(t, f.at, i) == AllReaders(arrived, f.at, i);
    }
  }

  lemma PendingGrows(arrived: seq<Wqe>, x: Wqe, packets: seq<Packet>, i: int)
    requires forall k :: 0 <= k < |packets| ==> packets[k].last < |arrived|
    ensures Pending(arrived + [x], packets, i) == Pending(arrived, packets, i)
    ensures i >= |arrived| ==> !Pending(arrived, packets, i)
  {
    hide Wants;
    forall k | 0 <= k < |packets|
      ensures Wants(arrived + [x], packets[k], i) == Wants(arrived, packets[k], i)
      ensures i >= |arrived| ==> !Wants(arrived, packets[k], i)
    {
      WantsGrows(arrived, x, packets[k], i);
      WantsInside(arrived, packets[k], i);
    }
  }

  lemma WantsInside(arrived: seq<Wqe>, f: Packet, i: int)
    ensures Wants(arrived, f, i) ==> f.at <= i <= f.last < |arrived|
  {
  }

  /** What an arrival leaves as it was. */
  ghost predicate Appends(s: State, x: Wqe, free: bool, t: State) {
    && t.arrived == s.arrived + [x] && t.grants == s.grants + [if free then 1 else 0]
    && t.packets == s.packets && t.popped == s.popped && t.released == s.released
  }

  /** What the front becomes when `x` arrives. */
  lemma FrontGrows(arrived: seq<Wqe>, p: nat, x: Wqe, free: bool)
    requires p <= |arrived|
    requires free <==> if x.op == Shared then Writers(arrived[p..]) == [] else p == |arrived|
    ensures if free then Front(arrived, p) == |arrived| && Front(arrived + [x], p) == |arrived| + 1
            else Front(arrived + [x], p) == Front(arrived, p) <= |arrived|
    ensures free && p < |arrived| ==> x.op == arrived[p].op
  {
    RunAppend(arrived[p..], x);
    LeadingReadersAre(arrived[p..]);
    assert (arrived + [x])[p..] == arrived[p..] + [x];
    if free && p < |arrived| {
      FrontIs(arrived, p);
    }
  }

  lemma ArriveAccounts(s: State, x: Wqe, free: bool, t: State)
    requires Accounts(s) && Appends(s, x, free, t)
    requires forall k :: 0 <= k < |s.packets| ==> s.packets[k].last < |s.arrived|
    requires free <==> if x.op == Shared then Writers(s.arrived[s.popped..]) == [] else s.popped == |s.arrived|
    ensures Accounts(t)
  {
    hide Pending, Front, Writers;
    FrontGrows(s.arrived, s.popped, x, free);
    forall i | 0 <= i < |t.grants|
      ensures t.grants[i] == if i < Front(t.arrived, t.popped) && !Pending(t.arrived, t.packets, i) then 1 else 0
    {
      PendingGrows(s.arrived, x, s.packets, i);
    }
  }

  lemma ArrivePendings(s: State, x: Wqe, free: bool, t: State)
    requires s.popped <= |s.arrived| && Pendings(s) && Appends(s, x, free, t)
    requires forall k :: 0 <= k < |s.packets| ==> s.packets[k].last < |s.arrived|
    requires free <==> if x.op == Shared then Writers(s.arrived[s.popped..]) == [] else s.popped == |s.arrived|
    ensures Pendings(t)
  {
    hide Front, Wants, Writers;
    FrontGrows(s.arrived, s.popped, x, free);
    forall k, i | 0 <= k < |s.packets|
      ensures Wants(t.arrived, t.packets[k], i) == Wants(s.arrived, s.packets[k], i)
    {
      WantsGrows(s.arrived, x, s.packets[k], i);
    }
    forall i | Grantable(s.arrived, s.popped, i) ensures Grantable(t.arrived, t.popped, i) {
      assert t.arrived[i] == s.arrived[i];
    }
  }

  lemma ArriveHolders(s: State, x: Wqe, free: bool, t: State)
    requires Accounts(s) && Holders(s) && Appends(s, x, free, t)
    requires free <==> if x.op == Shared then Writers(s.arrived[s.popped..]) == [] else s.popped == |s.arrived|
    ensures Holders(t)
  {
    hide Pending, Front, Writers;
    FrontGrows(s.arrived, s.popped, x, free);
    forall i: nat ensures HolderFits(t, i) && WriterFits(t, i) {
      assert HolderFits(s, i) && WriterFits(s, i);
    }
  }

  lemma OwnerGrows(places: seq<nat>, p: nat, slot: nat)
    ensures Owner(places + [p], slot) == if slot == p then |places| else Owner(places, slot)
  {
    assert (places + [p])[..|places|] == places;
  }

  /** Storing a request moves no slot of the queue. */
  lemma EnqueueStays(r: Ring, x: Wqe)
    requires Shaped(r) && r.empty > 0
    ensures var s := Enqueued(r.(empty := r.empty - 1), x).0;
            && s.tail == NetLockRings.Next(r, r.tail) && s.left == r.left && s.right == r.right
            && s.slots == r.slots[s.tail := x] && (forall k: nat :: Slot(s, k) == Slot(r, k))
            && (forall p: nat :: NetLockRings.Next(s, p) == NetLockRings.Next(r, p))
  {
  }

  lemma KeptGrows(slots: seq<Wqe>, places: seq<nat>, arrived: seq<Wqe>, p: nat, x: Wqe)
    requires Kept(slots, places, arrived) && |places| == |arrived| && p < |slots|
    ensures Kept(slots[p := x], places + [p], arrived + [x])
  {
    hide Owner;
    var ps := places + [p];
    forall a | 0 <= a < |ps| && Owner(ps, ps[a]) == a
      ensures ps[a] < |slots| && slots[p := x][ps[a]] == (arrived + [x])[a]
    {
      OwnerGrows(places, p, ps[a]);
    }
  }

  lemma PlacedGrows(r: Ring, s: Ring, places: seq<nat>, popped: nat)
    requires Placed(r, places, popped) && popped <= |places| && s.left == r.left && s.right == r.right
    requires s.tail == NetLockRings.Next(r, r.tail) && s.left <= s.tail <= s.right
    requires s.tail == Slot(s, |places| - popped + 1) && forall k: nat :: Slot(s, k) == Slot(r, k)
    ensures Placed(s, places + [s.tail], popped)
  {
    hide Slot;
    forall a ensures Follows(s, places + [s.tail], a) {
      assert Follows(r, places, a);
    }
  }

  lemma ArriveStored(s: State, x: Wqe)
    requires Stored(s) && Enabled(s, Arrive(x))
    ensures Stored(Next(s, Arrive(x)))
  {
    hide Queue, Consistent, Owner, Enqueued, NetLockRings.Next, Slot, Kept, Placed;
    var t := Next(s, Arrive(x));
    EnqueueAppends(s.ring, x);
    EnqueueStays(s.ring, x);
    TailSlot(t.ring);
    assert t.arrived[t.popped..] == Queue(t.ring);
    PlacedGrows(s.ring, t.ring, s.places, s.popped);
    KeptGrows(s.ring.slots, s.places, s.arrived, t.ring.tail, x);
  }

  lemma TailSlot(r: Ring)
    requires Shaped(r) && Consistent(r)
    ensures r.tail == Slot(r, |Queue(r)|) && r.left <= r.tail <= r.right
  {
  }

  lemma ArriveAims(s: State, x: Wqe)
    requires Stored(s) && AllAimed(s) && Enabled(s, Arrive(x))
    ensures AllAimed(Next(s, Arrive(x)))
  {
  }

  /** An arrival leaves every packet the requests it was sent for exactly if it spares their
      slots. */
  lemma ArriveIntactExactly(s: State, x: Wqe)
    requires Stored(s) && AllAimed(s) && AllIntact(s) && Enabled(s, Arrive(x))
    ensures AllIntact(Next(s, Arrive(x))) <==> Spares(s)
  {
    hide Visits, Owner, Enqueued, Queue, Consistent;
    var t := Next(s, Arrive(x));
    EnqueueStays(s.ring, x);
    forall k, a | 0 <= k < |s.packets| && 0 <= a < |t.places|
      ensures Visits(t.arrived, t.packets[k], a) == Visits(s.arrived, s.packets[k], a)
      ensures Visits(s.arrived, s.packets[k], a) ==> a < |s.places|
    {
      assert Aimed(s.places, s.packets[k]);
      WantsGrows(s.arrived, x, s.packets[k], a);
      VisitsInside(s.arrived, s.packets[k], a);
    }
    forall slot: nat ensures Owner(t.places, slot) == if slot == t.ring.tail then |s.places| else Owner(s.places, slot) {
      OwnerGrows(s.places, t.ring.tail, slot);
    }
    ReadsKept(s, t);
  }

  lemma VisitsInside(arrived: seq<Wqe>, f: Packet, a: int)
    ensures Visits(arrived, f, a) ==> f.at <= a <= f.last
  {
  }

  lemma ReadsKept(s: State, t: State)
    requires AllIntact(s) && t.packets == s.packets && |t.places| == |s.places| + 1
    requires t.places == s.places + [t.ring.tail] && t.ring.tail == NetLockRings.Next(s.ring, s.ring.tail)
    requires forall k, a :: 0 <= k < |s.packets| && 0 <= a < |t.places| ==>
               && Visits(t.arrived, t.packets[k], a) == Visits(s.arrived, s.packets[k], a)
               && (Visits(s.arrived, s.packets[k], a) ==> a < |s.places|)
    requires forall slot: nat :: Owner(t.places, slot) == if slot == t.ring.tail then |s.places| else Owner(s.places, slot)
    ensures AllIntact(t) <==> Spares(s)
  {
    hide Visits, Owner, NetLockRings.Next;
    if Spares(s) {
      forall k | 0 <= k < |t.packets| ensures Intact(t.arrived, t.places, t.packets[k]) {
        assert Intact(s.arrived, s.places, s.packets[k]);
      }
    }
    if AllIntact(t) {
      forall k, a | 0 <= k < |s.packets| && 0 <= a < |s.places| && Visits(s.arrived, s.packets[k], a)
        ensures s.places[a] != t.ring.tail
      {
        assert Intact(t.arrived, t.places, t.packets[k]);
        assert t.places[a] == s.places[a];
      }
    }
  }

  /** What the switch does with an arrival, by the queue that it finds. */
  lemma ArriveEffect(s: State, x: Wqe)
    requires Stored(s) && Enabled(s, Arrive(x))
    ensures exists free ::
              && Appends(s, x, free, Next(s, Arrive(x)))
              && (free <==> if x.op == Shared then Writers(s.arrived[s.popped..]) == [] else s.popped == |s.arrived|)
  {
    hide Enqueued, Consistent;
    EnqueueAppends(s.ring, x);
    hide Queue;
    assert Queue(s.ring) == [] <==> s.popped == |s.arrived|;
    assert Appends(s, x, Acquired(s.ring, x).1 == Queued(true), Next(s, Arrive(x)));
  }

  // ---- Departures ---------------------------------------------------------------------

  /** The run ends with its head: it is a writer, or a reader before a writer or at the tail. */
  predicate Closing(arrived: seq<Wqe>, p: nat)
    requires p < |arrived|
  {
    p + 1 == |arrived| || arrived[p].op == Exclusive || arrived[p + 1].op == Exclusive
  }

  lemma FrontPops(arrived: seq<Wqe>, p: nat)
    requires p < |arrived|
    ensures Front(arrived, p) == if Closing(arrived, p) then p + 1 else Front(arrived, p + 1)
  {
    var q := arrived[p..];
    assert q[1..] == arrived[p + 1..];
    assert Closing(arrived, p) && q[0].op == Shared ==> LeadingReaders(q[1..]) == 0;
  }

  /** The releases of a closing run are complete, so nothing is left to grant. */
  lemma ClosedRun(s: State, i: nat)
    requires Accounts(s) && Pendings(s) && Holders(s) && i < |s.arrived| && Holds(s, i)
    ensures s.popped < |s.arrived| && s.arrived[i].op == s.arrived[s.popped].op && |s.released + {i}| == s.popped + 1
    ensures Closing(s.arrived, s.popped) ==>
              && s.released + {i} == Below(s.popped + 1)
              && (forall j :: 0 <= j < |s.grants| ==> s.grants[j] == if j < s.popped + 1 then 1 else 0)
              && forall k, j :: 0 <= k < |s.packets| ==> !Wants(s.arrived, s.packets[k], j)
  {
    hide Front, Wants;
    assert HolderFits(s, i);
    FrontPops(s.arrived, s.popped);
    if Closing(s.arrived, s.popped) {
      AllBelow(s.released + {i}, s.popped + 1);
      forall j | 0 <= j < s.popped + 1 ensures s.grants[j] == 1 {
        assert j in s.released + {i};
      }
      forall k, j | 0 <= k < |s.packets| ensures !Wants(s.arrived, s.packets[k], j) {
        assert Wants(s.arrived, s.packets[k], j) ==> Grantable(s.arrived, s.popped, j) && Pending(s.arrived, s.packets, j);
      }
    }
  }

  /** What a departure leaves as it was, and the packet it launches. */
  ghost predicate Departs(s: State, i: nat, t: State)
    requires s.popped < |s.arrived|
  {
    && t.arrived == s.arrived && t.grants == s.grants && t.popped == s.popped + 1
    && t.released == s.released + {i}
    && if s.popped + 1 == |s.arrived| then t.packets == s.packets
       else exists f: Packet ::
         && t.packets == s.packets + [f] && f.at == s.popped + 1 && f.last == |s.arrived| - 1
         && f.header.flag == 1 && f.header.dequeued == s.arrived[s.popped].op
  }

  /** The new packet will grant exactly the new leading run, or nothing if readers remain. */
  lemma LaunchWants(arrived: seq<Wqe>, p: nat, f: Packet, j: int)
    requires p + 1 < |arrived| && f.at == p + 1 && f.last == |arrived| - 1
    requires f.header.flag == 1 && f.header.dequeued == arrived[p].op
    ensures Wants(arrived, f, j) <==> Closing(arrived, p) && p + 1 <= j < Front(arrived, p + 1)
    ensures Wants(arrived, f, j) && arrived[j].op == Exclusive ==> j == p + 1
  {
    hide Front;
    FrontIs(arrived, p + 1);
    var g := Front(arrived, p + 1);
    if p + 1 <= j < |arrived| && arrived[p + 1].op == Shared {
      assert j < g ==> AllReaders(arrived, p + 1, j + 1);
      assert j >= g && AllReaders(arrived, p + 1, j + 1) ==> arrived[g].op == Shared;
    }
  }

  lemma DepartAccounts(s: State, i: nat, t: State)
    requires Accounts(s) && Pendings(s) && Holders(s) && i < |s.arrived| && Holds(s, i)
    requires s.popped < |s.arrived| && Departs(s, i, t)
    ensures Accounts(t)
  {
    hide Front, Wants;
    ClosedRun(s, i);
    FrontPops(s.arrived, s.popped);
    FrontIs(s.arrived, s.popped + 1);
    forall j | 0 <= j < |t.grants|
      ensures t.grants[j] == if j < Front(t.arrived, t.popped) && !Pending(t.arrived, t.packets, j) then 1 else 0
    {
      DepartPending(s, i, t, j);
    }
  }

  lemma DepartPending(s: State, i: nat, t: State, j: int)
    requires s.popped < |s.arrived| && Departs(s, i, t)
    requires Closing(s.arrived, s.popped) ==> forall k, j :: 0 <= k < |s.packets| ==> !Wants(s.arrived, s.packets[k], j)
    ensures if Closing(s.arrived, s.popped)
            then Pending(t.arrived, t.packets, j) <==> s.popped + 1 <= j < Front(s.arrived, s.popped + 1)
            else Pending(t.arrived, t.packets, j) <==> Pending(s.arrived, s.packets, j)
  {
    hide Front, Wants;
    FrontIs(s.arrived, s.popped + 1);
    if s.popped + 1 < |s.arrived| {
      var f := t.packets[|s.packets|];
      assert t.packets == s.packets + [f];
      LaunchWants(s.arrived, s.popped, f, j);
      assert forall k :: 0 <= k < |s.packets| ==> t.packets[k] == s.packets[k];
      if Wants(s.arrived, f, j) {
        assert Wants(t.arrived, t.packets[|s.packets|], j);
      }
      if Pending(s.arrived, s.packets, j) {
        var k :| 0 <= k < |s.packets| && Wants(s.arrived, s.packets[k], j);
        assert Wants(t.arrived, t.packets[k], j);
      }
    }
  }

  lemma DepartPendings(s: State, i: nat, t: State)
    requires Accounts(s) && Pendings(s) && Holders(s) && i < |s.arrived| && Holds(s, i)
    requires s.popped < |s.arrived| && Departs(s, i, t)
    ensures Pendings(t)
  {
    hide Front, Wants, Pending, Accounts, Holders, Departs, Grantable;
    assert t.popped == s.popped + 1 && t.arrived == s.arrived by { DepartFacts(s, i, t); }
    ClosedRun(s, i);
    forall k, j | 0 <= k < |t.packets| && Wants(t.arrived, t.packets[k], j)
      ensures Grantable(t.arrived, t.popped, j) && (k < |s.packets| ==> Wants(s.arrived, s.packets[k], j) && !Closing(s.arrived, s.popped))
      ensures k >= |s.packets| ==> k == |s.packets| && Closing(s.arrived, s.popped)
    {
      DepartWants(s, i, t, k, j);
    }
    forall k, l, j | 0 <= k < l < |t.packets| && Wants(t.arrived, t.packets[k], j) && Wants(t.arrived, t.packets[l], j)
      ensures false
    {
      DepartWants(s, i, t, k, j);
      DepartWants(s, i, t, l, j);
    }
  }

  lemma DepartFacts(s: State, i: nat, t: State)
    requires s.popped < |s.arrived| && Departs(s, i, t)
    ensures t.popped == s.popped + 1 && t.arrived == s.arrived
    ensures |s.packets| <= |t.packets| <= |s.packets| + 1
    ensures forall k :: 0 <= k < |s.packets| ==> t.packets[k] == s.packets[k]
  {
  }

  /** Old packets grant something only while readers of the run remain, a new one only else. */
  lemma DepartWants(s: State, i: nat, t: State, k: nat, j: int)
    requires Accounts(s) && Pendings(s) && Holders(s) && i < |s.arrived| && Holds(s, i)
    requires s.popped < |s.arrived| && Departs(s, i, t)
    requires k < |t.packets| && Wants(t.arrived, t.packets[k], j)
    ensures t.popped <= |t.arrived| && Grantable(t.arrived, t.popped, j)
    ensures k < |s.packets| ==> Wants(s.arrived, s.packets[k], j) && !Closing(s.arrived, s.popped)
    ensures k >= |s.packets| ==> k == |s.packets| && Closing(s.arrived, s.popped)
  {
    hide Front, Wants, Pending;
    DepartFacts(s, i, t);
    ClosedRun(s, i);
    FrontPops(s.arrived, s.popped);
    FrontIs(s.arrived, s.popped + 1);
    WantsInside(t.arrived, t.packets[k], j);
    if k < |s.packets| {
      assert Wants(s.arrived, s.packets[k], j) && Grantable(s.arrived, s.popped, j);
    } else {
      LaunchWants(s.arrived, s.popped, t.packets[k], j);
    }
  }

  lemma DepartHolders(s: State, i: nat, t: State)
    requires Accounts(s) && Pendings(s) && Holders(s) && i < |s.arrived| && Holds(s, i)
    requires s.popped < |s.arrived| && Departs(s, i, t)
    ensures Holders(t)
  {
    hide Front, Wants, Pending;
    ClosedRun(s, i);
    assert HolderFits(s, i);
    forall j: nat ensures HolderFits(t, j) && WriterFits(t, j) {
      assert HolderFits(s, j) && WriterFits(s, j);
    }
  }

  /** Behind a head that moved up by one, slots are one step nearer. */
  lemma SlotMoves(r: Ring, s: Ring, k: nat)
    requires Shaped(r) && s.left == r.left && s.right == r.right && s.head == NetLockRings.Next(r, r.head)
    requires k < Capacity(r)
    ensures Slot(s, k) == Slot(r, k + 1)
  {
  }

  lemma PlacedPops(r: Ring, s: Ring, places: seq<nat>, popped: nat)
    requires Shaped(r) && Placed(r, places, popped) && popped < |places| && |places| - popped <= Capacity(r)
    requires s.left == r.left && s.right == r.right && s.head == NetLockRings.Next(r, r.head) && s.tail == r.tail
    ensures Placed(s, places, popped + 1)
  {
    hide Slot;
    forall a | popped + 1 <= a < |places| ensures places[a] == Slot(s, a - (popped + 1) + 1) {
      SlotMoves(r, s, a - popped);
    }
    forall a ensures Follows(s, places, a) {
      assert Follows(r, places, a);
    }
  }

  lemma DepartStored(s: State, i: nat)
    requires Stored(s) && i < |s.arrived| && Shaped(s.ring) && Enabled(s, Depart(i))
    requires s.popped < |s.arrived| && s.arrived[i].op == s.arrived[s.popped].op
    ensures Stored(Next(s, Depart(i)))
  {
    hide Queue, Consistent, Owner, Slot, Kept, Placed, Holds;
    var t := Next(s, Depart(i));
    ReleasePops(s.ring, s.arrived[i].op);
    assert t.arrived[t.popped..] == Queue(t.ring);
    QueueFits(s.ring);
    PlacedPops(s.ring, t.ring, s.places, s.popped);
  }

  lemma QueueFits(r: Ring)
    requires Shaped(r)
    ensures |Queue(r)| <= Capacity(r)
  {
  }

  /** No later request is in the slot of a queued one. */
  lemma {:induction false} OwnerIs(places: seq<nat>, a: nat)
    requires a < |places| && forall b :: a < b < |places| ==> places[b] != places[a]
    ensures Owner(places, places[a]) == a
  {
    if a < |places| - 1 {
      assert places[..|places| - 1][a] == places[a];
      OwnerIs(places[..|places| - 1], a);
    }
  }

  lemma QueueOwns(r: Ring, places: seq<nat>, popped: nat, a: nat)
    requires Shaped(r) && Placed(r, places, popped) && |places| - popped <= Capacity(r) && popped <= a < |places|
    ensures Owner(places, places[a]) == a
    ensures forall b :: a < b < |places| ==> places[b] != places[a]
  {
    OwnerIs(places, a);
  }

  lemma DepartEffect(s: State, i: nat)
    requires Stored(s) && Enabled(s, Depart(i))
    requires s.popped < |s.arrived| && s.arrived[i].op == s.arrived[s.popped].op
    ensures Departs(s, i, Next(s, Depart(i))) && LaunchAimed(s, Next(s, Depart(i)))
  {
    hide Queue, Consistent, Owner, Slot, Kept, Holds;
    var t := Next(s, Depart(i));
    DepartStored(s, i);
    ReleasePops(s.ring, s.arrived[i].op);
    QueueFits(s.ring);
    QueueFits(t.ring);
    assert |Queue(t.ring)| == |s.arrived| - s.popped - 1;
    if s.popped + 1 < |s.arrived| {
      var f := t.packets[|s.packets|];
      assert t.packets == s.packets + [f];
      forall a | f.at <= a < |t.places|
        ensures Owner(t.places, t.places[a]) == a && forall b :: a < b < |t.places| ==> t.places[b] != t.places[a]
      {
        QueueOwns(t.ring, t.places, t.popped, a);
      }
      assert Aimed(t.places, f);
      forall a | 0 <= a < |t.places| && Visits(t.arrived, f, a) ensures Owner(t.places, t.places[a]) == a {
        VisitsInside(t.arrived, f, a);
      }
    }
  }

  /** A new packet points at its arrivals, which are all in the queue. */
  ghost predicate LaunchAimed(s: State, t: State) {
    && t.places == s.places && t.arrived == s.arrived
    && forall k :: |s.packets| <= k < |t.packets| ==> Aimed(t.places, t.packets[k]) && Intact(t.arrived, t.places, t.packets[k])
  }

  lemma DepartAims(s: State, i: nat, t: State)
    requires AllAimed(s) && AllIntact(s) && s.popped < |s.arrived| && Departs(s, i, t) && LaunchAimed(s, t)
    ensures AllAimed(t) && AllIntact(t)
  {
    hide Aimed, Intact;
    DepartFacts(s, i, t);
  }

  // ---- Passes -------------------------------------------------------------------------

  /** A pass reads the request that its packet was sent for, grants it if the packet wants it,
      and goes on to the next one after a reader. */
  lemma PassReads(s: State, k: nat)
    requires Stored(s) && AllAimed(s) && AllIntact(s) && k < |s.packets|
    ensures var f := s.packets[k];
            && Aimed(s.places, f) && f.header.curHead < |s.ring.slots| && Owner(s.places, f.header.curHead) == f.at
            && var (granted, fate) := Recirculated(s.ring.slots, s.ring.left, s.ring.right, f.header);
            && granted == (if Wants(s.arrived, f, f.at) then [s.arrived[f.at]] else [])
            && if granted != [] && f.at < f.last && s.arrived[f.at].op == Shared
               then fate == Again(Header(2, s.places[f.at + 1], f.header.curTail, f.header.dequeued))
               else fate == Dropped
  {
    hide Queue, Consistent;
    var f := s.packets[k];
    assert Aimed(s.places, f) && Intact(s.arrived, s.places, f);
    assert Visits(s.arrived, f, f.at);
    assert AllReaders(s.arrived, f.at, f.at + 1) <==> s.arrived[f.at].op == Shared;
    assert Follows(s.ring, s.places, f.at + 1);
  }

  /** What is left to grant after a pass. */
  lemma WantsNext(arrived: seq<Wqe>, f: Packet, g: Packet, i: int)
    requires f.at <= f.last < |arrived| && f.header.flag in {1, 2}
    requires g.at == f.at + 1 && g.last == f.last && g.header.flag == 2
    ensures f.at < f.last && Wants(arrived, f, f.at) && arrived[f.at].op == Shared ==>
              (Wants(arrived, g, i) <==> Wants(arrived, f, i) && i != f.at)
    ensures !(f.at < f.last && Wants(arrived, f, f.at) && arrived[f.at].op == Shared) && i != f.at ==> !Wants(arrived, f, i)
  {
    if f.at < i <= f.last {
      assert AllReaders(arrived, f.at, i + 1) <==> arrived[f.at].op == Shared && AllReaders(arrived, f.at + 1, i + 1);
      assert AllReaders(arrived, f.at, f.at + 1) <==> arrived[f.at].op == Shared;
    }
  }

  /** What is left to read after a pass. */
  lemma VisitsNext(arrived: seq<Wqe>, f: Packet, g: Packet, a: int)
    requires f.at < f.last < |arrived| && f.header.flag in {1, 2}
    requires Wants(arrived, f, f.at) && arrived[f.at].op == Shared
    requires g.at == f.at + 1 && g.last == f.last && g.header.flag == 2
    ensures Visits(arrived, g, a) ==> Visits(arrived, f, a)
  {
    if f.at < a <= f.last {
      assert AllReaders(arrived, f.at, a) <==> arrived[f.at].op == Shared && AllReaders(arrived, f.at + 1, a);
    }
  }

  lemma StoredSizes(s: State)
    requires Stored(s)
    ensures |s.places| == |s.arrived| && s.popped <= |s.arrived|
  {
  }

  /** Packet `k` goes on to the next arrival. */
  predicate Continues(s: State, k: nat)
    requires k < |s.packets|
  {
    var f := s.packets[k];
    f.at < f.last < |s.arrived| && Wants(s.arrived, f, f.at) && s.arrived[f.at].op == Shared
  }

  /** What pass `k` leaves as it was, whom it grants and what becomes of its packet. */
  ghost predicate Passes(s: State, k: nat, t: State)
    requires k < |s.packets|
  {
    var f := s.packets[k];
    && f.at <= f.last < |s.arrived| && f.header.flag in {1, 2}
    && t.arrived == s.arrived && t.popped == s.popped && t.released == s.released
    && t.grants == (if Wants(s.arrived, f, f.at) then Granted(s.grants, f.at) else s.grants)
    && if Continues(s, k)
       then |t.packets| == |s.packets| && t.packets == s.packets[k := t.packets[k]]
            && t.packets[k].at == f.at + 1 && t.packets[k].last == f.last && t.packets[k].header.flag == 2
       else t.packets == s.packets[..k] + s.packets[k + 1..]
  }

  lemma PassEffect(s: State, k: nat)
    requires Stored(s) && AllAimed(s) && AllIntact(s) && Enabled(s, Pass(k))
    ensures var t := Next(s, Pass(k));
            && Passes(s, k, t) && t.places == s.places
            && (Continues(s, k) ==> t.packets[k].header.curHead == s.places[s.packets[k].at + 1]
                                    && t.packets[k].header.curTail == s.packets[k].header.curTail)
  {
    hide Queue, Consistent, Owner, Recirculated, Stored, Wants;
    PassReads(s, k);
    StoredSizes(s);
  }

  /** Where a packet was in the list before the pass. */
  function Before(goesOn: bool, k: nat, l: nat): nat {
    if goesOn || l < k then l else l + 1
  }

  /** A packet that goes on points at the next arrival. */
  lemma AimedNext(s: State, k: nat, g: Packet)
    requires |s.places| == |s.arrived| && k < |s.packets| && Continues(s, k)
    requires Aimed(s.places, s.packets[k]) && Intact(s.arrived, s.places, s.packets[k])
    requires g.at == s.packets[k].at + 1 && g.last == s.packets[k].last && g.header.flag == 2
    requires g.header.curHead == s.places[g.at] && g.header.curTail == s.packets[k].header.curTail
    ensures Aimed(s.places, g) && Intact(s.arrived, s.places, g)
  {
    hide Owner, Wants;
    forall a | 0 <= a < |s.places| && Visits(s.arrived, g, a) ensures Owner(s.places, s.places[a]) == a {
      VisitsNext(s.arrived, s.packets[k], g, a);
    }
  }

  lemma PassAims(s: State, k: nat, t: State)
    requires AllAimed(s) && AllIntact(s) && |s.places| == |s.arrived| && k < |s.packets| && Passes(s, k, t)
    requires t.places == s.places
    requires Continues(s, k) ==> t.packets[k].header.curHead == s.places[s.packets[k].at + 1]
                                 && t.packets[k].header.curTail == s.packets[k].header.curTail
    ensures AllAimed(t) && AllIntact(t)
  {
    hide Wants, Intact, Continues;
    forall l | 0 <= l < |t.packets| ensures Aimed(t.places, t.packets[l]) && Intact(t.arrived, t.places, t.packets[l]) {
      if Continues(s, k) && l == k {
        assert Aimed(s.places, s.packets[k]) && Intact(s.arrived, s.places, s.packets[k]);
        AimedNext(s, k, t.packets[k]);
      } else {
        var m := Before(Continues(s, k), k, l);
        assert t.packets[l] == s.packets[m];
        assert Aimed(s.places, s.packets[m]) && Intact(s.arrived, s.places, s.packets[m]);
      }
    }
  }

  /** What the packets still grant after a pass: not the arrival just granted. */
  lemma PassWants(s: State, k: nat, t: State, l: nat, i: int)
    requires k < |s.packets| && Passes(s, k, t) && l < |t.packets| && Wants(t.arrived, t.packets[l], i)
    ensures var m := Before(Continues(s, k), k, l);
            m < |s.packets| && Wants(s.arrived, s.packets[m], i) && (m == k ==> i != s.packets[k].at)
  {
    hide Wants;
    if Continues(s, k) && l == k {
      WantsNext(s.arrived, s.packets[k], t.packets[k], i);
    }
  }

  lemma PassPendings(s: State, k: nat, t: State)
    requires s.popped <= |s.arrived| && Pendings(s) && k < |s.packets| && Passes(s, k, t)
    ensures Pendings(t)
  {
    hide Wants, Grantable;
    forall l, i | 0 <= l < |t.packets| && Wants(t.arrived, t.packets[l], i) ensures Grantable(t.arrived, t.popped, i) {
      PassWants(s, k, t, l, i);
    }
    forall l, m, i | 0 <= l < m < |t.packets| && Wants(t.arrived, t.packets[l], i) && Wants(t.arrived, t.packets[m], i)
      ensures false
    {
      PassWants(s, k, t, l, i);
      PassWants(s, k, t, m, i);
    }
  }

  lemma StillWanted(s: State, k: nat, t: State, m: nat, i: int)
    requires k < |s.packets| && Passes(s, k, t)
    requires m < |s.packets| && Wants(s.arrived, s.packets[m], i) && !(m == k && i == s.packets[k].at)
    ensures Pending(t.arrived, t.packets, i)
  {
    hide Wants;
    var f := s.packets[k];
    if m == k {
      WantsNext(s.arrived, f, f.(header := f.header.(flag := 2), at := f.at + 1), i);
      assert Continues(s, k);
      WantsNext(s.arrived, f, t.packets[k], i);
    }
    var l := if Continues(s, k) || m < k then m else m - 1;
    assert Wants(t.arrived, t.packets[l], i);
  }

  /** A pass makes nothing pending, and of the pending arrivals only the one it grants is not
      pending any more. */
  lemma PassPending(s: State, k: nat, t: State, i: int)
    requires s.popped <= |s.arrived| && Pendings(s) && k < |s.packets| && Passes(s, k, t)
    ensures Pending(t.arrived, t.packets, i)
            <==> Pending(s.arrived, s.packets, i) && !(i == s.packets[k].at && Wants(s.arrived, s.packets[k], i))
  {
    hide Wants, Grantable;
    if Pending(t.arrived, t.packets, i) {
      var l :| 0 <= l < |t.packets| && Wants(t.arrived, t.packets[l], i);
      PassWants(s, k, t, l, i);
    }
    if Pending(s.arrived, s.packets, i) && !(i == s.packets[k].at && Wants(s.arrived, s.packets[k], i)) {
      var m :| 0 <= m < |s.packets| && Wants(s.arrived, s.packets[m], i);
      StillWanted(s, k, t, m, i);
    }
  }

  lemma PassAccounts(s: State, k: nat, t: State)
    requires Accounts(s) && Pendings(s) && Holders(s) && k < |s.packets| && Passes(s, k, t)
    ensures Accounts(t)
  {
    hide Wants, Grantable, Pending, Front;
    var f := s.packets[k];
    if Wants(s.arrived, f, f.at) {
      PendingAlike(s, k, f.at);
      assert Grantable(s.arrived, s.popped, f.at);
      GrantableInside(s.arrived, s.popped, f.at);
    }
    forall i | 0 <= i < |t.grants|
      ensures t.grants[i] == if i < Front(t.arrived, t.popped) && !Pending(t.arrived, t.packets, i) then 1 else 0
    {
      PassPending(s, k, t, i);
    }
  }

  lemma GrantableInside(arrived: seq<Wqe>, popped: nat, i: int)
    requires popped <= |arrived| && Grantable(arrived, popped, i)
    ensures 0 <= i < |arrived| && i < Front(arrived, popped)
  {
  }

  lemma PassHolders(s: State, k: nat, t: State)
    requires Accounts(s) && Pendings(s) && Holders(s) && k < |s.packets| && Passes(s, k, t)
    ensures Holders(t)
  {
    hide Wants, Grantable, Pending, Front;
    var f := s.packets[k];
    if Wants(s.arrived, f, f.at) {
      PendingAlike(s, k, f.at);
    }
    forall i: nat ensures HolderFits(t, i) && WriterFits(t, i) {
      assert HolderFits(s, i) && WriterFits(s, i);
    }
  }

  lemma PassStored(s: State, k: nat)
    requires Stored(s) && Enabled(s, Pass(k))
    ensures Stored(Next(s, Pass(k)))
  {
  }

  // ---- Runs ---------------------------------------------------------------------------

  ghost predicate Possible(s: State, steps: seq<Step>)
    decreases |steps|
  {
    steps == [] || (Enabled(s, steps[0]) && Possible(Next(s, steps[0]), steps[1..]))
  }

  /** No request is stored in a slot that a recirculating packet still has to read. */
  ghost predicate Careful(s: State, steps: seq<Step>)
    decreases |steps|
  {
    steps == []
    || (Enabled(s, steps[0]) && (steps[0].Arrive? ==> Spares(s)) && Careful(Next(s, steps[0]), steps[1..]))
  }

  ghost function After(s: State, steps: seq<Step>): State
    requires Possible(s, steps)
    decreases |steps|
  {
    if steps == [] then s else After(Next(s, steps[0]), steps[1..])
  }

  lemma StepKeeps(s: State, step: Step)
    requires Inv(s) && Enabled(s, step) && (step.Arrive? ==> Spares(s))
    ensures Inv(Next(s, step))
  {
    hide Stored, AllAimed, AllIntact, Pendings, Holders, Departs, LaunchAimed, Passes, Continues, Spares, Next;
    var t := Next(s, step);
    StoredSizes(s);
    match step
    case Arrive(x) =>
      AimedLast(s);
      ArriveStored(s, x);
      ArriveAims(s, x);
      ArriveIntactExactly(s, x);
      ArriveEffect(s, x);
      var free :| Appends(s, x, free, t)
                  && (free <==> if x.op == Shared then Writers(s.arrived[s.popped..]) == [] else s.popped == |s.arrived|);
      ArriveAccounts(s, x, free, t);
      ArrivePendings(s, x, free, t);
      ArriveHolders(s, x, free, t);
    case Depart(i) =>
      ClosedRun(s, i);
      DepartStored(s, i);
      DepartEffect(s, i);
      DepartAims(s, i, t);
      DepartAccounts(s, i, t);
      DepartPendings(s, i, t);
      DepartHolders(s, i, t);
    case Pass(k) =>
      PassStored(s, k);
      PassEffect(s, k);
      PassAims(s, k, t);
      PassAccounts(s, k, t);
      PassPendings(s, k, t);
      PassHolders(s, k, t);
  }

  lemma AimedLast(s: State)
    requires AllAimed(s) && |s.places| == |s.arrived|
    ensures forall k :: 0 <= k < |s.packets| ==> s.packets[k].last < |s.arrived|
  {
    forall k | 0 <= k < |s.packets| ensures s.packets[k].last < |s.arrived| {
      assert Aimed(s.places, s.packets[k]);
    }
  }

  lemma {:induction false} RunKeeps(s: State, steps: seq<Step>)
    requires Careful(s, steps)
    ensures Possible(s, steps)
    ensures Inv(s) ==> Inv(After(s, steps))
    decreases |steps|
  {
    hide Inv, Next, Spares;
    if steps != [] {
      if Inv(s) {
        StepKeeps(s, steps[0]);
      }
      RunKeeps(Next(s, steps[0]), steps[1..]);
    }
  }
}
