/** The register arrays of NetLock's switch program and the passes of a packet over them
    (baseline/NetLock/switch/p4/ingress.p4), for any number of locks that share the slot
    registers. The parallel slot registers for address, mode, client and transaction are one
    array of requests. */
module NetLockSwitches {
  import opened Messages
  import opened NetLockRings

  /** The registers as values. */
  datatype File = File(left: seq<nat>, right: seq<nat>, head: seq<nat>, tail: seq<nat>,
                       sides: seq<(nat, int)>, counts: seq<(int, int)>, slots: seq<Wqe>)

  predicate Sized(f: File) {
    |f.left| == |f.right| == |f.head| == |f.tail| == |f.sides| == |f.counts|
  }

  function RingAt(f: File, l: nat): Ring
    requires Sized(f) && l < |f.left|
  {
    Ring(f.left[l], f.right[l], f.head[l], f.tail[l], f.sides[l].0, f.sides[l].1,
         f.counts[l].0, f.counts[l].1, f.slots)
  }

  /** The file with the ring of lock `l` replaced. */
  function WithRing(f: File, l: nat, r: Ring): File
    requires Sized(f) && l < |f.left|
  {
    f.(head := f.head[l := r.head], tail := f.tail[l := r.tail], sides := f.sides[l := (r.empty, r.spilled)],
       counts := f.counts[l := (r.exclusive, r.shared)], slots := r.slots)
  }

  /** Every lock has a ring of its own in the slot registers. */
  ghost predicate Wired(f: File)
    requires Sized(f)
  {
    && (forall l :: 0 <= l < |f.left| ==> Shaped(RingAt(f, l)))
    && (forall k, l :: 0 <= k < l < |f.left| ==> Apart(f, k, l))
  }

  predicate Apart(f: File, k: nat, l: nat)
    requires k < |f.left| == |f.right| && l < |f.left|
  {
    f.right[k] < f.left[l] || f.right[l] < f.left[k]
  }

  lemma WiredShaped(f: File, l: nat)
    requires Sized(f) && Wired(f) && l < |f.left|
    ensures Shaped(RingAt(f, l))
  {
  }

  /** The queue of lock `k` is the same in both files. */
  ghost predicate SameQueue(f: File, g: File, k: nat)
    requires Sized(f) && Sized(g) && k < |f.left| && k < |g.left|
  {
    && Shaped(RingAt(f, k)) && Shaped(RingAt(g, k)) && RingAt(g, k) == RingAt(f, k).(slots := g.slots)
    && Queue(RingAt(g, k)) == Queue(RingAt(f, k))
  }

  /** A packet for lock `l` leaves the queues of the other locks alone. */
  ghost predicate OthersUnchanged(f: File, g: File, l: nat) {
    && Sized(f) && Sized(g) && |g.left| == |f.left|
    && forall k :: 0 <= k < |f.left| && k != l ==> SameQueue(f, g, k)
  }

  /** Ring `s` is ring `r` after a change of its registers and of at most one of its slots. */
  ghost predicate Local(r: Ring, s: Ring, p: nat) {
    && Shaped(r) && Shaped(s) && s.left == r.left && s.right == r.right && |s.slots| == |r.slots|
    && r.left <= p <= r.right
    && (forall q :: 0 <= q < |r.slots| && q != p ==> s.slots[q] == r.slots[q])
  }

  lemma LocalChange(f: File, l: nat, s: Ring, p: nat)
    requires Sized(f) && Wired(f) && l < |f.left| && Local(RingAt(f, l), s, p)
    ensures var g := WithRing(f, l, s);
            Sized(g) && Wired(g) && OthersUnchanged(f, g, l) && RingAt(g, l) == s
  {
    var g := WithRing(f, l, s);
    forall k | 0 <= k < |f.left| && k != l ensures SameQueue(f, g, k) {
      assert if k < l then Apart(f, k, l) else Apart(f, l, k);
      assert Shaped(RingAt(f, k));
      OtherSlots(RingAt(f, k), g.slots);
    }
    forall k | 0 <= k < |g.left| ensures Shaped(RingAt(g, k)) {
      assert k != l ==> SameQueue(f, g, k);
    }
    forall k, m | 0 <= k < m < |g.left| ensures Apart(g, k, m) {
      assert Apart(f, k, m);
    }
  }

  /** What a packet does to the ring of its lock, it does to no other ring. */
  lemma AcquireIsLocal(f: File, l: nat, x: Wqe, pushBack: bool)
    requires Sized(f) && Wired(f) && l < |f.left|
    ensures Shaped(RingAt(f, l)) && Next(RingAt(f, l), f.tail[l]) < |f.slots|
    ensures var s := (if pushBack then PushedBack(RingAt(f, l), x) else Acquired(RingAt(f, l), x)).0;
            var g := WithRing(f, l, s);
            Sized(g) && Wired(g) && OthersUnchanged(f, g, l) && RingAt(g, l) == s
  {
    hide Wired, OthersUnchanged;
    WiredShaped(f, l);
    var r := RingAt(f, l);
    LocalChange(f, l, (if pushBack then PushedBack(r, x) else Acquired(r, x)).0, Next(r, r.tail));
  }

  lemma ReleaseIsLocal(f: File, l: nat, mode: Mode)
    requires Sized(f) && Wired(f) && l < |f.left|
    ensures Shaped(RingAt(f, l)) && f.left[l] <= f.right[l] && Next(RingAt(f, l), f.head[l]) < |f.slots|
    ensures var s := Released(RingAt(f, l), mode).0;
            var g := WithRing(f, l, s);
            Sized(g) && Wired(g) && OthersUnchanged(f, g, l) && RingAt(g, l) == s
  {
    hide Wired, OthersUnchanged;
    WiredShaped(f, l);
    LocalChange(f, l, Released(RingAt(f, l), mode).0, f.head[l]);
  }

  class Registers {
    const left: array<nat>
    const right: array<nat>
    const head: array<nat>
    const tail: array<nat>
    const slotsTwoSides: array<(nat, int)>   // empty slots, length in server
    const counts: array<(int, int)>          // exclusive, shared
    const slots: array<Wqe>

    ghost function Values(): File
      reads this, left, right, head, tail, slotsTwoSides, counts, slots
    {
      File(left[..], right[..], head[..], tail[..], slotsTwoSides[..], counts[..], slots[..])
    }

    ghost predicate Valid()
      reads this, left, right, head, tail, slotsTwoSides, counts, slots
    {
      && left != right && left != head && left != tail && right != head && right != tail && head != tail
      && Sized(Values()) && Wired(Values())
    }

    /** Unsigned registers. */
    ghost predicate Unsigned(l: nat)
      reads this, left, right, head, tail, slotsTwoSides, counts, slots
      requires Valid() && l < left.Length
    {
      counts[l].0 >= 0 && counts[l].1 >= 0 && slotsTwoSides[l].1 >= 0
    }

    /** The action on the slot register: the length in the server as the packet sees it. */
    method TakeSlot(l: nat, pushBack: bool) returns (lengthInServer: int)
      requires l < slotsTwoSides.Length
      modifies slotsTwoSides
      ensures var (lo, hi) := old(slotsTwoSides[l]);
              slotsTwoSides[..] == old(slotsTwoSides[..])[l :=
                if pushBack then (if lo > 0 then lo - 1 else lo, hi - 1)
                else if lo > 0 && hi == 0 then (lo - 1, hi)
                else (lo, hi + 1)]
              && lengthInServer == if pushBack || (lo > 0 && hi == 0) then 0 else hi + 1
    {
      lengthInServer := 0;
      var (lo, hi) := slotsTwoSides[l];
      if pushBack {
        slotsTwoSides[l] := (if lo > 0 then lo - 1 else lo, hi - 1);
      } else {
        if lo > 0 && hi == 0 {
          lo := lo - 1;
        } else {
          hi := hi + 1;
        }
        slotsTwoSides[l] := (lo, hi);
        lengthInServer := hi;
      }
    }

    /** The action on the count register: non-zero if the request must wait. */
    method CountRequest(l: nat, op: Mode) returns (locked: int)
      requires l < counts.Length && counts[l].0 >= 0 && counts[l].1 >= 0
      modifies counts
      ensures var (exclusive, shared) := old(counts[l]);
              counts[..] == old(counts[..])[l := if op == Shared then (exclusive, shared + 1) else (exclusive + 1, shared)]
              && (locked == 0 <==> if op == Shared then exclusive <= 0 else exclusive <= 0 && shared <= 0)
    {
      var (exclusive, shared) := counts[l];
      if op == Shared {
        counts[l] := (exclusive, shared + 1);
        locked := if exclusive > 0 then shared + 1 else 0;
      } else {
        counts[l] := (exclusive + 1, shared);
        locked := if exclusive > 0 || shared > 0 then 1 else 0;
      }
    }

    /** Move the head or the tail one step around the ring. */
    method Advance(reg: array<nat>, l: nat, leftBound: nat, rightBound: nat) returns (p: nat)
      requires l < reg.Length
      modifies reg
      ensures p == (if old(reg[l]) == rightBound then leftBound else old(reg[l]) + 1)
      ensures reg[..] == old(reg[..])[l := p]
    {
      p := if reg[l] == rightBound then leftBound else reg[l] + 1;
      reg[l] := p;
    }

    method Store(p: nat, x: Wqe)
      requires p < slots.Length
      modifies slots
      ensures slots[..] == old(slots[..])[p := x]
    {
      slots[p] := x;
    }

    /** Give a slot back; the number of empty slots before. */
    method ReturnSlot(l: nat, size: int) returns (before: nat)
      requires l < slotsTwoSides.Length
      modifies slotsTwoSides
      ensures before == old(slotsTwoSides[l]).0
      ensures slotsTwoSides[..]
           == old(slotsTwoSides[..])[l := (if before <= size then before + 1 else before, old(slotsTwoSides[l]).1)]
    {
      before := slotsTwoSides[l].0;
      if before <= size {
        slotsTwoSides[l] := (before + 1, slotsTwoSides[l].1);
      }
    }

    method Uncount(l: nat, mode: Mode)
      requires l < counts.Length
      modifies counts
      ensures var (exclusive, shared) := old(counts[l]);
              counts[..] == old(counts[..])[l := if mode == Exclusive then (exclusive - 1, shared) else (exclusive, shared - 1)]
    {
      var (exclusive, shared) := counts[l];
      counts[l] := if mode == Exclusive then (exclusive - 1, shared) else (exclusive, shared - 1);
    }

    /** ACQUIRE_LOCK and PUSH_BACK_LOCK. */
    method AcquireLock(l: nat, x: Wqe, pushBack: bool) returns (v: Verdict)
      requires Valid() && l < left.Length && Unsigned(l)
      modifies tail, slotsTwoSides, counts, slots
      ensures Valid() && OthersUnchanged(old(Values()), Values(), l)
      ensures Shaped(RingAt(old(Values()), l))
      ensures (RingAt(Values(), l), v)
              == if pushBack then PushedBack(RingAt(old(Values()), l), x) else Acquired(RingAt(old(Values()), l), x)
    {
      hide Wired, OthersUnchanged, Shaped;
      ghost var f := Values();
      ghost var r := RingAt(f, l);
      AcquireIsLocal(f, l, x, pushBack);
      var lengthInServer := TakeSlot(l, pushBack);
      if lengthInServer != 0 {
        v := Spilled;
      } else {
        var locked := CountRequest(l, x.op);
        var p := Advance(tail, l, left[l], right[l]);
        Store(p, x);
        v := Queued(locked == 0);
      }
      ghost var s := (if pushBack then PushedBack(r, x) else Acquired(r, x)).0;
      assert Values() == WithRing(f, l, s);
    }

    /** First pass of RELEASE_LOCK. */
    method ReleasePass(l: nat, mode: Mode) returns (fate: Fate)
      requires Valid() && l < left.Length
      modifies head, slotsTwoSides, counts
      ensures Valid() && OthersUnchanged(old(Values()), Values(), l)
      ensures Shaped(RingAt(old(Values()), l)) && Values().slots == old(Values().slots)
      ensures (RingAt(Values(), l), fate) == Released(RingAt(old(Values()), l), mode)
    {
      hide Wired, OthersUnchanged, Shaped;
      ghost var f := Values();
      ghost var r := RingAt(f, l);
      ReleaseIsLocal(f, l, mode);
      var size := right[l] - left[l];
      var before := ReturnSlot(l, size);
      var p := Advance(head, l, left[l], right[l]);
      Uncount(l, mode);
      if before == size {
        fate := AskServer;
      } else if p != tail[l] {
        fate := Again(Header(1, if p == right[l] then left[l] else p + 1, tail[l], slots[p].op));
      } else {
        fate := Dropped;
      }
      ghost var s := Released(r, mode).0;
      assert Values() == WithRing(f, l, s);
    }

    /** A later pass. */
    method RecirculatedPass(l: nat, h: Header) returns (granted: seq<Wqe>, fate: Fate)
      requires Valid() && l < left.Length && h.curHead < slots.Length
      ensures (granted, fate) == Recirculated(slots[..], left[l], right[l], h)
    {
      var x := slots[h.curHead];
      granted, fate := [], Dropped;
      if (h.flag == 1 && (h.dequeued == Exclusive || x.op == Exclusive)) || (h.flag == 2 && x.op == Shared) {
        granted := [x];
        if h.curHead != h.curTail && ((h.flag == 1 && x.op == Shared) || h.flag == 2) {
          var next := if h.curHead == right[l] then left[l] else h.curHead + 1;
          fate := Again(Header(2, next, h.curTail, h.dequeued));
        }
      }
    }

    /** A release with all its recirculations: the head leaves the queue, and unless readers
        remain of its run, the new leading run is granted, in order. The recirculation ends:
        the distance to the tail shrinks. */
    method ReleaseLock(l: nat, mode: Mode) returns (grants: seq<Wqe>, toServer: bool)
      requires Valid() && l < left.Length
      requires Consistent(RingAt(Values(), l))
      requires Queue(RingAt(Values(), l)) != [] && Queue(RingAt(Values(), l))[0].op == mode
      modifies head, slotsTwoSides, counts
      ensures Valid() && OthersUnchanged(old(Values()), Values(), l)
      ensures Consistent(RingAt(Values(), l))
      ensures var q := Queue(RingAt(old(Values()), l));
              && Queue(RingAt(Values(), l)) == q[1..] && toServer == (|q| == 1)
              && grants == NewGrants(mode, q[1..])
    {
      hide Wired, OthersUnchanged, Consistent, Queue, RunLength, Released, Recirculated;
      ReleasePops(RingAt(Values(), l), mode);
      var fate := ReleasePass(l, mode);
      toServer := fate == AskServer;
      ghost var ring := RingAt(Values(), l);
      grants := Recirculate(l, fate, ring, mode);
    }

    /** The recirculation of a release that took a request of mode `dequeued` off the queue. */
    method Recirculate(l: nat, first: Fate, ghost ring: Ring, ghost dequeued: Mode) returns (grants: seq<Wqe>)
      requires Valid() && l < left.Length && ring == RingAt(Values(), l) && Shaped(ring)
      requires if Queue(ring) == [] then !first.Again?
               else first == Again(Header(1, Slot(ring, 1), Slot(ring, |Queue(ring)|), dequeued))
      ensures grants == NewGrants(dequeued, Queue(ring))
    {
      hide Wired, Queue, RunLength, Recirculated, NewGrants;
      ghost var q := Queue(ring);
      grants := [];
      var fate := first;
      ghost var at := 0;
      FirstPass(ring, q, first, dequeued);
      while fate.Again?
        invariant fate.Again? ==> Circles(ring, q, fate.header, at, dequeued) && grants == q[..at]
        invariant !fate.Again? ==> grants == NewGrants(dequeued, q)
        decreases if fate.Again? then |q| - at else 0
      {
        PassEnds(ring, q, fate.header, at, dequeued);
        var granted;
        granted, fate := RecirculatedPass(l, fate.header);
        grants, at := grants + granted, at + 1;
      }
    }
  }

  /** The grants due once a request of mode `dequeued` left the queue: the new leading run,
      unless it is the rest of a run of readers. */
  function NewGrants(dequeued: Mode, q: seq<Wqe>): seq<Wqe> {
    if q != [] && dequeued == q[0].op == Shared then [] else q[..RunLength(q)]
  }

  /** The recirculating packet is at queued request `at`, all earlier ones being granted. */
  ghost predicate Circles(ring: Ring, q: seq<Wqe>, h: Header, at: nat, dequeued: Mode) {
    && Shaped(ring) && q == Queue(ring) && at < |q|
    && h.curHead == Slot(ring, at + 1) && h.curTail == Slot(ring, |q|) && h.dequeued == dequeued
    && if at == 0 then h.flag == 1
       else h.flag == 2 && dequeued == Exclusive && q[0].op == Shared && at <= LeadingReaders(q)
  }

  lemma FirstPass(ring: Ring, q: seq<Wqe>, first: Fate, dequeued: Mode)
    requires Shaped(ring) && q == Queue(ring)
    requires if q == [] then !first.Again? else first == Again(Header(1, Slot(ring, 1), Slot(ring, |q|), dequeued))
    ensures if q == [] then NewGrants(dequeued, q) == [] else Circles(ring, q, first.header, 0, dequeued)
  {
  }

  lemma PassEnds(ring: Ring, q: seq<Wqe>, h: Header, at: nat, dequeued: Mode)
    requires Circles(ring, q, h, at, dequeued)
    ensures h.curHead < |ring.slots|
    ensures var (granted, next) := Recirculated(ring.slots, ring.left, ring.right, h);
            if next.Again? then Circles(ring, q, next.header, at + 1, dequeued) && q[..at] + granted == q[..at + 1]
            else q[..at] + granted == NewGrants(dequeued, q)
  {
    assert ring.slots[h.curHead] == q[at];
    hide Queue;
    LeadingReadersAre(q);
    var (granted, next) := Recirculated(ring.slots, ring.left, ring.right, h);
    if granted != [] {
      assert q[..at] + granted == q[..at + 1];
    } else {
      assert q[..at] + granted == q[..at];
    }
  }
}
