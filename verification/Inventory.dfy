/** Counting what the hosts and channels of a world contain. Every packet and every host
    field is worth some number of each `Item`; the protocol invariant is a set of equations
    between these totals. */
module Inventory {
  import opened Messages
  import opened Hosts
  import opened Protocol

  datatype Item =
    | Want(w: Wqe)      // a waiting request
    | Grant(id: Id)     // a grant in flight
    | Rel(id: Id)       // a RELEASE in flight
    | Hold(id: Id)      // an entry of a holder set
    | Note(id: Id)      // a notification in flight
    | Seed(id: Id)      // a first holder named by an unprocessed grant with agent
    | Early(id: Id)     // an early-release mark
    | GrantToken        // the agent role inside a grant
    | HostToken         // the agent role at a host
    | GiveUpToken       // the agent role inside a FREE or TRANSFER
    | Tick              // one counted notification

  function One(b: bool): nat {
    if b then 1 else 0
  }

  function MsgWeight(m: Msg, it: Item): nat {
    match m
    case Acquire(id, op) => One(it == Want(Wqe(id, op)))
    case Notify(id) => One(it == Note(id)) + One(it == Tick)
    case GrantWithAgent(id, mode, transferred, wq) =>
      One(it == Grant(id)) + One(it == Seed(id)) + One(it == GrantToken)
      + One(it == Tick && mode == Shared && !transferred)
      + if it.Want? then multiset(wq)[it.w] else 0
    case GrantWithoutAgent(id) => One(it == Grant(id))
    case Release(id) => One(it == Rel(id))
    case Transfer(next, wq, _, _, ncnt) =>
      One(it == GiveUpToken) + One(it == Want(next))
      + (if it == Tick then ncnt else 0) + (if it.Want? then multiset(wq)[it.w] else 0)
    case Free(_, _, ncnt) =>
      One(it == GiveUpToken) + if it == Tick then ncnt else 0
  }

  function HostWeight(h: Host, it: Item): nat {
    match it
    case Want(w) => multiset(h.wqueue)[w]
    case Hold(id) => One(id in h.holders)
    case Early(id) => One(id in h.early)
    case HostToken => One(h.isAgent)
    case Tick => h.ncnt
    case _ => 0
  }

  function Bag(ms: seq<Msg>, it: Item): nat {
    if ms == [] then 0 else MsgWeight(ms[0], it) + Bag(ms[1..], it)
  }

  function Queues(qs: seq<seq<Msg>>, it: Item): nat {
    if qs == [] then 0 else Bag(qs[0], it) + Queues(qs[1..], it)
  }

  function AllHosts(hs: seq<Host>, it: Item): nat {
    if hs == [] then 0 else HostWeight(hs[0], it) + AllHosts(hs[1..], it)
  }

  /** How much of `it` the world contains. */
  function Total(w: World, it: Item): nat {
    Bag(w.toSwitch, it) + Queues(w.server, it) + Bag(w.client, it) + AllHosts(w.hosts, it)
  }

  // ---- Bags ---------------------------------------------------------------------------

  lemma {:induction false} BagConcat(a: seq<Msg>, b: seq<Msg>, it: Item)
    ensures Bag(a + b, it) == Bag(a, it) + Bag(b, it)
  {
    if a == [] {
      assert a + b == b;
    } else {
      assert (a + b)[1..] == a[1..] + b;
      BagConcat(a[1..], b, it);
    }
  }

  lemma BagSingle(m: Msg, it: Item)
    ensures Bag([m], it) == MsgWeight(m, it)
  {
    assert [m][1..] == [];
  }

  lemma BagRemove(ms: seq<Msg>, i: nat, it: Item)
    requires i < |ms|
    ensures Bag(RemoveAt(ms, i), it) + MsgWeight(ms[i], it) == Bag(ms, it)
  {
    assert ms == ms[..i] + ([ms[i]] + ms[i + 1..]);
    BagConcat(ms[..i], [ms[i]] + ms[i + 1..], it);
    BagConcat([ms[i]], ms[i + 1..], it);
    BagConcat(ms[..i], ms[i + 1..], it);
    BagSingle(ms[i], it);
  }

  lemma BagHas(ms: seq<Msg>, m: Msg, it: Item)
    requires m in ms
    ensures Bag(ms, it) >= MsgWeight(m, it)
  {
    var i :| 0 <= i < |ms| && ms[i] == m;
    BagRemove(ms, i, it);
  }

  lemma {:induction false} BagNone(ms: seq<Msg>, it: Item)
    requires forall m :: m in ms ==> MsgWeight(m, it) == 0
    ensures Bag(ms, it) == 0
  {
    if ms != [] {
      assert ms[0] in ms;
      BagNone(ms[1..], it);
    }
  }

  // ---- Rows of queues and of hosts ----------------------------------------------------

  lemma {:induction false} QueuesUpdate(qs: seq<seq<Msg>>, h: nat, q: seq<Msg>, it: Item)
    requires h < |qs|
    ensures Queues(qs[h := q], it) + Bag(qs[h], it) == Queues(qs, it) + Bag(q, it)
  {
    if h > 0 {
      assert qs[h := q][1..] == qs[1..][h - 1 := q];
      QueuesUpdate(qs[1..], h - 1, q, it);
    } else {
      assert qs[h := q][1..] == qs[1..];
    }
  }

  lemma {:induction false} QueuesHas(qs: seq<seq<Msg>>, h: nat, it: Item)
    requires h < |qs|
    ensures Queues(qs, it) >= Bag(qs[h], it)
  {
    if h > 0 {
      QueuesHas(qs[1..], h - 1, it);
    }
  }

  lemma {:induction false} QueuesNone(qs: seq<seq<Msg>>, it: Item)
    requires forall h :: 0 <= h < |qs| ==> Bag(qs[h], it) == 0
    ensures Queues(qs, it) == 0
  {
    if qs != [] {
      QueuesNone(qs[1..], it);
    }
  }

  lemma {:induction false} HostsUpdate(hs: seq<Host>, h: nat, x: Host, it: Item)
    requires h < |hs|
    ensures AllHosts(hs[h := x], it) + HostWeight(hs[h], it) == AllHosts(hs, it) + HostWeight(x, it)
  {
    if h > 0 {
      assert hs[h := x][1..] == hs[1..][h - 1 := x];
      HostsUpdate(hs[1..], h - 1, x, it);
    } else {
      assert hs[h := x][1..] == hs[1..];
    }
  }

  lemma {:induction false} HostsHas(hs: seq<Host>, h: nat, it: Item)
    requires h < |hs|
    ensures AllHosts(hs, it) >= HostWeight(hs[h], it)
  {
    if h > 0 {
      HostsHas(hs[1..], h - 1, it);
    }
  }

  lemma {:induction false} HostsNone(hs: seq<Host>, it: Item)
    requires forall h :: 0 <= h < |hs| ==> HostWeight(hs[h], it) == 0
    ensures AllHosts(hs, it) == 0
  {
    if hs != [] {
      HostsNone(hs[1..], it);
    }
  }

  /** When one host has all of an item, the total is its share. */
  lemma {:induction false} HostsOnly(hs: seq<Host>, a: nat, it: Item)
    requires a < |hs|
    requires forall h :: 0 <= h < |hs| && h != a ==> HostWeight(hs[h], it) == 0
    ensures AllHosts(hs, it) == HostWeight(hs[a], it)
  {
    if a > 0 {
      HostsOnly(hs[1..], a - 1, it);
    } else {
      HostsNone(hs[1..], it);
    }
  }

  // ---- Items that only hosts have, and items that come in pairs -----------------------

  lemma {:induction false} BagNoHostItem(ms: seq<Msg>, it: Item)
    requires it.Hold? || it.Early? || it.HostToken?
    ensures Bag(ms, it) == 0
  {
    if ms != [] {
      BagNoHostItem(ms[1..], it);
    }
  }

  lemma {:induction false} QueuesNoHostItem(qs: seq<seq<Msg>>, it: Item)
    requires it.Hold? || it.Early? || it.HostToken?
    ensures Queues(qs, it) == 0
  {
    if qs != [] {
      BagNoHostItem(qs[0], it);
      QueuesNoHostItem(qs[1..], it);
    }
  }

  /** `lo` is never in a message without `hi`. */
  predicate Paired(lo: Item, hi: Item) {
    (lo.Seed? && (hi == Grant(lo.id) || hi == GrantToken)) || (lo.Note? && hi == Tick)
  }

  lemma {:induction false} BagPaired(ms: seq<Msg>, lo: Item, hi: Item)
    requires Paired(lo, hi)
    ensures Bag(ms, lo) <= Bag(ms, hi)
  {
    if ms != [] {
      BagPaired(ms[1..], lo, hi);
    }
  }

  lemma {:induction false} QueuesPaired(qs: seq<seq<Msg>>, lo: Item, hi: Item)
    requires Paired(lo, hi)
    ensures Queues(qs, lo) <= Queues(qs, hi)
  {
    if qs != [] {
      BagPaired(qs[0], lo, hi);
      QueuesPaired(qs[1..], lo, hi);
    }
  }

  lemma TotalPaired(w: World, lo: Item, hi: Item)
    requires Paired(lo, hi)
    ensures Total(w, lo) <= Total(w, hi)
  {
    BagPaired(w.toSwitch, lo, hi);
    QueuesPaired(w.server, lo, hi);
    BagPaired(w.client, lo, hi);
    HostsNone(w.hosts, lo);
  }

  /** A host item found at one host only is counted there. */
  lemma HostItemTotal(w: World, a: nat, it: Item)
    requires it.Hold? || it.Early? || it.HostToken?
    requires a < |w.hosts|
    requires forall h :: 0 <= h < |w.hosts| && h != a ==> HostWeight(w.hosts[h], it) == 0
    ensures Total(w, it) == HostWeight(w.hosts[a], it)
  {
    BagNoHostItem(w.toSwitch, it);
    QueuesNoHostItem(w.server, it);
    BagNoHostItem(w.client, it);
    HostsOnly(w.hosts, a, it);
  }
}
