/** Wait queues are served from the front: no writer overtakes a request that is queued before
    it, wherever the queue goes. */
module QueueOrder {
  import opened Messages
  import opened Deciders
  import opened Hosts
  import opened Protocol
  import opened Inventory
  import opened Invariant
  import opened HostSteps
  import opened GrantSteps
  import opened SwitchSteps
  import opened Safety
  import opened GrantOnce
  import opened Outcomes
  import RwLocks

  /** `a` stands before `b`. */
  ghost predicate Precedes(q: seq<Wqe>, a: Wqe, b: Wqe) {
    exists i, j :: 0 <= i < j < |q| && q[i] == a && q[j] == b
  }

  /** The wait queue that a packet carries. */
  function Carried(m: Msg): seq<Wqe> {
    match m
    case Transfer(next, wq, _, _, _) => [next] + wq
    case GrantWithAgent(_, _, _, wq) => wq
    case _ => []
  }

  /** The wait queues of a world: those of the hosts and those in packets. */
  ghost predicate IsQueue(w: World, q: seq<Wqe>) {
    (exists h :: 0 <= h < |w.hosts| && w.hosts[h].wqueue == q) || (exists m :: InFlight(w, m) && Carried(m) == q)
  }

  /** `a` stands before `b` in some wait queue. */
  ghost predicate Ahead(w: World, a: Wqe, b: Wqe) {
    exists q :: IsQueue(w, q) && Precedes(q, a, b)
  }

  ghost predicate InAQueue(w: World, b: Wqe) {
    exists q :: IsQueue(w, q) && b in q
  }

  // ---- Queues -------------------------------------------------------------------------

  lemma PrecedesJoin(q: seq<Wqe>, r: seq<Wqe>, a: Wqe, b: Wqe)
    ensures Precedes(q, a, b) || Precedes(r, a, b) ==> Precedes(q + r, a, b)
  {
    if Precedes(q, a, b) {
      var i, j :| 0 <= i < j < |q| && q[i] == a && q[j] == b;
      assert (q + r)[i] == a && (q + r)[j] == b;
    } else if Precedes(r, a, b) {
      var i, j :| 0 <= i < j < |r| && r[i] == a && r[j] == b;
      assert (q + r)[|q| + i] == a && (q + r)[|q| + j] == b;
    }
  }

  /** Without its front, a queue keeps its order. */
  lemma PrecedesTail(q: seq<Wqe>, a: Wqe, b: Wqe)
    requires Precedes(q, a, b)
    ensures q != [] && b in q[1..] && (a != q[0] ==> Precedes(q[1..], a, b))
  {
    var i, j :| 0 <= i < j < |q| && q[i] == a && q[j] == b;
    assert q[1..][j - 1] == b;
    if i > 0 {
      assert q[1..][i - 1] == a;
    }
  }

  lemma {:induction false} PrecedesWriters(q: seq<Wqe>, a: Wqe, b: Wqe)
    requires Precedes(q, a, b) && b.op == Exclusive
    ensures b in Writers(q) && (a.op == Exclusive ==> Precedes(Writers(q), a, b))
    decreases |q|
  {
    PrecedesTail(q, a, b);
    var rest := Writers(q[1..]);
    RwLocks.PartitionMembers(q[1..], b);
    RwLocks.WritersCons(q[0], q[1..]);
    assert q == [q[0]] + q[1..];
    if a != q[0] {
      PrecedesWriters(q[1..], a, b);
      PrecedesJoin([q[0]], rest, a, b);
    } else if a.op == Exclusive {
      var j :| 0 <= j < |rest| && rest[j] == b;
      assert ([a] + rest)[0] == a && ([a] + rest)[j + 1] == b;
    }
  }

  lemma QueuedWaits(w: World, b: Wqe)
    requires Counted(w) && InAQueue(w, b)
    ensures b.id in w.reqs && w.reqs[b.id] == Request(b.op, Waiting)
  {
    var q :| IsQueue(w, q) && b in q;
    assert WantCounted(w, b);
    if h :| 0 <= h < |w.hosts| && w.hosts[h].wqueue == q {
      HostsHas(w.hosts, h, Want(b));
    } else {
      var m :| InFlight(w, m) && Carried(m) == q;
      TotalHas(w, m, Want(b));
    }
  }

  // ---- Steps --------------------------------------------------------------------------

  /** `b` keeps its place behind `a`, or `a` is served and `b` still waits. */
  ghost predicate InTurn(w: World, a: Wqe, b: Wqe) {
    Ahead(w, a, b) || (Served(w, a.id) && InAQueue(w, b))
  }

  /** A queue that lives on in another one, whole or without its served front. */
  lemma LivesOn(w': World, q: seq<Wqe>, r: seq<Wqe>, a: Wqe, b: Wqe)
    requires Precedes(q, a, b) && IsQueue(w', r)
    requires r == q || exists c, d :: r == c + q + d
    ensures InTurn(w', a, b)
  {
    if r != q {
      var c, d :| r == c + q + d;
      PrecedesJoin(c, q, a, b);
      PrecedesJoin(c + q, d, a, b);
    }
  }

  /** What host `h` did with its queue: appended to it, or sent it off in a packet. */
  ghost predicate QueueKept(w: World, w': World, h: nat)
    requires h < |w.hosts| == |w'.hosts|
  {
    var q, r := w.hosts[h].wqueue, w'.hosts[h].wqueue;
    (q <= r) || IsQueue(w', q)
  }

  /** A step that keeps all queues of hosts, and all packets but `m`. */
  ghost predicate OthersKept(w: World, w': World, m: Msg) {
    && |w'.hosts| == |w.hosts|
    && (forall h :: 0 <= h < |w.hosts| ==> QueueKept(w, w', h))
    && (forall x :: InFlight(w, x) && Carried(x) != [] ==> x == m || InFlight(w', x))
  }

  lemma OthersInTurn(w: World, w': World, m: Msg, a: Wqe, b: Wqe)
    requires Ahead(w, a, b) && OthersKept(w, w', m)
    ensures InTurn(w', a, b) || (InFlight(w, m) && Precedes(Carried(m), a, b))
  {
    hide InFlight, Carried;
    var q :| IsQueue(w, q) && Precedes(q, a, b);
    if h :| 0 <= h < |w.hosts| && w.hosts[h].wqueue == q {
      assert QueueKept(w, w', h);
      var r := w'.hosts[h].wqueue;
      if q <= r {
        assert r == [] + q + r[|q|..];
        assert IsQueue(w', r);
        LivesOn(w', q, r, a, b);
      } else {
        LivesOn(w', q, q, a, b);
      }
    } else {
      var x :| InFlight(w, x) && Carried(x) == q;
      if x != m {
        assert IsQueue(w', q);
        LivesOn(w', q, q, a, b);
      }
    }
  }

  const NO_PACKET := Free(Shared, 0, 0)

  lemma RequestInTurn(w: World, r: Id, op: Mode, a: Wqe, b: Wqe)
    requires Ahead(w, a, b) && Enabled(w, RequestLock(r, op))
    ensures InTurn(AfterRequest(w, r, op), a, b)
  {
    hide Ahead, InTurn;
    assert OthersKept(w, AfterRequest(w, r, op), NO_PACKET);
    OthersInTurn(w, AfterRequest(w, r, op), NO_PACKET, a, b);
  }

  /** The queue that leaves in the packet of host `h` is the one it had. */
  lemma SentOff(w: World, w': World, h: nat, x: Host)
    requires h < |w.hosts| && x.wqueue == w.hosts[h].wqueue && GiveUpIfIdle(x, h).send != []
    requires w'.toSwitch == w.toSwitch + GiveUpIfIdle(x, h).send
    ensures x.wqueue == [] || IsQueue(w', x.wqueue)
  {
    var m := GiveUpIfIdle(x, h).send[0];
    assert m in w'.toSwitch;
    assert x.wqueue != [] ==> Carried(m) == x.wqueue;
  }

  lemma UnlockInTurn(w: World, r: Id, a: Wqe, b: Wqe)
    requires Ahead(w, a, b) && Enabled(w, Unlock(r))
    ensures InTurn(AfterUnlock(w, r), a, b)
  {
    hide Ahead, InTurn, IsQueue;
    var w', h := AfterUnlock(w, r), w.hosts[r.host];
    if h.isAgent {
      var x := if r in h.holders then h.(holders := h.holders - {r}) else h.(early := h.early + {r});
      if GiveUpIfIdle(x, r.host).send != [] {
        SentOff(w, w', r.host, x);
      }
    }
    assert OthersKept(w, w', NO_PACKET);
    OthersInTurn(w, w', NO_PACKET, a, b);
  }

  /** At the switch, only an accepted TRANSFER changes a queue: its front is served. */
  lemma SwitchInTurn(w: World, i: nat, a: Wqe, b: Wqe)
    requires Inv(w) && Ahead(w, a, b) && i < |w.toSwitch|
    ensures InTurn(AfterSwitch(w, i), a, b)
  {
    hide Ahead, InTurn, IsQueue, PostAll, Inv, Carried;
    var m, w' := w.toSwitch[i], AfterSwitch(w, i);
    Posted(w, i);
    forall x | InFlight(w, x) && x != m ensures InFlight(w', x) {
      SwitchKeeps(w, i, x);
    }
    assert OthersKept(w, w', m);
    OthersInTurn(w, w', m, a, b);
    if !InTurn(w', a, b) {
      SwitchMoves(w, i, a, b);
    }
  }

  /** The switch takes one packet off its channel and loses none. */
  lemma SwitchKeeps(w: World, i: nat, x: Msg)
    requires i < |w.toSwitch| && InFlight(w, x) && x != w.toSwitch[i]
    ensures InFlight(AfterSwitch(w, i), x)
  {
    hide PostAll, Decide;
    Posted(w, i);
    var w' := AfterSwitch(w, i);
    if x in w.toSwitch {
      var j :| 0 <= j < |w.toSwitch| && w.toSwitch[j] == x;
      assert RemoveAt(w.toSwitch, i)[if j < i then j else j - 1] == x;
    } else if x !in w.client {
      var h :| 0 <= h < |w.server| && x in w.server[h];
      assert w.server[h] <= w'.server[h];
    }
  }

  lemma SwitchMoves(w: World, i: nat, a: Wqe, b: Wqe)
    requires Inv(w) && i < |w.toSwitch| && Precedes(Carried(w.toSwitch[i]), a, b)
    ensures InTurn(AfterSwitch(w, i), a, b)
  {
    hide PostAll, Total;
    var m, w' := w.toSwitch[i], AfterSwitch(w, i);
    Posted(w, i);
    assert SwitchMsg(m, w.decider);
    GiveUpFinds(w, i, m);
    if Refused(w.decider, m) {
      assert m in w'.server[m.from];
      assert IsQueue(w', Carried(m));
    } else {
      var g := GrantWithAgent(m.next.id, m.next.op, true, m.wq);
      assert g in w'.client;
      assert IsQueue(w', Carried(g));
      PrecedesTail(Carried(m), a, b);
      if a == m.next {
        ReachingTotal(w, i, m, Want(m.next));
        assert WantCounted(w, m.next);
      }
    }
  }

  /** At a server port, a queue leaves with the lock or comes back with a refused TRANSFER. */
  lemma ServerInTurn(w: World, h: nat, a: Wqe, b: Wqe)
    requires Inv(w) && Ahead(w, a, b) && Enabled(w, ServerReceives(h))
    ensures InTurn(AfterServer(w, h), a, b)
  {
    hide Ahead, InTurn, IsQueue, Inv, Carried;
    var m, w', x := w.server[h][0], AfterServer(w, h), w.hosts[h];
    assert !m.GrantWithAgent? && (m.Release? ==> m.id in x.holders) by { ServerFinds(w, h); }
    if m.Release? && x.isAgent {
      var y := x.(holders := x.holders - {m.id});
      if GiveUpIfIdle(y, h).send != [] {
        SentOff(w, w', h, y);
      }
    }
    forall y | InFlight(w, y) && y != m ensures InFlight(w', y) {
      ServerKeepsOthers(w, h, y);
    }
    assert QueueKept(w, w', h);
    assert OthersKept(w, w', m);
    OthersInTurn(w, w', m, a, b);
    if !InTurn(w', a, b) {
      ServerMoves(w, h, a, b);
    }
  }

  lemma ServerKeepsOthers(w: World, h: nat, x: Msg)
    requires Enabled(w, ServerReceives(h)) && InFlight(w, x) && x != w.server[h][0]
    ensures InFlight(AfterServer(w, h), x)
  {
    hide OnPacket;
    var w' := AfterServer(w, h);
    if x !in w.toSwitch && x !in w.client {
      var k :| 0 <= k < |w.server| && x in w.server[k];
      if k == h {
        assert w.server[h] == [w.server[h][0]] + w.server[h][1..];
      }
      assert x in w'.server[k];
    }
  }

  lemma ServerFinds(w: World, h: nat)
    requires Inv(w) && Enabled(w, ServerReceives(h))
    ensures var m := w.server[h][0]; !m.GrantWithAgent? && (m.Release? ==> m.id in w.hosts[h].holders)
  {
    PopServerStructure(w, h);
    if w.server[h][0].Release? {
      ReleaseFindsHolder(w, h, w.server[h][0].id);
    }
  }

  lemma ServerMoves(w: World, h: nat, a: Wqe, b: Wqe)
    requires Inv(w) && Enabled(w, ServerReceives(h)) && Precedes(Carried(w.server[h][0]), a, b)
    ensures InTurn(AfterServer(w, h), a, b)
  {
    hide Total, Inv;
    var m, w', x := w.server[h][0], AfterServer(w, h), w.hosts[h];
    ServerFinds(w, h);
    if x.delayedFree && x.holders == {} {
      var n := Transfer(m.next, m.wq, m.oldMode, m.from, (m.ncnt + x.ncnt) % 256);
      assert n in w'.toSwitch;
      assert IsQueue(w', Carried(n));
    } else {
      var r := w'.hosts[h].wqueue;
      assert r == x.wqueue + Carried(m) + [];
      assert IsQueue(w', r);
      LivesOn(w', Carried(m), r, a, b);
    }
  }

  /** A new agent takes the queue over, and under a reader serves its readers. */
  lemma ClientInTurn(w: World, i: nat, a: Wqe, b: Wqe)
    requires Inv(w) && Ahead(w, a, b) && Enabled(w, ClientReceives(i)) && b.op == Exclusive
    ensures InTurn(AfterClient(w, i), a, b)
  {
    hide Ahead, InTurn, IsQueue, Inv, Carried;
    var m, w' := w.client[i], AfterClient(w, i);
    assert OthersKept(w, w', m);
    OthersInTurn(w, w', m, a, b);
    if !InTurn(w', a, b) {
      ClientMoves(w, i, a, b);
    }
  }

  lemma ClientMoves(w: World, i: nat, a: Wqe, b: Wqe)
    requires Inv(w) && Enabled(w, ClientReceives(i)) && b.op == Exclusive && Precedes(Carried(w.client[i]), a, b)
    ensures InTurn(AfterClient(w, i), a, b)
  {
    hide Total, Inv;
    var m, w' := w.client[i], AfterClient(w, i);
    var r := w'.hosts[m.id.host].wqueue;
    assert m.transferred by { ClientKind(w, i); }
    assert IsQueue(w', r);
    if m.mode == Shared {
      PrecedesWriters(m.wq, a, b);
      assert r == w.hosts[m.id.host].wqueue + Writers(m.wq) + [];
      if a.op == Exclusive {
        LivesOn(w', Writers(m.wq), r, a, b);
      } else {
        assert b in r;
        ReaderServed(w, i, m, a);
      }
    } else {
      assert r == w.hosts[m.id.host].wqueue + m.wq + [];
      LivesOn(w', m.wq, r, a, b);
    }
  }

  lemma ClientKind(w: World, i: nat)
    requires Inv(w) && Enabled(w, ClientReceives(i)) && Carried(w.client[i]) != []
    ensures w.client[i].GrantWithAgent? && w.client[i].transferred
  {
    PopClientStructure(w, i);
  }

  lemma ReaderServed(w: World, i: nat, m: Msg, a: Wqe)
    requires Inv(w) && Comes(w, i, m) && m.GrantWithAgent? && m.transferred && m.mode == Shared
    requires a in m.wq && a.op == Shared
    ensures Served(AfterClient(w, i), a.id)
  {
    assert a == Wqe(a.id, Shared);
    ReadersWait(w, i, m, a.id);
  }

  /** One step: `b` is not served, and stays behind `a` unless `a` is served. */
  lemma StepInTurn(w: World, s: Step, a: Wqe, b: Wqe)
    requires Inv(w) && Ahead(w, a, b) && b.op == Exclusive && Enabled(w, s) && Inv(Next(w, s))
    ensures InTurn(Next(w, s), a, b) && !Served(Next(w, s), b.id)
  {
    hide Inv, Ahead, InTurn;
    match s {
      case RequestLock(r, op) => RequestInTurn(w, r, op, a, b);
      case Unlock(r) => UnlockInTurn(w, r, a, b);
      case SwitchReceives(i) => SwitchInTurn(w, i, a, b);
      case ServerReceives(h) => ServerInTurn(w, h, a, b);
      case ClientReceives(i) => ClientInTurn(w, i, a, b);
    }
    InTurnWaits(Next(w, s), a, b);
  }

  lemma InTurnWaits(w: World, a: Wqe, b: Wqe)
    requires Inv(w) && InTurn(w, a, b)
    ensures !Served(w, b.id)
  {
    hide Total;
    if Ahead(w, a, b) {
      var q :| IsQueue(w, q) && Precedes(q, a, b);
      assert b in q;
    }
    QueuedWaits(w, b);
  }

  // ---- Runs ---------------------------------------------------------------------------

  /** A served request stays served. */
  lemma StaysServed(w: World, s: Step, id: Id)
    requires Inv(w) && Enabled(w, s) && Served(w, id)
    ensures Served(Next(w, s), id)
  {
    hide Issues;
    StepBalances(w, s, id);
  }

  lemma {:induction false} RunInTurn(w: World, steps: seq<Step>, a: Wqe, b: Wqe)
    requires Legal(w, steps)
    ensures Runs(w, steps)
    ensures Inv(w) && b.op == Exclusive && (Ahead(w, a, b) || Served(w, a.id)) ==>
              (Ahead(End(w, steps), a, b) && !Served(End(w, steps), b.id)) || Served(End(w, steps), a.id)
    decreases |steps|
  {
    hide Inv, Next, Enabled, Ahead;
    if Inv(w) && b.op == Exclusive && (Ahead(w, a, b) || Served(w, a.id)) {
      if steps == [] {
        if Ahead(w, a, b) {
          InTurnWaits(w, a, b);
        }
      } else {
        StepKeeps(w, steps[0]);
        if Served(w, a.id) {
          StaysServed(w, steps[0], a.id);
        } else {
          StepInTurn(w, steps[0], a, b);
        }
      }
    }
    if steps != [] {
      RunInTurn(Next(w, steps[0]), steps[1..], a, b);
    }
  }

  /** No writer overtakes a request that stands before it in a wait queue, at a host or in a
      packet, through hand-overs, refusals and digests: whatever happens, the writer is granted
      only after that request. */
  lemma FirstQueuedFirst(w: World, steps: seq<Step>, a: Wqe, b: Wqe)
    requires Reached(w) && Legal(w, steps) && Ahead(w, a, b) && b.op == Exclusive
    ensures Runs(w, steps) && (Served(End(w, steps), b.id) ==> Served(End(w, steps), a.id))
  {
    ReachedInv(w);
    RunInTurn(w, steps, a, b);
  }

  /** Not even one step takes the writer to a grant: the request before it comes first. */
  lemma FirstGoesAlone(w: World, s: Step, a: Wqe, b: Wqe)
    requires Reached(w) && Enabled(w, s) && Unwrapped(w, s) && Ahead(w, a, b) && b.op == Exclusive
    ensures !Served(Next(w, s), b.id) && (Ahead(Next(w, s), a, b) || Served(Next(w, s), a.id))
  {
    ReachedInv(w);
    hide Inv, Ahead;
    StepKeeps(w, s);
    StepInTurn(w, s, a, b);
  }
}
