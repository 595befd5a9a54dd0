/** Requests stand in the order in which they were first queued, as long as no queue comes to
    stand behind requests that were queued after it. */
module ArrivalOrder {
  import opened Messages
  import opened Deciders
  import opened Hosts
  import opened Protocol
  import opened Inventory
  import opened Invariant
  import opened HostSteps
  import opened GrantSteps
  import opened SwitchSteps
  import opened Safety
  import opened Outcomes
  import opened Returns
  import opened QueueOrder
  import opened GrantOnce
  import RwLocks

  // ---- The order of arrival -----------------------------------------------------------

  /** The request that step `s` puts into a host's wait queue for the first time. */
  function Entered(w: World, s: Step): seq<Wqe>
    requires Enabled(w, s)
  {
    match s
    case RequestLock(id, op) =>
      if |AfterRequest(w, id, op).hosts[id.host].wqueue| > |w.hosts[id.host].wqueue| then [Wqe(id, op)] else []
    case ServerReceives(h) =>
      var m := w.server[h][0];
      if m.Acquire? && |AfterServer(w, h).hosts[h].wqueue| > |w.hosts[h].wqueue| then [Wqe(m.id, m.op)] else []
    case _ => []
  }

  /** The requests in the order in which they were first queued. */
  ghost function Arrivals(log: seq<Wqe>, w: World, steps: seq<Step>): seq<Wqe>
    requires Runs(w, steps)
    decreases |steps|
  {
    if steps == [] then log else Arrivals(log + Entered(w, steps[0]), Next(w, steps[0]), steps[1..])
  }

  // ---- Sorted queues ------------------------------------------------------------------

  ghost predicate Distinct(log: seq<Wqe>) {
    forall i, j :: 0 <= i < j < |log| ==> log[i] != log[j]
  }

  /** The queue stands in the order of arrival. */
  ghost predicate Sorted(q: seq<Wqe>, log: seq<Wqe>) {
    forall i, j :: 0 <= i < j < |q| ==> Precedes(log, q[i], q[j])
  }

  lemma PrecedesIn(log: seq<Wqe>, a: Wqe, b: Wqe)
    requires Precedes(log, a, b)
    ensures a in log && b in log
  {
  }

  lemma Asymmetric(log: seq<Wqe>, a: Wqe, b: Wqe)
    requires Distinct(log)
    ensures !(Precedes(log, a, b) && Precedes(log, b, a))
  {
  }

  lemma Transitive(log: seq<Wqe>, a: Wqe, b: Wqe, c: Wqe)
    requires Distinct(log) && Precedes(log, a, b) && Precedes(log, b, c)
    ensures Precedes(log, a, c)
  {
    var i, j :| 0 <= i < j < |log| && log[i] == a && log[j] == b;
    var k, l :| 0 <= k < l < |log| && log[k] == b && log[l] == c;
    assert j == k;
  }

  /** More arrivals leave the order of the earlier ones. */
  lemma LogGrows(log: seq<Wqe>, more: seq<Wqe>, a: Wqe, b: Wqe)
    ensures Precedes(log, a, b) ==> Precedes(log + more, a, b)
    ensures more != [] && a in log && b == more[0] ==> Precedes(log + more, a, b)
  {
    PrecedesJoin(log, more, a, b);
    if more != [] && a in log && b == more[0] {
      var i :| 0 <= i < |log| && log[i] == a;
      assert (log + more)[i] == a && (log + more)[|log|] == b;
    }
  }

  lemma SortedGrows(q: seq<Wqe>, log: seq<Wqe>, more: seq<Wqe>)
    requires Sorted(q, log)
    ensures Sorted(q, log + more)
  {
    forall i, j | 0 <= i < j < |q| ensures Precedes(log + more, q[i], q[j]) {
      LogGrows(log, more, q[i], q[j]);
    }
  }

  lemma SortedAppend(q: seq<Wqe>, log: seq<Wqe>, e: Wqe)
    requires Sorted(q, log) && forall x :: x in q ==> x in log
    ensures Sorted(q + [e], log + [e])
  {
    var r := q + [e];
    forall i, j | 0 <= i < j < |r| ensures Precedes(log + [e], r[i], r[j]) {
      LogGrows(log, [e], r[i], r[j]);
    }
  }

  lemma SortedTail(q: seq<Wqe>, log: seq<Wqe>)
    requires Sorted(q, log) && q != []
    ensures Sorted(q[1..], log)
  {
    forall i, j | 0 <= i < j < |q[1..]| ensures Precedes(log, q[1..][i], q[1..][j]) {
      assert q[1..][i] == q[i + 1] && q[1..][j] == q[j + 1];
    }
  }

  lemma {:induction false} SortedWriters(q: seq<Wqe>, log: seq<Wqe>)
    requires Sorted(q, log)
    ensures Sorted(Writers(q), log) && forall x :: x in Writers(q) ==> x in q
  {
    if q != [] {
      SortedTail(q, log);
      SortedWriters(q[1..], log);
      RwLocks.WritersCons(q[0], q[1..]);
      assert q == [q[0]] + q[1..];
      var r := Writers(q[1..]);
      forall i, j | 0 <= i < j < |[q[0]] + r| ensures Precedes(log, ([q[0]] + r)[i], ([q[0]] + r)[j]) {
        if i == 0 {
          assert r[j - 1] in q[1..];
          var k :| 0 <= k < |q[1..]| && q[1..][k] == r[j - 1];
          assert Precedes(log, q[0], q[k + 1]);
        } else {
          assert Precedes(log, r[i - 1], r[j - 1]);
        }
      }
    }
  }

  /** Two sorted queues, one behind the other, are sorted exactly if they meet in order. */
  ghost predicate Meet(own: seq<Wqe>, incoming: seq<Wqe>, log: seq<Wqe>)  {
    own == [] || incoming == [] || Precedes(log, own[|own| - 1], incoming[0])
  }

  lemma MeetExactly(own: seq<Wqe>, incoming: seq<Wqe>, log: seq<Wqe>)
    requires Distinct(log) && Sorted(own, log) && Sorted(incoming, log)
    ensures Sorted(own + incoming, log) <==> Meet(own, incoming, log)
  {
    var r := own + incoming;
    if Meet(own, incoming, log) {
      forall i, j | 0 <= i < j < |r| ensures Precedes(log, r[i], r[j]) {
        if i < |own| <= j {
          var last, first := own[|own| - 1], incoming[0];
          assert Precedes(log, last, first);
          if i < |own| - 1 {
            assert Precedes(log, own[i], last);
            Transitive(log, own[i], last, first);
          }
          if j > |own| {
            assert Precedes(log, first, incoming[j - |own|]);
            Transitive(log, own[i], first, incoming[j - |own|]);
          }
        }
      }
    }
    if Sorted(r, log) && own != [] && incoming != [] {
      assert r[|own| - 1] == own[|own| - 1] && r[|own|] == incoming[0];
    }
  }

  // ---- What becomes of the queues ------------------------------------------------------

  /** The queue that comes to stand behind a host's own: of a refused TRANSFER, or with the
      agent role. */
  function Incoming(w: World, s: Step): seq<Wqe>
    requires Enabled(w, s)
  {
    match s
    case ServerReceives(h) =>
      if w.server[h][0].GivesUp() && !(w.hosts[h].delayedFree && w.hosts[h].holders == {})
      then Carried(w.server[h][0]) else []
    case ClientReceives(i) =>
      var m := w.client[i];
      if !m.GrantWithAgent? || !m.transferred then []
      else if m.mode == Shared then Writers(m.wq) else m.wq
    case _ => []
  }

  /** The queue of the host that receives it. */
  function Own(w: World, s: Step): seq<Wqe>
    requires Enabled(w, s)
  {
    match s
    case ServerReceives(h) => w.hosts[h].wqueue
    case ClientReceives(i) => w.hosts[w.client[i].id.host].wqueue
    case _ => []
  }

  /** Where queue `r` after step `s` comes from. */
  ghost predicate From(w: World, s: Step, r: seq<Wqe>)
    requires Enabled(w, s)
  {
    || r == [] || IsQueue(w, r)
    || (exists q :: IsQueue(w, q) && Entered(w, s) != [] && r == q + Entered(w, s))
    || (exists q :: IsQueue(w, q) && q != [] && r == q[1..])
    || (Incoming(w, s) != [] && r == Own(w, s) + Incoming(w, s))
  }

  lemma HostQueue(w: World, h: nat)
    requires h < |w.hosts|
    ensures IsQueue(w, w.hosts[h].wqueue)
  {
  }

  /** Queues of hosts and packets that step `s` does not touch. */
  lemma OldQueues(w: World, w': World, s: Step, r: seq<Wqe>)
    requires Enabled(w, s) && IsQueue(w', r) && |w'.hosts| == |w.hosts|
    requires forall h :: 0 <= h < |w.hosts| ==> From(w, s, w'.hosts[h].wqueue)
    requires forall m :: InFlight(w', m) ==> InFlight(w, m) || From(w, s, Carried(m))
    ensures From(w, s, r)
  {
    hide InFlight, Carried, Entered, Incoming, Own;
    if h :| 0 <= h < |w'.hosts| && w'.hosts[h].wqueue == r {
    } else {
      var m :| InFlight(w', m) && Carried(m) == r;
      assert InFlight(w, m) ==> IsQueue(w, Carried(m));
    }
  }

  lemma RequestQueues(w: World, id: Id, op: Mode, r: seq<Wqe>)
    requires Enabled(w, RequestLock(id, op)) && IsQueue(AfterRequest(w, id, op), r)
    ensures From(w, RequestLock(id, op), r)
  {
    var w', s := AfterRequest(w, id, op), RequestLock(id, op);
    forall h | 0 <= h < |w.hosts| ensures From(w, s, w'.hosts[h].wqueue) {
      HostQueue(w, h);
    }
    OldQueues(w, w', s, r);
  }

  lemma UnlockQueues(w: World, id: Id, r: seq<Wqe>)
    requires Enabled(w, Unlock(id)) && IsQueue(AfterUnlock(w, id), r)
    ensures From(w, Unlock(id), r)
  {
    hide ReleaseLock;
    var w', s := AfterUnlock(w, id), Unlock(id);
    HostQueue(w, id.host);
    assert w'.hosts[id.host].wqueue in {[], w.hosts[id.host].wqueue} by { ReleaseQueue(w.hosts[id.host], id.host, id); }
    forall h | 0 <= h < |w.hosts| ensures From(w, s, w'.hosts[h].wqueue) {
      HostQueue(w, h);
    }
    forall x | InFlight(w', x) ensures InFlight(w, x) || From(w, s, Carried(x)) {
      if x in ReleaseLock(w.hosts[id.host], id.host, id).send {
        ReleaseSends(w.hosts[id.host], id.host, id, x);
      }
    }
    OldQueues(w, w', s, r);
  }

  lemma ReleaseQueue(h: Host, self: nat, id: Id)
    ensures ReleaseLock(h, self, id).host.wqueue in {[], h.wqueue}
  {
  }

  lemma ReleaseSends(h: Host, self: nat, id: Id, x: Msg)
    requires x in ReleaseLock(h, self, id).send
    ensures Carried(x) in {[], h.wqueue}
  {
    assert h.wqueue != [] ==> [h.wqueue[0]] + h.wqueue[1..] == h.wqueue;
  }

  lemma SwitchQueues(w: World, i: nat, r: seq<Wqe>)
    requires Enabled(w, SwitchReceives(i)) && IsQueue(AfterSwitch(w, i), r)
    ensures From(w, SwitchReceives(i), r)
  {
    hide AfterSwitch;
    var w', s, m := AfterSwitch(w, i), SwitchReceives(i), w.toSwitch[i];
    assert w'.hosts == w.hosts by { SwitchHosts(w, i); }
    forall h | 0 <= h < |w.hosts| ensures From(w, s, w'.hosts[h].wqueue) {
      HostQueue(w, h);
    }
    assert InFlight(w, m);
    assert IsQueue(w, Carried(m));
    forall x | InFlight(w', x) ensures InFlight(w, x) || From(w, s, Carried(x)) {
      SwitchSendsOff(w, i, x);
      if m.Transfer? {
        assert Carried(m)[1..] == m.wq;
      }
    }
    OldQueues(w, w', s, r);
  }

  lemma SwitchHosts(w: World, i: nat)
    requires i < |w.toSwitch|
    ensures AfterSwitch(w, i).hosts == w.hosts && |AfterSwitch(w, i).server| == |w.server|
  {
    hide PostAll;
    Posted(w, i);
  }

  /** What the switch sends carries no queue, the one it received, or that without its front. */
  lemma SwitchSendsOff(w: World, i: nat, x: Msg)
    requires i < |w.toSwitch| && InFlight(AfterSwitch(w, i), x)
    ensures var m := w.toSwitch[i];
            InFlight(w, x) || Carried(x) == [] || (m.Transfer? && Carried(x) == m.wq)
  {
    hide PostAll;
    Posted(w, i);
  }

  lemma ServerQueues(w: World, h: nat, r: seq<Wqe>)
    requires Enabled(w, ServerReceives(h)) && IsQueue(AfterServer(w, h), r)
    requires !w.server[h][0].GrantWithAgent? && (w.server[h][0].Release? ==> w.server[h][0].id in w.hosts[h].holders)
    ensures From(w, ServerReceives(h), r)
  {
    var w', s, m := AfterServer(w, h), ServerReceives(h), w.server[h][0];
    assert InFlight(w, m);
    assert IsQueue(w, Carried(m));
    HostQueue(w, h);
    ServerHostQueue(w, h);
    forall k | 0 <= k < |w.hosts| ensures From(w, s, w'.hosts[k].wqueue) {
      HostQueue(w, k);
    }
    forall x | InFlight(w', x) ensures InFlight(w, x) || From(w, s, Carried(x)) {
      ServerSends(w, h, x);
    }
    OldQueues(w, w', s, r);
  }

  lemma ServerHostQueue(w: World, h: nat)
    requires Enabled(w, ServerReceives(h))
    requires !w.server[h][0].GrantWithAgent? && (w.server[h][0].Release? ==> w.server[h][0].id in w.hosts[h].holders)
    ensures From(w, ServerReceives(h), AfterServer(w, h).hosts[h].wqueue)
  {
    var m := w.server[h][0];
    HostQueue(w, h);
    if m.Transfer? {
      assert w.hosts[h].wqueue + [m.next] + m.wq == w.hosts[h].wqueue + Carried(m);
    }
  }

  lemma ServerSends(w: World, h: nat, x: Msg)
    requires Enabled(w, ServerReceives(h)) && InFlight(AfterServer(w, h), x)
    requires !w.server[h][0].GrantWithAgent?
    ensures InFlight(w, x) || Carried(x) == [] || Carried(x) == w.hosts[h].wqueue || Carried(x) == Carried(w.server[h][0])
  {
  }

  lemma ClientQueues(w: World, i: nat, r: seq<Wqe>)
    requires Enabled(w, ClientReceives(i)) && IsQueue(AfterClient(w, i), r)
    requires w.client[i].GrantWithAgent? && !w.client[i].transferred ==> w.client[i].wq == []
    ensures From(w, ClientReceives(i), r)
  {
    var w', s, m := AfterClient(w, i), ClientReceives(i), w.client[i];
    forall k | 0 <= k < |w.hosts| ensures From(w, s, w'.hosts[k].wqueue) {
      HostQueue(w, k);
    }
    if m.GrantWithAgent? {
      GrantsOnly(m.wq);
    }
    OldQueues(w, w', s, r);
  }

  lemma StepQueues(w: World, s: Step, r: seq<Wqe>)
    requires Inv(w) && Enabled(w, s) && IsQueue(Next(w, s), r)
    ensures From(w, s, r)
  {
    hide Inv, IsQueue, From;
    match s {
      case RequestLock(id, op) => RequestQueues(w, id, op, r);
      case Unlock(id) => UnlockQueues(w, id, r);
      case SwitchReceives(i) => SwitchQueues(w, i, r);
      case ServerReceives(h) =>
        ServerKinds(w, h);
        ServerQueues(w, h, r);
      case ClientReceives(i) =>
        assert w.client[i].GrantWithAgent? && !w.client[i].transferred ==> w.client[i].wq == [] by { FirstGrantBare(w, i); }
        ClientQueues(w, i, r);
    }
  }

  lemma FirstGrantBare(w: World, i: nat)
    requires Inv(w) && Enabled(w, ClientReceives(i))
    ensures w.client[i].GrantWithAgent? && !w.client[i].transferred ==> w.client[i].wq == []
  {
    PopClientStructure(w, i);
  }

  // ---- The invariant ------------------------------------------------------------------

  /** A logged request is known and on no way to be queued again. */
  ghost predicate Settled(w: World, log: seq<Wqe>, e: Wqe) {
    e in log ==> e.id in w.reqs && !Asking(w, e.id)
  }

  ghost predicate InLog(w: World, log: seq<Wqe>, e: Wqe) {
    InAQueue(w, e) ==> e in log
  }

  /** What a TRANSFER carries was queued before what its sender has queued since. */
  ghost predicate SentBefore(w: World, log: seq<Wqe>, m: Msg) {
    InFlight(w, m) && m.Transfer? && m.from < |w.hosts| ==>
      forall x, y :: x in w.hosts[m.from].wqueue && y in Carried(m) ==> Precedes(log, y, x)
  }

  ghost predicate Logged(w: World, log: seq<Wqe>) {
    && Distinct(log)
    && (forall e :: Settled(w, log, e))
    && (forall e :: InLog(w, log, e))
    && (forall m :: SentBefore(w, log, m))
  }

  /** The request that enters a queue was asking, or is new. */
  lemma EntersFresh(w: World, s: Step)
    requires Enabled(w, s) && Entered(w, s) != []
    ensures |Entered(w, s)| == 1
    ensures var e := Entered(w, s)[0];
            && (e.id !in w.reqs || Asking(w, e.id)) && InAQueue(Next(w, s), e)
            && exists h :: 0 <= h < |Next(w, s).hosts| && e in Next(w, s).hosts[h].wqueue
  {
    match s
    case RequestLock(id, op) =>
      var w' := AfterRequest(w, id, op);
      HostQueue(w', id.host);
      assert Wqe(id, op) in w'.hosts[id.host].wqueue;
    case ServerReceives(h) =>
      var m, w' := w.server[h][0], AfterServer(w, h);
      assert InFlight(w, Acquire(m.id, m.op));
      HostQueue(w', h);
      assert Wqe(m.id, m.op) in w'.hosts[h].wqueue;
    case _ =>
  }

  /** Only a new request starts asking. */
  lemma AsksOn(w: World, s: Step, id: Id)
    requires Inv(w) && Enabled(w, s) && Asking(Next(w, s), id)
    ensures Asking(w, id) || id !in w.reqs
  {
    hide Inv;
    var op :| InFlight(Next(w, s), Acquire(id, op));
    match s
    case RequestLock(r, o) =>
      assert id != r ==> InFlight(w, Acquire(id, op));
    case Unlock(r) =>
      assert InFlight(w, Acquire(id, op));
    case SwitchReceives(i) =>
      SwitchAsks(w, i, id, op);
    case ServerReceives(h) =>
      ServerKinds(w, h);
      ServerAsks(w, h, id, op);
    case ClientReceives(i) =>
      if w.client[i].GrantWithAgent? {
        GrantsOnly(w.client[i].wq);
      }
      assert InFlight(w, Acquire(id, op));
  }

  lemma SwitchAsks(w: World, i: nat, id: Id, op: Mode)
    requires i < |w.toSwitch| && InFlight(AfterSwitch(w, i), Acquire(id, op))
    ensures InFlight(w, Acquire(id, op))
  {
    hide PostAll;
    Posted(w, i);
  }

  lemma ServerAsks(w: World, h: nat, id: Id, op: Mode)
    requires Enabled(w, ServerReceives(h)) && InFlight(AfterServer(w, h), Acquire(id, op))
    requires !w.server[h][0].GrantWithAgent?
    ensures InFlight(w, Acquire(id, op))
  {
  }

  lemma KnownStays(w: World, s: Step, id: Id)
    requires Enabled(w, s) && id in w.reqs
    ensures id in Next(w, s).reqs
  {
    match s
    case SwitchReceives(i) =>
      hide PostAll;
      Posted(w, i);
    case _ =>
  }

  lemma SameHosts(w: World, s: Step)
    requires Enabled(w, s)
    ensures |Next(w, s).hosts| == |w.hosts|
  {
    match s
    case SwitchReceives(i) => SwitchHosts(w, i);
    case _ =>
  }

  /** A host that does not have the role after a step: its queue went off, or at most grew. */
  lemma AwayQueue(w: World, s: Step, h: nat)
    requires Inv(w) && Enabled(w, s) && h < |w.hosts| && h < |Next(w, s).hosts| && !Next(w, s).hosts[h].isAgent
    ensures var q, r := w.hosts[h].wqueue, Next(w, s).hosts[h].wqueue;
            r == [] || r == q || r == q + Entered(w, s)
  {
    hide Inv;
    match s
    case RequestLock(id, op) =>
    case Unlock(id) =>
      ReleaseQueue(w.hosts[id.host], id.host, id);
    case SwitchReceives(i) =>
      SwitchHosts(w, i);
    case ServerReceives(k) =>
      ServerKinds(w, k);
      if k == h {
        ServerAway(w, k);
      }
    case ClientReceives(i) =>
  }

  lemma ServerAway(w: World, h: nat)
    requires Enabled(w, ServerReceives(h)) && !AfterServer(w, h).hosts[h].isAgent
    requires !w.server[h][0].GrantWithAgent? && (w.server[h][0].Release? ==> w.server[h][0].id in w.hosts[h].holders)
    ensures var q, r := w.hosts[h].wqueue, AfterServer(w, h).hosts[h].wqueue;
            r == [] || r == q || r == q + Entered(w, ServerReceives(h))
  {
  }

  /** The packet `m` was on its way already, with the same queue. */
  ghost predicate WasUnderWay(w: World, m: Msg)
    requires m.Transfer?
  {
    exists k :: InFlight(w, k) && k.Transfer? && k.from == m.from && Carried(k) == Carried(m)
  }

  lemma UnderWay(w: World, m: Msg, k: Msg)
    requires m.Transfer? && InFlight(w, k) && k.Transfer? && k.from == m.from && Carried(k) == Carried(m)
    ensures WasUnderWay(w, m)
  {
  }

  lemma TransferOrigin(w: World, s: Step, m: Msg)
    requires Inv(w) && Enabled(w, s) && InFlight(Next(w, s), m) && m.Transfer?
    ensures WasUnderWay(w, m) || (m.from < |Next(w, s).hosts| && Next(w, s).hosts[m.from].wqueue == [])
  {
    hide Inv, WasUnderWay;
    if InFlight(w, m) {
      UnderWay(w, m, m);
    } else {
      match s
      case RequestLock(id, op) =>
      case Unlock(id) =>
        ReleaseTransfers(w.hosts[id.host], id.host, id, m);
      case SwitchReceives(i) =>
        SwitchSendsOff(w, i, m);
        SwitchTransfers(w, i, m);
      case ServerReceives(h) =>
        ServerKinds(w, h);
        ServerTransfers(w, h, m);
      case ClientReceives(i) =>
        if w.client[i].GrantWithAgent? {
          GrantsOnly(w.client[i].wq);
        }
    }
  }

  lemma ReleaseTransfers(h: Host, self: nat, id: Id, m: Msg)
    requires m in ReleaseLock(h, self, id).send && m.Transfer?
    ensures m.from == self && ReleaseLock(h, self, id).host.wqueue == []
  {
  }

  lemma SwitchTransfers(w: World, i: nat, m: Msg)
    requires i < |w.toSwitch| && InFlight(AfterSwitch(w, i), m) && m.Transfer?
    ensures InFlight(w, m)
  {
    hide PostAll;
    Posted(w, i);
  }

  lemma ServerTransfers(w: World, h: nat, m: Msg)
    requires Enabled(w, ServerReceives(h)) && InFlight(AfterServer(w, h), m) && m.Transfer? && !InFlight(w, m)
    requires !w.server[h][0].GrantWithAgent? && (w.server[h][0].Release? ==> w.server[h][0].id in w.hosts[h].holders)
    ensures WasUnderWay(w, m) || (m.from == h && AfterServer(w, h).hosts[h].wqueue == [])
  {
    var k := w.server[h][0];
    assert InFlight(w, k);
    if k.Transfer? {
      assert Carried(k) == Carried(m) && k.from == m.from;
      UnderWay(w, m, k);
    }
  }

  /** While a FREE or TRANSFER is on its way, its sender does not have the role. */
  lemma SenderAway(w: World, m: Msg)
    requires Inv(w) && InFlight(w, m) && m.GivesUp() && m.from < |w.hosts|
    ensures !w.hosts[m.from].isAgent
  {
    hide Total;
    TotalHas(w, m, GiveUpToken);
    if w.hosts[m.from].isAgent {
      AgentHasToken(w, m.from);
    }
  }

  lemma QueueInLog(w: World, log: seq<Wqe>, q: seq<Wqe>)
    requires IsQueue(w, q) && forall e :: InLog(w, log, e)
    ensures forall x :: x in q ==> x in log
  {
    forall x | x in q ensures x in log {
      assert InAQueue(w, x) && InLog(w, log, x);
    }
  }

  /** What is to stand behind the own queue stood in the packet. */
  lemma IncomingStood(w: World, s: Step)
    requires Enabled(w, s) && Incoming(w, s) != []
    ensures IsQueue(w, Own(w, s))
    ensures exists q :: IsQueue(w, q) && (Incoming(w, s) == q || Incoming(w, s) == Writers(q))
  {
    var m := if s.ServerReceives? then w.server[s.h][0] else w.client[s.i];
    assert InFlight(w, m);
    assert IsQueue(w, Carried(m));
    HostQueue(w, if s.ServerReceives? then s.h else m.id.host);
  }

  lemma FromInLog(w: World, s: Step, log: seq<Wqe>, r: seq<Wqe>)
    requires Enabled(w, s) && From(w, s, r) && forall e :: InLog(w, log, e)
    ensures forall x :: x in r ==> x in log + Entered(w, s)
  {
    hide IsQueue, InLog, Entered, Incoming, Own;
    if IsQueue(w, r) {
      QueueInLog(w, log, r);
    } else if q :| IsQueue(w, q) && Entered(w, s) != [] && r == q + Entered(w, s) {
      QueueInLog(w, log, q);
    } else if q :| IsQueue(w, q) && q != [] && r == q[1..] {
      QueueInLog(w, log, q);
    } else if r != [] {
      IncomingStood(w, s);
      QueueInLog(w, log, Own(w, s));
      var q :| IsQueue(w, q) && (Incoming(w, s) == q || Incoming(w, s) == Writers(q));
      QueueInLog(w, log, q);
      forall x | x in Incoming(w, s) ensures x in log {
        RwLocks.PartitionMembers(q, x);
      }
    }
  }

  // ---- Steps --------------------------------------------------------------------------

  lemma LogDistinct(w: World, s: Step, log: seq<Wqe>)
    requires Enabled(w, s) && Distinct(log) && forall e :: Settled(w, log, e)
    ensures Distinct(log + Entered(w, s)) && forall e :: e in Entered(w, s) ==> e !in log
  {
    hide Entered, Asking;
    if Entered(w, s) != [] {
      EntersFresh(w, s);
      assert Settled(w, log, Entered(w, s)[0]);
    }
  }

  lemma StaysSettled(w: World, s: Step, log: seq<Wqe>, e: Wqe)
    requires Inv(w) && Enabled(w, s) && Inv(Next(w, s)) && Settled(w, log, e)
    ensures Settled(Next(w, s), log + Entered(w, s), e)
  {
    hide Inv, Next, Entered, Asking, Enabled;
    if e in log {
      KnownStays(w, s, e.id);
      if Asking(Next(w, s), e.id) {
        AsksOn(w, s, e.id);
      }
    } else if e in Entered(w, s) {
      EntersFresh(w, s);
      var h :| 0 <= h < |Next(w, s).hosts| && e in Next(w, s).hosts[h].wqueue;
      QueuedAsksNot(Next(w, s), h, e);
      assert Counted(Next(w, s)) by { CountedIn(Next(w, s)); }
      QueuedWaits(Next(w, s), e);
    }
  }

  lemma CountedIn(w: World)
    requires Inv(w)
    ensures Counted(w)
  {
  }

  lemma StaysLogged(w: World, s: Step, log: seq<Wqe>, e: Wqe)
    requires Inv(w) && Enabled(w, s) && forall x :: InLog(w, log, x)
    ensures InLog(Next(w, s), log + Entered(w, s), e)
  {
    hide Inv, Next, Entered, Enabled, IsQueue, InLog, From;
    if InAQueue(Next(w, s), e) {
      var r :| IsQueue(Next(w, s), r) && e in r;
      StepQueues(w, s, r);
      FromInLog(w, s, log, r);
    }
    assert InLog(Next(w, s), log + Entered(w, s), e) by { LogSays(Next(w, s), log + Entered(w, s), e); }
  }

  lemma LogSays(w: World, log: seq<Wqe>, e: Wqe)
    requires InAQueue(w, e) ==> e in log
    ensures InLog(w, log, e)
  {
  }

  lemma StaysBefore(w: World, s: Step, log: seq<Wqe>, m: Msg)
    requires Inv(w) && Enabled(w, s) && Inv(Next(w, s)) && Logged(w, log)
    ensures SentBefore(Next(w, s), log + Entered(w, s), m)
  {
    hide Inv, Next, Entered, Enabled, InFlight, Carried;
    var w' := Next(w, s);
    SameHosts(w, s);
    if InFlight(w', m) && m.Transfer? && m.from < |w'.hosts| {
      SenderAway(w', m);
      AwayQueue(w, s, m.from);
      TransferOrigin(w, s, m);
      if w'.hosts[m.from].wqueue != [] {
        var k :| InFlight(w, k) && k.Transfer? && k.from == m.from && Carried(k) == Carried(m);
        assert SentBefore(w, log, k);
        assert IsQueue(w, Carried(k));
        QueueInLog(w, log, Carried(k));
        forall x, y | x in w'.hosts[m.from].wqueue && y in Carried(m) ensures Precedes(log + Entered(w, s), y, x) {
          LogGrows(log, Entered(w, s), y, x);
          if x !in w.hosts[m.from].wqueue {
            EntersFresh(w, s);
          }
        }
      }
    }
  }

  lemma StepLogged(w: World, s: Step, log: seq<Wqe>)
    requires Inv(w) && Enabled(w, s) && Inv(Next(w, s)) && Logged(w, log)
    ensures Logged(Next(w, s), log + Entered(w, s))
  {
    hide Inv, Next, Entered, Enabled, Settled, InLog, SentBefore, Distinct;
    LogDistinct(w, s, log);
    forall e ensures Settled(Next(w, s), log + Entered(w, s), e) && InLog(Next(w, s), log + Entered(w, s), e) {
      StaysSettled(w, s, log, e);
      StaysLogged(w, s, log, e);
    }
    forall m ensures SentBefore(Next(w, s), log + Entered(w, s), m) {
      StaysBefore(w, s, log, m);
    }
  }

  // ---- The order is kept, or not -------------------------------------------------------

  ghost predicate SortedHere(w: World, log: seq<Wqe>, q: seq<Wqe>) {
    IsQueue(w, q) ==> Sorted(q, log)
  }

  /** All wait queues stand in the order of arrival. */
  ghost predicate AllSorted(w: World, log: seq<Wqe>) {
    forall q :: SortedHere(w, log, q)
  }

  /** The guard: a refused TRANSFER finds the queue of its host empty, and a queue that comes
      with the agent role starts behind the last request of the host's own. */
  ghost predicate Joins(w: World, s: Step, log: seq<Wqe>)
    requires Enabled(w, s)
  {
    Incoming(w, s) != [] ==> if s.ServerReceives? then Own(w, s) == [] else Meet(Own(w, s), Incoming(w, s), log)
  }

  lemma IncomingSorted(w: World, s: Step, log: seq<Wqe>)
    requires Enabled(w, s) && Incoming(w, s) != [] && AllSorted(w, log)
    ensures Sorted(Own(w, s), log) && Sorted(Incoming(w, s), log)
  {
    hide IsQueue, Incoming, Own, Sorted;
    IncomingStood(w, s);
    assert SortedHere(w, log, Own(w, s));
    var q :| IsQueue(w, q) && (Incoming(w, s) == q || Incoming(w, s) == Writers(q));
    assert SortedHere(w, log, q);
    SortedWriters(q, log);
  }

  /** Requests that a host queued after it sent its queue off never stand before that queue in
      the order of arrival. */
  lemma RestoreMeets(w: World, h: nat, log: seq<Wqe>)
    requires Inv(w) && Logged(w, log) && Enabled(w, ServerReceives(h)) && Incoming(w, ServerReceives(h)) != []
    ensures Meet(Own(w, ServerReceives(h)), Incoming(w, ServerReceives(h)), log) <==> w.hosts[h].wqueue == []
  {
    hide Inv;
    var m, own := w.server[h][0], w.hosts[h].wqueue;
    assert InFlight(w, m);
    assert m.from == h by { RefusedIsOwn(w, h); }
    if own != [] {
      assert SentBefore(w, log, m);
      Asymmetric(log, own[|own| - 1], Carried(m)[0]);
    }
  }

  lemma RefusedIsOwn(w: World, h: nat)
    requires Inv(w) && Enabled(w, ServerReceives(h)) && w.server[h][0].GivesUp()
    ensures w.server[h][0].from == h
  {
    hide Total;
    PushBackFinds(w, h, w.server[h][0]);
  }

  lemma JoinsMeet(w: World, s: Step, log: seq<Wqe>)
    requires Inv(w) && Logged(w, log) && Enabled(w, s)
    ensures Joins(w, s, log) <==> (Incoming(w, s) != [] ==> Meet(Own(w, s), Incoming(w, s), log))
  {
    hide Inv, Logged, Meet;
    if s.ServerReceives? && Incoming(w, s) != [] {
      RestoreMeets(w, s.h, log);
    }
  }

  /** Where queues join, nothing is queued for the first time, and the joint queue stands. */
  lemma JointQueue(w: World, s: Step)
    requires Enabled(w, s) && Incoming(w, s) != []
    ensures Entered(w, s) == [] && IsQueue(Next(w, s), Own(w, s) + Incoming(w, s))
  {
    var h := if s.ServerReceives? then s.h else w.client[s.i].id.host;
    HostQueue(Next(w, s), h);
    if s.ServerReceives? {
      var m := w.server[h][0];
      assert w.hosts[h].wqueue + [m.next] + m.wq == w.hosts[h].wqueue + Carried(m);
    }
  }

  lemma FromSorted(w: World, s: Step, log: seq<Wqe>, r: seq<Wqe>)
    requires Enabled(w, s) && From(w, s, r) && AllSorted(w, log) && (forall e :: InLog(w, log, e)) && Distinct(log)
    requires Incoming(w, s) != [] ==> Meet(Own(w, s), Incoming(w, s), log)
    ensures Sorted(r, log + Entered(w, s))
  {
    hide IsQueue, InLog, Entered, Incoming, Own, Sorted, Distinct, Meet;
    if r == [] {
      SortedNone(log + Entered(w, s));
    } else if IsQueue(w, r) {
      assert SortedHere(w, log, r);
      SortedGrows(r, log, Entered(w, s));
    } else if q :| IsQueue(w, q) && Entered(w, s) != [] && r == q + Entered(w, s) {
      assert SortedHere(w, log, q);
      QueueInLog(w, log, q);
      EntersFresh(w, s);
      SortedAppend(q, log, Entered(w, s)[0]);
      assert Entered(w, s) == [Entered(w, s)[0]];
    } else if q :| IsQueue(w, q) && q != [] && r == q[1..] {
      assert SortedHere(w, log, q);
      SortedTail(q, log);
      SortedGrows(r, log, Entered(w, s));
    } else {
      IncomingSorted(w, s, log);
      MeetExactly(Own(w, s), Incoming(w, s), log);
      SortedGrows(r, log, Entered(w, s));
    }
  }

  lemma SortedNone(log: seq<Wqe>)
    ensures Sorted([], log)
  {
  }

  /** A step keeps the order of arrival exactly if queues join in order. */
  lemma StepSortedExactly(w: World, s: Step, log: seq<Wqe>)
    requires Inv(w) && Enabled(w, s) && Logged(w, log) && AllSorted(w, log)
    ensures AllSorted(Next(w, s), log + Entered(w, s)) <==> Joins(w, s, log)
  {
    hide Inv, Next, Entered, Enabled, IsQueue, From, InLog, Settled, SentBefore, Incoming, Own, Sorted, Distinct, Meet, Joins;
    JoinsMeet(w, s, log);
    if Incoming(w, s) != [] ==> Meet(Own(w, s), Incoming(w, s), log) {
      forall r ensures SortedHere(Next(w, s), log + Entered(w, s), r) {
        if IsQueue(Next(w, s), r) {
          StepQueues(w, s, r);
          FromSorted(w, s, log, r);
        }
      }
    } else {
      JointQueue(w, s);
      assert log + Entered(w, s) == log;
      IncomingSorted(w, s, log);
      MeetExactly(Own(w, s), Incoming(w, s), log);
      assert !SortedHere(Next(w, s), log + Entered(w, s), Own(w, s) + Incoming(w, s));
    }
  }

  // ---- Runs ---------------------------------------------------------------------------

  ghost predicate AlwaysSorted(log: seq<Wqe>, w: World, steps: seq<Step>)
    requires Runs(w, steps)
    decreases |steps|
  {
    AllSorted(w, log) && (steps != [] ==> AlwaysSorted(log + Entered(w, steps[0]), Next(w, steps[0]), steps[1..]))
  }

  /** Whenever queues join along the run, they join in order. */
  ghost predicate AlwaysJoins(log: seq<Wqe>, w: World, steps: seq<Step>)
    requires Runs(w, steps)
    decreases |steps|
  {
    steps != [] ==>
      Joins(w, steps[0], log) && AlwaysJoins(log + Entered(w, steps[0]), Next(w, steps[0]), steps[1..])
  }

  lemma {:induction false} SortedFrom(log: seq<Wqe>, w: World, steps: seq<Step>)
    requires Legal(w, steps)
    ensures Runs(w, steps)
    ensures Inv(w) && Logged(w, log) ==> Inv(End(w, steps)) && Logged(End(w, steps), Arrivals(log, w, steps))
    ensures Inv(w) && Logged(w, log) && AllSorted(w, log) ==>
              && (AlwaysSorted(log, w, steps) <==> AlwaysJoins(log, w, steps))
              && (AlwaysJoins(log, w, steps) ==> AllSorted(End(w, steps), Arrivals(log, w, steps)))
    decreases |steps|
  {
    hide Inv, Next, Entered, Enabled, Logged, AllSorted, Joins;
    if steps != [] {
      if Inv(w) && Logged(w, log) {
        StepKeeps(w, steps[0]);
        StepLogged(w, steps[0], log);
        if AllSorted(w, log) {
          StepSortedExactly(w, steps[0], log);
        }
      }
      SortedFrom(log + Entered(w, steps[0]), Next(w, steps[0]), steps[1..]);
      if !AllSorted(Next(w, steps[0]), log + Entered(w, steps[0])) {
        NotSortedThere(log + Entered(w, steps[0]), Next(w, steps[0]), steps[1..]);
      }
    }
  }

  lemma NotSortedThere(log: seq<Wqe>, w: World, steps: seq<Step>)
    requires Runs(w, steps) && !AllSorted(w, log)
    ensures !AlwaysSorted(log, w, steps)
  {
  }

  lemma InitLogged(n: nat)
    ensures Logged(Init(n), []) && AllSorted(Init(n), [])
  {
    var w := Init(n);
    forall q | IsQueue(w, q) ensures q == [] {
    }
    forall e ensures InLog(w, [], e) {
    }
    forall q ensures SortedHere(w, [], q) {
    }
  }

  /** In every run all wait queues, at hosts and in packets, stand in the order in which their
      requests were first queued, exactly if every refused TRANSFER that comes back finds an
      empty queue and every queue that comes with the agent role arrives behind older ones. */
  lemma ArrivalOrderExactly(n: nat, steps: seq<Step>)
    requires Legal(Init(n), steps)
    ensures Runs(Init(n), steps)
    ensures AlwaysSorted([], Init(n), steps) <==> AlwaysJoins([], Init(n), steps)
  {
    hide Inv, Logged, AllSorted;
    InitInv(n);
    InitLogged(n);
    SortedFrom([], Init(n), steps);
  }

  /** As long as queues joined in order: of two requests in one wait queue, the second of them a
      writer, the one that was first queued earlier is granted first, whatever comes after. */
  lemma EarlierGrantedFirst(n: nat, steps: seq<Step>, more: seq<Step>, q: seq<Wqe>, a: Wqe, b: Wqe)
    requires Legal(Init(n), steps) && Runs(Init(n), steps) && AlwaysJoins([], Init(n), steps)
    requires Legal(End(Init(n), steps), more)
    requires IsQueue(End(Init(n), steps), q) && a in q && b in q && b.op == Exclusive
    requires Precedes(Arrivals([], Init(n), steps), a, b)
    ensures var w := End(Init(n), steps);
            Runs(w, more) && (Served(End(w, more), b.id) ==> Served(End(w, more), a.id))
  {
    hide Inv, Settled, InLog, SentBefore, IsQueue;
    InitInv(n);
    InitLogged(n);
    SortedFrom([], Init(n), steps);
    var w, log := End(Init(n), steps), Arrivals([], Init(n), steps);
    assert SortedHere(w, log, q);
    StandsAsArrived(q, log, a, b);
    assert Ahead(w, a, b);
    FirstQueuedFirst(w, more, a, b);
  }

  lemma StandsAsArrived(q: seq<Wqe>, log: seq<Wqe>, a: Wqe, b: Wqe)
    requires Distinct(log) && Sorted(q, log) && a in q && b in q && Precedes(log, a, b)
    ensures Precedes(q, a, b)
  {
    var i :| 0 <= i < |q| && q[i] == a;
    var j :| 0 <= j < |q| && q[j] == b;
    SortedPair(q, log, j, i);
    Asymmetric(log, a, b);
  }

  lemma SortedPair(q: seq<Wqe>, log: seq<Wqe>, i: nat, j: nat)
    requires Sorted(q, log) && i < |q| && j < |q|
    ensures i < j ==> Precedes(log, q[i], q[j])
  {
  }
}
