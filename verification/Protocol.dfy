/** The distributed protocol of one lock: the switch, any number of hosts, any number of
    tasks, and the channels between them, as a transition system.

    Environment: packets are neither lost nor duplicated; the server port of a host is one
    FIFO queue; packets to the switch and to client ports arrive in any order; every
    acquisition uses a fresh (host, task); only a task that holds the lock releases it. */
module Protocol {
  import opened Messages
  import opened Deciders
  import opened Hosts

  /** History of a request. It is read by no handler and only decides freshness. */
  datatype Phase =
    | Waiting          // asked for, no grant issued
    | Granted          // grant in flight, held, or its RELEASE in flight
    | EarlyReleased    // released locally, its notification still in flight
    | Done

  datatype Request = Request(op: Mode, phase: Phase)

  datatype World = World(
    decider: Decider,
    hosts: seq<Host>,          // indexed by host id; 0 is no host
    toSwitch: seq<Msg>,        // any element may be delivered next
    server: seq<seq<Msg>>,     // per host, delivered from the front
    client: seq<Msg>,          // any element may be delivered next
    held: set<Id>,             // tasks told of their grant that have not released
    reqs: map<Id, Request>)
  {
    predicate IsHost(h: nat) {
      1 <= h < |hosts| && |server| == |hosts|
    }

    predicate InPhase(id: Id, p: Phase) {
      id in reqs && reqs[id].phase == p
    }
  }

  function Init(n: nat): World {
    World(INITIAL, seq(n + 1, i => IDLE), [], seq(n + 1, i => []), [], {}, map[])
  }

  datatype Step =
    | RequestLock(id: Id, op: Mode)
    | Unlock(id: Id)
    | SwitchReceives(i: nat)
    | ServerReceives(h: nat)
    | ClientReceives(i: nat)

  function RemoveAt<T>(s: seq<T>, i: nat): seq<T>
    requires i < |s|
  {
    s[..i] + s[i + 1..]
  }

  /** Record `phase` for the requests of `ids`. */
  function Mark(reqs: map<Id, Request>, ids: set<Id>, phase: Phase): map<Id, Request> {
    map id | id in reqs :: if id in ids then reqs[id].(phase := phase) else reqs[id]
  }

  /** A multicast group without a port drops the packet. */
  function Post(w: World, d: Delivery): World {
    match d
    case ToServer(h, m) =>
      if w.IsHost(h) then w.(server := w.server[h := w.server[h] + [m]]) else w
    case ToClient(m) => w.(client := w.client + [m])
  }

  function PostAll(w: World, out: seq<Delivery>): World
    decreases out
  {
    if out == [] then w else PostAll(Post(w, out[0]), out[1..])
  }

  /** The requests that the switch grants when it handles `m`. */
  function SwitchGrants(d: Decider, m: Msg): set<Id> {
    match m
    case Acquire(id, op) =>
      if !d.acquired || (op == Shared && d.rw == Shared) then {id} else {}
    case Transfer(next, _, _, _, _) =>
      if d.acquired && !Refused(d, m) then {next.id} else {}
    case _ => {}
  }

  /** The requests that a host grants when it handles `m`. */
  function HostGrants(m: Msg): set<Id> {
    if m.GrantWithAgent? && m.transferred && m.mode == Shared then SharedIds(m.wq) else {}
  }

  /** The history after host state `h` has handled a packet from its server port. */
  function Heard(reqs: map<Id, Request>, h: Host, m: Msg): map<Id, Request> {
    match m
    case Notify(id) => if id in h.early then Mark(reqs, {id}, Done) else reqs
    case Release(id) =>
      if id in h.holders || Queued(h.wqueue, id) then Mark(reqs, {id}, Done)
      else Mark(reqs, {id}, EarlyReleased)
    case _ => reqs
  }

  /** Install what host `h` did. */
  function Absorb(w: World, h: nat, r: Reaction): World
    requires w.IsHost(h)
  {
    w.(hosts := w.hosts[h := r.host], toSwitch := w.toSwitch + r.send, held := w.held + r.notified)
  }

  predicate ClientHost(m: Msg, w: World) {
    (m.GrantWithAgent? || m.GrantWithoutAgent?) && w.IsHost(m.id.host)
  }

  predicate Enabled(w: World, s: Step) {
    match s
    case RequestLock(id, _) => w.IsHost(id.host) && id !in w.reqs
    case Unlock(id) => w.IsHost(id.host) && id in w.held
    case SwitchReceives(i) => i < |w.toSwitch|
    case ServerReceives(h) => w.IsHost(h) && w.server[h] != []
    case ClientReceives(i) => i < |w.client| && ClientHost(w.client[i], w)
  }

  function AfterRequest(w: World, id: Id, op: Mode): World
    requires w.IsHost(id.host)
  {
    var r := AcquireAsync(w.hosts[id.host], id, op);
    Absorb(w.(reqs := w.reqs[id := Request(op, if id in r.notified then Granted else Waiting)]),
           id.host, r)
  }

  function AfterUnlock(w: World, id: Id): World
    requires w.IsHost(id.host)
  {
    var h := w.hosts[id.host];
    var phase := if !h.isAgent then Granted else if id in h.holders then Done else EarlyReleased;
    Absorb(w.(held := w.held - {id}, reqs := Mark(w.reqs, {id}, phase)),
           id.host, ReleaseLock(h, id.host, id))
  }

  function AfterSwitch(w: World, i: nat): World
    requires i < |w.toSwitch|
  {
    var m := w.toSwitch[i];
    var d := Decide(w.decider, m);
    PostAll(w.(decider := d.decider, toSwitch := RemoveAt(w.toSwitch, i),
               reqs := Mark(w.reqs, SwitchGrants(w.decider, m), Granted)), d.out)
  }

  function AfterServer(w: World, h: nat): World
    requires w.IsHost(h) && w.server[h] != []
  {
    var m := w.server[h][0];
    Absorb(w.(server := w.server[h := w.server[h][1..]], reqs := Heard(w.reqs, w.hosts[h], m)),
           h, OnPacket(w.hosts[h], h, m))
  }

  function AfterClient(w: World, i: nat): World
    requires i < |w.client| && ClientHost(w.client[i], w)
  {
    var m := w.client[i];
    Absorb(w.(client := RemoveAt(w.client, i), reqs := Mark(w.reqs, HostGrants(m), Granted)),
           m.id.host, OnPacket(w.hosts[m.id.host], m.id.host, m))
  }

  function Next(w: World, s: Step): World
    requires Enabled(w, s)
  {
    match s
    case RequestLock(id, op) => AfterRequest(w, id, op)
    case Unlock(id) => AfterUnlock(w, id)
    case SwitchReceives(i) => AfterSwitch(w, i)
    case ServerReceives(h) => AfterServer(w, h)
    case ClientReceives(i) => AfterClient(w, i)
  }
}
