/** Several proxies, which share connections, and connections, which share the marks in a token:
    exactly when a connect or an assignment keeps what the requests promise, for all of them. */
module AsyncWorld {
  import opened QtTypes
  import opened DataStream
  import opened ReturnValues
  import opened AsyncRequests
  import opened AsyncInvariant
  import opened AsyncSteps
  import opened AsyncResults
  import opened AsyncReconnect
  import opened AsyncAssign

  // ------------------------------------------------------------------ the world

  /** A ConnectionData, with its bus and the data of its token. */
  datatype Connection = Connection(next: nat, connected: bool, state: ConnectionState, token: nat)

  /** The two marks in a token's client data; copies of the token share them. */
  datatype Marks = Marks(setDefaultToken: bool, service: Option<QString>)

  datatype Proxy = Proxy(
    connection: nat,
    traffic: Traffic,
    entries: Entries,
    status: map<nat, Status>,
    taken: Option<Taken>,
    log: Log)

  datatype World = World(connections: seq<Connection>, tokens: seq<Marks>, proxies: seq<Proxy>)

  predicate WellFormed(w: World) {
    && (forall c :: 0 <= c < |w.connections| ==> w.connections[c].token < |w.tokens|)
    && (forall i :: 0 <= i < |w.proxies| ==> w.proxies[i].connection < |w.connections|)
  }

  function LinkOf(w: World, c: nat): Link
    requires WellFormed(w) && c < |w.connections|
  {
    var d := w.connections[c];
    Link(c, d.next, d.connected, d.state, w.tokens[d.token].setDefaultToken, w.tokens[d.token].service)
  }

  /** A proxy as it sees itself. */
  function View(w: World, i: nat): State
    requires WellFormed(w) && i < |w.proxies|
  {
    var p := w.proxies[i];
    State(LinkOf(w, p.connection), p.traffic, p.entries, p.status, p.taken, p.log)
  }

  /** The world once this proxy is in this state: what it shares changes for all. */
  function Put(w: World, i: nat, t: State): (v: World)
    requires WellFormed(w) && i < |w.proxies| && t.link.bus < |w.connections|
    ensures WellFormed(v) && |v.proxies| == |w.proxies| && |v.connections| == |w.connections| && View(v, i) == t
  {
    var c, token := t.link.bus, w.connections[t.link.bus].token;
    World(
      w.connections[c := Connection(t.link.next, t.link.connected, t.link.state, token)],
      w.tokens[token := Marks(t.link.setDefaultToken, t.link.service)],
      w.proxies[i := Proxy(c, t.traffic, t.entries, t.status, t.taken, t.log)])
  }

  function NewProxy(i: nat): Proxy {
    Proxy(i, Traffic(map[], [], []), NO_ENTRIES, map[], None, Log(map[], []))
  }

  /** New proxies, each with a connection object and a token of its own. */
  function Begin(proxies: nat): (w: World)
    ensures WellFormed(w)
  {
    World(
      seq(proxies, i requires i >= 0 => Connection(0, false, Disconnected, i)),
      seq(proxies, i => Marks(false, None)),
      seq(proxies, i requires i >= 0 => NewProxy(i)))
  }

  datatype WorldEvent =
    | Act(proxy: nat, event: Event)       // a step of a proxy on the connection it is on
    | NewConnect(proxy: nat, user: nat, path: Option<QString>, token: nat)
    | Assign(proxy: nat, connection: nat) // the proxy takes over a connection
    | Appears(made: Connection)           // a connection made otherwise, by a waiting connect or a refused one
    | OtherCall(connection: nat)          // any other call uses up an id of the bus
    | Cut(connection: nat)                // the bus is gone
    | Touch(token: nat, marks: Marks)     // anyone else sets or clears the marks

  /** A token not seen before has no marks. */
  function MarksOf(w: World, token: nat): Marks {
    if token < |w.tokens| then w.tokens[token] else Marks(false, None)
  }

  function Append(w: World, c: Connection): (v: World)
    requires WellFormed(w) && c.token <= |w.tokens|
    ensures WellFormed(v) && v.proxies == w.proxies && |v.connections| == |w.connections| + 1
    ensures forall d :: 0 <= d < |w.connections| ==> LinkOf(v, d) == LinkOf(w, d)
  {
    w.(connections := w.connections + [c],
       tokens := if c.token < |w.tokens| then w.tokens else w.tokens + [MarksOf(w, c.token)])
  }

  ghost predicate Possible(w: World, e: WorldEvent)
    requires WellFormed(w)
  {
    match e
    case Act(i, f) => i < |w.proxies| && Own(f) && Enabled(View(w, i), f)
    case NewConnect(i, _, _, token) => i < |w.proxies| && token <= |w.tokens|
    case Assign(i, c) => i < |w.proxies| && c < |w.connections|
    case Appears(c) => c.token <= |w.tokens| && (c.connected ==> c.next >= 1)
    case OtherCall(c) => c < |w.connections| && w.connections[c].connected
    case Cut(c) => c < |w.connections|
    case Touch(token, _) => token < |w.tokens|
  }

  ghost function After(w: World, e: WorldEvent): (v: World)
    requires WellFormed(w) && Possible(w, e)
    ensures WellFormed(v) && |v.proxies| == |w.proxies|
  {
    match e
    case Act(i, f) =>
      OwnLink(View(w, i), f);
      Put(w, i, Step(View(w, i), f))
    case NewConnect(i, user, path, token) =>
      var c := |w.connections|;
      Put(Append(w, Connection(0, false, Disconnected, token)), i,
          AfterConnect(View(w, i), c, user, path, MarksOf(w, token).service))
    case Assign(i, c) => Put(w, i, TakeOver(View(w, i), LinkOf(w, c)))
    case Appears(c) => Append(w, c)
    case OtherCall(c) => w.(connections := w.connections[c := w.connections[c].(next := w.connections[c].next + 1)])
    case Cut(c) => w.(connections := w.connections[c := w.connections[c].(connected := false, state := Disconnected)])
    case Touch(token, marks) => w.(tokens := w.tokens[token := marks])
  }

  /** A proxy's own step stays on its connection, and touches the marks only for a connect. */
  lemma OwnLink(s: State, e: Event)
    requires Own(e) && Enabled(s, e)
    ensures var t := Step(s, e);
      && t.link.bus == s.link.bus && t.link.next >= s.link.next && t.link.connected == s.link.connected
      && (s.entries.connect == map[] ==> SameMarks(s.link, t.link) && t.entries.connect == map[])
  {
    if e.Replied? || (e.Handled? && !s.traffic.queue[0].layer.Connect?) {
      SameNext(s, s, e);
    }
  }

  // --------------------------------------------------- what keeps the promises

  /** A connect of this proxy is under way with this token. */
  predicate ConnectsWith(w: World, j: nat, token: nat)
    requires WellFormed(w) && j < |w.proxies|
  {
    w.proxies[j].entries.connect != map[] && w.connections[w.proxies[j].connection].token == token
  }

  /** No other proxy has a connect under way with this token. */
  predicate Alone(w: World, i: nat, token: nat)
    requires WellFormed(w)
  {
    forall j :: 0 <= j < |w.proxies| && j != i ==> !ConnectsWith(w, j, token)
  }

  /** Nothing is under way at the proxy, and no other connect with the token; and without a path
      the token names no service. */
  ghost predicate MayConnect(w: World, i: nat, path: Option<QString>, token: nat)
    requires WellFormed(w) && i < |w.proxies|
  {
    && Idle(View(w, i))
    && Alone(w, i, token)
    && (path.Some? || MarksOf(w, token).service.None?)
  }

  /** Nothing is under way at the proxy, or nothing changes. */
  ghost predicate MayAssign(w: World, i: nat, c: nat)
    requires WellFormed(w) && i < |w.proxies|
  {
    Idle(View(w, i)) || c == w.proxies[i].connection
  }

  /** Connects, assignments and changes of the marks come only where they do no harm. */
  ghost predicate Careful(w: World, e: WorldEvent)
    requires WellFormed(w)
  {
    && Possible(w, e)
    && match e
      case NewConnect(i, _, path, token) => MayConnect(w, i, path, token)
      case Assign(i, c) => MayAssign(w, i, c)
      case Touch(token, _) => forall j :: 0 <= j < |w.proxies| ==> !ConnectsWith(w, j, token)
      case _ => true
  }

  ghost predicate Leads(w: World, events: seq<WorldEvent>, t: World)
    requires WellFormed(w)
    decreases |events|
  {
    if events == [] then w == t
    else Careful(w, events[0]) && Leads(After(w, events[0]), events[1..], t)
  }

  ghost predicate Attained(w: World) {
    exists n: nat, events :: Leads(Begin(n), events, w)
  }

  /** Every proxy gets what the results promise. */
  ghost predicate AllRight(w: World) {
    WellFormed(w) && forall i {:trigger Right(View(w, i))} :: 0 <= i < |w.proxies| ==> Right(View(w, i))
  }

  /** What is under way at a proxy goes on over the connection it was begun on. */
  ghost predicate Steady(s: State) {
    forall layer: Layer, j :: j in s.entries.At(layer) ==> s.entries.At(layer)[j].origin.bus == s.link.bus
  }

  ghost predicate AllKept(w: World) {
    AllRight(w) && forall i :: 0 <= i < |w.proxies| ==> Steady(View(w, i))
  }

  // ------------------------------------------------------------- every run

  ghost predicate Bounded(log: Log, connections: seq<Connection>) {
    forall k :: k in log.accepted ==> k.bus < |connections| && k.id <= connections[k.bus].next
  }

  /** Two connects under way have different tokens. */
  ghost predicate Exclusive(w: World)
    requires WellFormed(w)
  {
    forall i, j :: 0 <= i < |w.proxies| && 0 <= j < |w.proxies| && i != j && w.proxies[i].entries.connect != map[] ==>
      !ConnectsWith(w, j, w.connections[w.proxies[i].connection].token)
  }

  predicate Used(c: Connection) {
    c.connected ==> c.next >= 1
  }

  /** Each proxy by itself is where its own run could have brought it. */
  ghost predicate Sound(w: World) {
    && WellFormed(w)
    && (forall i {:trigger Reachable(View(w, i))} :: 0 <= i < |w.proxies| ==> Reachable(View(w, i)))
    && (forall i :: 0 <= i < |w.proxies| ==> Bounded(w.proxies[i].log, w.connections))
    && Exclusive(w)
    && (forall c :: 0 <= c < |w.connections| ==> Used(w.connections[c]))
  }

  predicate Later(a: Link, b: Link) {
    b.bus == a.bus && b.next >= a.next && (b.connected ==> a.connected)
  }

  /** To this proxy, what has become of its connection is the doing of others. */
  ghost predicate SeesOthers(w: World, v: World, j: nat)
    requires WellFormed(w) && WellFormed(v) && j < |w.proxies|
  {
    && j < |v.proxies| && v.proxies[j] == w.proxies[j] && |v.connections| >= |w.connections|
    && var a, b := LinkOf(w, w.proxies[j].connection), LinkOf(v, w.proxies[j].connection);
      Later(a, b) && (SameMarks(a, b) || w.proxies[j].entries.connect == map[])
  }

  lemma OthersReach(w: World, v: World, j: nat)
    requires WellFormed(w) && WellFormed(v) && j < |w.proxies| && SeesOthers(w, v, j) && Reachable(View(w, j))
    ensures Reachable(View(v, j))
  {
    hide Reachable;
    ReachableStep(View(w, j), Elsewhere(LinkOf(v, w.proxies[j].connection)));
  }

  /** A step of nobody's in particular. */
  lemma OthersKeep(w: World, v: World)
    requires Sound(w) && WellFormed(v) && |v.proxies| == |w.proxies|
    requires forall j :: 0 <= j < |w.proxies| ==> SeesOthers(w, v, j)
    requires |v.connections| >= |w.connections|
    requires forall c :: 0 <= c < |w.connections| ==>
               v.connections[c].token == w.connections[c].token && v.connections[c].next >= w.connections[c].next
    requires forall c :: 0 <= c < |v.connections| ==> Used(v.connections[c])
    ensures Sound(v)
  {
    hide Reachable;
    forall j | 0 <= j < |v.proxies| ensures Reachable(View(v, j)) && Bounded(v.proxies[j].log, v.connections) {
      assert SeesOthers(w, v, j);
      OthersReach(w, v, j);
    }
    assert Exclusive(v) by {
      forall i, j | 0 <= i < |v.proxies| && 0 <= j < |v.proxies| && i != j && v.proxies[i].entries.connect != map[]
        ensures !ConnectsWith(v, j, v.connections[v.proxies[i].connection].token)
      {
        assert SeesOthers(w, v, i) && SeesOthers(w, v, j);
        assert !ConnectsWith(w, j, w.connections[w.proxies[i].connection].token);
      }
    }
  }

  /** A step of one proxy's: what it does to the marks is no other connect's concern. */
  lemma PutKeeps(w: World, i: nat, t: State)
    requires Sound(w) && i < |w.proxies| && t.link.bus < |w.connections| && Reachable(t)
    requires Bounded(t.log, Put(w, i, t).connections) && t.link.next >= w.connections[t.link.bus].next
    requires Later(LinkOf(w, t.link.bus), t.link)
             || forall j :: 0 <= j < |w.proxies| ==> w.proxies[j].connection != t.link.bus
    requires (SameMarks(LinkOf(w, t.link.bus), t.link) && t.entries.connect == map[])
             || Alone(w, i, w.connections[t.link.bus].token)
    ensures Sound(Put(w, i, t))
  {
    hide Reachable;
    var v := Put(w, i, t);
    ReachableUsed(t);
    PutExclusive(w, i, t);
    forall j | 0 <= j < |v.proxies| ensures Reachable(View(v, j)) && Bounded(v.proxies[j].log, v.connections) {
      if j != i {
        SeesPut(w, i, t, j);
        OthersReach(w, v, j);
      }
    }
  }

  lemma SeesPut(w: World, i: nat, t: State, j: nat)
    requires WellFormed(w) && i < |w.proxies| && t.link.bus < |w.connections| && j < |w.proxies| && j != i
    requires Later(LinkOf(w, t.link.bus), t.link) || w.proxies[j].connection != t.link.bus
    requires SameMarks(LinkOf(w, t.link.bus), t.link) || !ConnectsWith(w, j, w.connections[t.link.bus].token)
    ensures SeesOthers(w, Put(w, i, t), j)
  {
  }

  lemma PutExclusive(w: World, i: nat, t: State)
    requires WellFormed(w) && Exclusive(w) && i < |w.proxies| && t.link.bus < |w.connections|
    requires t.entries.connect == map[] || Alone(w, i, w.connections[t.link.bus].token)
    ensures Exclusive(Put(w, i, t))
  {
    var v, token := Put(w, i, t), w.connections[t.link.bus].token;
    forall g, h | 0 <= g < |v.proxies| && 0 <= h < |v.proxies| && g != h && v.proxies[g].entries.connect != map[]
      ensures !ConnectsWith(v, h, v.connections[v.proxies[g].connection].token)
    {
      if g != i && h == i {
        assert t.entries.connect != map[] ==> !ConnectsWith(w, g, token);
      } else if g == i {
        assert !ConnectsWith(w, h, token);
      } else {
        assert !ConnectsWith(w, h, w.connections[w.proxies[g].connection].token);
      }
    }
  }

  lemma ReachableUsed(t: State)
    requires Reachable(t)
    ensures t.link.connected ==> t.link.next >= 1
    ensures Covers(t.log, t.link)
  {
    hide Reachable;
    ReachableInv(t);
    hide Carried, Shaped, Settled, Laws;
  }

  lemma ActKeeps(w: World, i: nat, f: Event)
    requires Sound(w) && Possible(w, Act(i, f))
    ensures Sound(After(w, Act(i, f)))
  {
    hide Reachable, Enabled, Step;
    var s := View(w, i);
    OwnLink(s, f);
    var t := Step(s, f);
    ReachableStep(s, f);
    ReachableUsed(t);
    OwnLog(s, f);
    PutKeeps(w, i, t);
  }

  /** New requests are recorded for this bus only. */
  lemma OwnLog(s: State, e: Event)
    requires Own(e) && Enabled(s, e)
    ensures forall k :: k in Step(s, e).log.accepted && k.bus != s.link.bus ==> k in s.log.accepted
  {
  }

  lemma AssignKeeps(w: World, i: nat, c: nat)
    requires Sound(w) && Possible(w, Assign(i, c)) && MayAssign(w, i, c)
    ensures Sound(After(w, Assign(i, c)))
  {
    hide Reachable;
    var s, link := View(w, i), LinkOf(w, c);
    if c == w.proxies[i].connection {
      assert After(w, Assign(i, c)) == w;
    } else {
      ReachableStep(s, Assigned(link));
      PutKeeps(w, i, TakeOver(s, link));
    }
  }

  lemma NewConnectKeeps(w: World, i: nat, user: nat, path: Option<QString>, token: nat)
    requires Sound(w) && Possible(w, NewConnect(i, user, path, token)) && MayConnect(w, i, path, token)
    ensures Sound(After(w, NewConnect(i, user, path, token)))
  {
    hide Reachable, AfterConnect, Step;
    var c, d, named := |w.connections|, Connection(0, false, Disconnected, token), MarksOf(w, token).service;
    var v, s, t := Append(w, d), View(w, i), AfterConnect(View(w, i), c, user, path, named);
    AppendKeeps(w, d);
    AfterFields(s, c, user, path, named);
    ConnectReach(s, c, user, path, named);
    ConnectLog(s, c, user, path, named);
    assert Alone(v, i, token) by {
      forall j | 0 <= j < |v.proxies| && j != i ensures !ConnectsWith(v, j, token) {
        assert !ConnectsWith(w, j, token);
      }
    }
    hide Sound, Alone;
    assert Sound(v) && Bounded(t.log, Put(v, i, t).connections) by { BoundedNew(w, v, i, t, c, path); }
    PutKeeps(v, i, t);
  }

  lemma BoundedNew(w: World, v: World, i: nat, t: State, c: nat, path: Option<QString>)
    requires Sound(w) && WellFormed(v) && i < |w.proxies| == |v.proxies| && c == |w.connections| && |v.connections| == c + 1
    requires forall d :: 0 <= d < c ==> LinkOf(v, d) == LinkOf(w, d)
    requires t.log.accepted.Keys == w.proxies[i].log.accepted.Keys + {Origin(c, 1, path)}
    requires t.link.bus == c && t.link.next == 1
    ensures Bounded(t.log, Put(v, i, t).connections)
  {
    hide Reachable;
    forall k | k in t.log.accepted
      ensures k.bus < |v.connections| && k.id <= Put(v, i, t).connections[k.bus].next
    {
      assert k.bus < c ==> LinkOf(v, k.bus) == LinkOf(w, k.bus);
      assert Bounded(w.proxies[i].log, w.connections);
      assert k in w.proxies[i].log.accepted || k == Origin(c, 1, path);
    }
  }

  lemma ConnectReach(s: State, bus: nat, user: nat, path: Option<QString>, named: Option<QString>)
    requires Reachable(s) && Idle(s) && Enabled(s, ConnectTo(bus, user, path, named)) && (path.Some? || named.None?)
    ensures Reachable(AfterConnect(s, bus, user, path, named))
  {
    hide Reachable;
    ReachableStep(s, ConnectTo(bus, user, path, named));
  }

  lemma ConnectLog(s: State, bus: nat, user: nat, path: Option<QString>, named: Option<QString>)
    ensures AfterConnect(s, bus, user, path, named).log.accepted.Keys == s.log.accepted.Keys + {Origin(bus, 1, path)}
  {
  }

  lemma AppendKeeps(w: World, d: Connection)
    requires Sound(w) && d.token <= |w.tokens| && Used(d)
    ensures Sound(Append(w, d))
  {
    OthersKeep(w, Append(w, d));
  }

  lemma TouchKeeps(w: World, token: nat, marks: Marks)
    requires Sound(w) && Careful(w, Touch(token, marks))
    ensures Sound(After(w, Touch(token, marks)))
  {
    hide Reachable;
    var v := After(w, Touch(token, marks));
    forall j | 0 <= j < |w.proxies| ensures SeesOthers(w, v, j) {
      assert !ConnectsWith(w, j, token);
    }
    OthersKeep(w, v);
  }

  lemma CarefulKeeps(w: World, e: WorldEvent)
    requires Sound(w) && Careful(w, e)
    ensures Sound(After(w, e))
  {
    match e
    case Act(i, f) => ActKeeps(w, i, f);
    case NewConnect(i, user, path, token) => NewConnectKeeps(w, i, user, path, token);
    case Assign(i, c) => AssignKeeps(w, i, c);
    case Appears(c) => AppendKeeps(w, c);
    case OtherCall(c) => OtherCallKeeps(w, c);
    case Cut(c) => CutKeeps(w, c);
    case Touch(token, marks) => TouchKeeps(w, token, marks);
  }

  lemma OtherCallKeeps(w: World, c: nat)
    requires Sound(w) && Possible(w, OtherCall(c))
    ensures Sound(After(w, OtherCall(c)))
  {
    hide Reachable;
    OthersKeep(w, After(w, OtherCall(c)));
  }

  lemma CutKeeps(w: World, c: nat)
    requires Sound(w) && Possible(w, Cut(c))
    ensures Sound(After(w, Cut(c)))
  {
    hide Reachable;
    OthersKeep(w, After(w, Cut(c)));
  }

  lemma {:induction false} SoundAlways(w: World, events: seq<WorldEvent>, t: World)
    requires Sound(w) && Leads(w, events, t)
    ensures Sound(t)
    decreases |events|
  {
    hide MayConnect, MayAssign, After, Possible;
    if events != [] {
      CarefulKeeps(w, events[0]);
      SoundAlways(After(w, events[0]), events[1..], t);
    }
  }

  lemma AttainedSound(t: World)
    requires Attained(t)
    ensures Sound(t)
  {
    hide Leads, Reachable;
    var n: nat, events :| Leads(Begin(n), events, t);
    BeginSound(n);
    SoundAlways(Begin(n), events, t);
  }

  lemma BeginSound(n: nat)
    ensures Sound(Begin(n))
  {
    hide Reachable;
    forall i | 0 <= i < n ensures Reachable(View(Begin(n), i)) {
      StartReachable(i);
      assert View(Begin(n), i) == Start(i);
    }
  }

  /** So what is proved of a proxy by itself holds of each of them in every run. */
  lemma EachReachable(t: World, i: nat)
    requires Attained(t) && i < |t.proxies|
    ensures WellFormed(t) && Reachable(View(t, i))
  {
    AttainedSound(t);
  }

  /** In every careful run each proxy gets what the results promise. */
  lemma AlwaysKept(t: World)
    requires Attained(t)
    ensures AllKept(t)
  {
    AttainedSound(t);
    SoundKept(t);
  }

  lemma SoundKept(t: World)
    requires Sound(t)
    ensures AllKept(t)
  {
    hide Reachable, Right, Steady;
    forall i | 0 <= i < |t.proxies| ensures Right(View(t, i)) && Steady(View(t, i)) {
      ReachableInv(View(t, i));
      InvRight(View(t, i));
      InvSteady(View(t, i));
    }
  }

  lemma InvSteady(s: State)
    requires Inv(s)
    ensures Steady(s)
  {
    hide Holding;
    forall layer: Layer, j | j in s.entries.At(layer) ensures s.entries.At(layer)[j].origin.bus == s.link.bus {
      OnThisBus(s, layer, j);
    }
  }

  // ------------------------------------------------------------- exactly when

  /** A connect keeps the promises to everyone, in all that may follow, exactly when nothing is
      under way at its proxy, no other connect is under way with its token, and the token names
      no service but the one asked for. */
  lemma ConnectExactly(w: World, i: nat, user: nat, path: Option<QString>, token: nat)
    requires Attained(w) && i < |w.proxies| && token <= |w.tokens|
    ensures WellFormed(w)
    ensures (forall events, t :: Leads(After(w, NewConnect(i, user, path, token)), events, t) ==> AllRight(t))
            <==> MayConnect(w, i, path, token)
  {
    hide Attained;
    AttainedSound(w);
    hide Sound, After, Leads, MayConnect, AllRight, Steady;
    SoundFormed(w);
    var e := NewConnect(i, user, path, token);
    if MayConnect(w, i, path, token) {
      NewConnectKeeps(w, i, user, path, token);
      forall events, t | Leads(After(w, e), events, t) ensures AllRight(t) {
        SoundAlways(After(w, e), events, t);
        SoundKept(t);
      }
    } else {
      var events, t := ConnectBreaks(w, i, user, path, token);
    }
  }

  /** An assignment keeps them, and keeps what is under way on its connection, exactly when
      nothing is, or the connection is the one the proxy is on. */
  lemma AssignExactly(w: World, i: nat, c: nat)
    requires Attained(w) && i < |w.proxies| && c < |w.connections|
    ensures WellFormed(w)
    ensures (forall events, t :: Leads(After(w, Assign(i, c)), events, t) ==> AllKept(t)) <==> MayAssign(w, i, c)
  {
    hide Attained;
    AttainedSound(w);
    hide Sound, After, Leads, MayAssign, AllKept;
    SoundFormed(w);
    var v := After(w, Assign(i, c));
    if MayAssign(w, i, c) {
      AssignKeeps(w, i, c);
      forall events, t | Leads(v, events, t) ensures AllKept(t) {
        SoundAlways(v, events, t);
        SoundKept(t);
      }
    } else {
      var none: seq<WorldEvent> := [];
      LeadsNowhere(v);
      AssignUnsettles(w, i, c);
      assert Leads(v, none, v) && !AllKept(v);
    }
  }

  lemma LeadsNowhere(w: World)
    requires WellFormed(w)
    ensures Leads(w, [], w)
  {
  }

  lemma AssignUnsettles(w: World, i: nat, c: nat)
    requires Sound(w) && Possible(w, Assign(i, c)) && !MayAssign(w, i, c)
    ensures !AllKept(After(w, Assign(i, c)))
  {
    hide Reachable, Right, Inv;
    var s, v := View(w, i), After(w, Assign(i, c));
    ReachableInv(s);
    var layer, j := SomeEntry(s);
    OnThisBus(s, layer, j);
    assert View(v, i) == TakeOver(s, LinkOf(w, c));
    assert j in View(v, i).entries.At(layer);
  }

  lemma SomeEntry(s: State) returns (layer: Layer, j: nat)
    requires !Idle(s)
    ensures j in s.entries.At(layer)
  {
    layer := if s.entries.get != map[] then GetService else if s.entries.select != map[] then SelectService else Connect;
    j :| j in s.entries.At(layer);
  }

  lemma SoundFormed(w: World)
    requires Sound(w)
    ensures WellFormed(w)
  {
  }

  function Acts(i: nat, events: seq<Event>): seq<WorldEvent> {
    if events == [] then [] else [Act(i, events[0])] + Acts(i, events[1..])
  }

  /** What a proxy can do by itself it can do among others. */
  lemma {:induction false} Lift(w: World, i: nat, events: seq<Event>, t: State)
    requires WellFormed(w) && i < |w.proxies| && Runs(View(w, i), events, t)
    ensures t.link.bus == w.proxies[i].connection && Leads(w, Acts(i, events), Put(w, i, t))
    decreases |events|
  {
    hide Enabled, Step;
    if events == [] {
      assert Put(w, i, View(w, i)) == w;
    } else {
      OwnLink(View(w, i), events[0]);
      var s := Step(View(w, i), events[0]);
      Lift(Put(w, i, s), i, events[1..], t);
      PutAgain(w, i, s, t);
      var acts := Acts(i, events);
      assert acts[0] == Act(i, events[0]) && acts[1..] == Acts(i, events[1..]);
      assert After(w, acts[0]) == Put(w, i, s);
    }
  }

  lemma PutAgain(w: World, i: nat, s: State, t: State)
    requires WellFormed(w) && i < |w.proxies| && t.link.bus == s.link.bus < |w.connections|
    ensures Put(Put(w, i, s), i, t) == Put(w, i, t)
  {
  }

  lemma {:induction false} LeadsThen(w: World, a: seq<WorldEvent>, u: World, b: seq<WorldEvent>, t: World)
    requires WellFormed(w) && Leads(w, a, u) && WellFormed(u) && Leads(u, b, t)
    ensures Leads(w, a + b, t)
    decreases |a|
  {
    hide After, MayConnect, MayAssign, Possible;
    if a == [] {
      assert a + b == b;
    } else {
      assert (a + b)[0] == a[0] && (a + b)[1..] == a[1..] + b;
      LeadsThen(After(w, a[0]), a[1..], u, b, t);
    }
  }

  /** Wrong for one, wrong for all. */
  lemma LiftWrong(w: World, i: nat, events: seq<Event>, t: State)
    requires WellFormed(w) && i < |w.proxies| && Runs(View(w, i), events, t) && !Right(t)
    ensures t.link.bus < |w.connections|
    ensures Leads(w, Acts(i, events), Put(w, i, t)) && !AllRight(Put(w, i, t))
  {
    hide Runs, Right, Leads, Put;
    Lift(w, i, events, t);
    assert View(Put(w, i, t), i) == t;
  }

  lemma ConnectBreaks(w: World, i: nat, user: nat, path: Option<QString>, token: nat)
    returns (events: seq<WorldEvent>, t: World)
    requires Sound(w) && Possible(w, NewConnect(i, user, path, token)) && !MayConnect(w, i, path, token)
    ensures Leads(After(w, NewConnect(i, user, path, token)), events, t) && !AllRight(t)
  {
    hide Reachable, Leads, AllRight, Inv, Runs, Right, AfterConnect;
    var s, c, named := View(w, i), |w.connections|, MarksOf(w, token).service;
    ReachableInv(s);
    var z := After(w, NewConnect(i, user, path, token));
    assert View(z, i) == AfterConnect(s, c, user, path, named);
    if !Idle(s) {
      var run, u := Collision(s, c, user, path, named);
      LiftWrong(z, i, run, u);
      events, t := Acts(i, run), Put(z, i, u);
    } else if !Alone(w, i, token) {
      var j: nat :| j < |w.proxies| && j != i && ConnectsWith(w, j, token);
      events, t := SharedTokenBreaks(w, i, user, path, token, j);
    } else {
      var run, u := NamedEnds(s, c, user, named.value);
      LiftWrong(z, i, run, u);
      events, t := Acts(i, run), Put(z, i, u);
    }
  }

  /** The other connect takes the mark of this one, which ends without its default token. */
  lemma SharedTokenBreaks(w: World, i: nat, user: nat, path: Option<QString>, token: nat, j: nat)
    returns (events: seq<WorldEvent>, t: World)
    requires Sound(w) && Possible(w, NewConnect(i, user, path, token)) && Idle(View(w, i))
    requires j < |w.proxies| && j != i && ConnectsWith(w, j, token)
    ensures Leads(After(w, NewConnect(i, user, path, token)), events, t) && !AllRight(t)
  {
    hide Sound, Reachable, Leads, AllRight, Runs, Right, Inv, After, Robbed, ConnectsWith;
    SoundFormed(w);
    var z := After(w, NewConnect(i, user, path, token));
    SharedViews(w, i, user, path, token, j);
    var run, u := ConnectRobs(View(w, j), View(z, j));
    Lift(z, j, run, u);
    var v := Put(z, j, u);
    RobbedOf(z, i, j, u);
    var last, x := RobbedEnds(View(v, i));
    LiftWrong(v, i, last, x);
    LeadsThen(z, Acts(j, run), v, Acts(i, last), Put(v, i, x));
    events, t := Acts(j, run) + Acts(i, last), Put(v, i, x);
  }

  /** Robbed as soon as the mark is cleared. */
  ghost predicate Exposed(s: State) {
    Robbed(s.(link := s.link.(setDefaultToken := false)))
  }

  lemma SharedViews(w: World, i: nat, user: nat, path: Option<QString>, token: nat, j: nat)
    requires Sound(w) && Possible(w, NewConnect(i, user, path, token)) && Idle(View(w, i))
    requires j < |w.proxies| && j != i && ConnectsWith(w, j, token)
    ensures WellFormed(w)
    ensures var z := After(w, NewConnect(i, user, path, token));
      && |z.proxies| == |w.proxies| && Exposed(View(z, i)) && SharesToken(z, i, j)
      && Inv(View(w, j)) && View(w, j).entries.connect != map[]
      && SameButMarks(View(w, j), View(z, j)) && View(z, j).link.setDefaultToken
  {
    hide Reachable, Inv;
    ReachableInv(View(w, i));
    ReachableInv(View(w, j));
    IdleTraffic(View(w, i));
    AfterFields(View(w, i), |w.connections|, user, path, MarksOf(w, token).service);
    hide AfterConnect;
  }

  ghost predicate SharesToken(z: World, i: nat, j: nat)
    requires WellFormed(z) && i < |z.proxies| && j < |z.proxies|
  {
    var c, d := z.proxies[i].connection, z.proxies[j].connection;
    i != j && c != d && z.connections[c].token == z.connections[d].token
  }

  lemma RobbedOf(z: World, i: nat, j: nat, u: State)
    requires WellFormed(z) && i < |z.proxies| && j < |z.proxies| && SharesToken(z, i, j) && Exposed(View(z, i))
    requires u.link.bus == z.proxies[j].connection && !u.link.setDefaultToken
    ensures Robbed(View(Put(z, j, u), i))
  {
  }

  /** A getService or selectService under way, under an id the connection has yet to give. */
  ghost predicate Ahead(s: State, next: nat) {
    exists layer: Layer, j :: layer != Connect && j in s.entries.At(layer) && next < j
  }

  /** Otherwise it need not come to harm, but it does so when the connection will give the id of
      something under way again, or when no service has been returned yet. */
  lemma AssignBreaks(w: World, i: nat, c: nat) returns (events: seq<WorldEvent>, t: World)
    requires Attained(w) && WellFormed(w) && Possible(w, Assign(i, c)) && !MayAssign(w, i, c)
    requires NoneReturned(View(w, i)) || (w.connections[c].connected && Ahead(View(w, i), w.connections[c].next))
    ensures Leads(After(w, Assign(i, c)), events, t) && !AllRight(t)
  {
    hide Attained, Reachable, Leads, AllRight, Inv, Runs, Right, NoneReturned;
    AttainedSound(w);
    var s, z := View(w, i), After(w, Assign(i, c));
    ReachableInv(s);
    if NoneReturned(s) {
      var run, u := AssignDrifts(s, LinkOf(w, c));
      var y := After(z, Cut(c));
      assert View(y, i) == Step(TakeOver(s, LinkOf(w, c)), Lost);
      LiftWrong(y, i, run, u);
      LeadsOne(z, Cut(c));
      LeadsThen(z, [Cut(c)], y, Acts(i, run), Put(y, i, u));
      events, t := [Cut(c)] + Acts(i, run), Put(y, i, u);
    } else {
      var layer: Layer, j :| layer != Connect && j in s.entries.At(layer) && w.connections[c].next < j;
      var run, u := AssignCollides(s, LinkOf(w, c), layer, j);
      LiftWrong(z, i, run, u);
      events, t := Acts(i, run), Put(z, i, u);
    }
  }

  lemma LeadsOne(w: World, e: WorldEvent)
    requires WellFormed(w) && Careful(w, e)
    ensures Leads(w, [e], After(w, e))
  {
    hide MayConnect, MayAssign, Possible, After;
    assert [e][1..] == [];
    assert Leads(After(w, e), [], After(w, e));
  }
}
