/** lib/clientproxy.cpp: the asynchronous getService, selectService and connect. Each is a chain
    of bus calls that ends in one completion for the caller. */
module AsyncRequests {
  import opened QtTypes
  import opened DataStream
  import opened ReturnValues

  /** The three kinds of request, by the slot of the proxy that carries them on. */
  datatype Layer = GetService | SelectService | Connect

  /** Where a completion goes: to the user's object, or to another slot of the proxy itself. */
  datatype Target = User(user: nat) | Slot(layer: Layer)

  /** What is asked of the server. */
  datatype Remote = Version | SelectOriginal(name: QString) | Select(name: QString) | Auth | OpenUrl | SetDefaultToken

  /** Part of a request's history: a call and its reply, or the history of a request made on
      its behalf and its result. */
  datatype Exchange = Told(remote: Remote, ret: ReturnValue) | Within(past: seq<Exchange>, ret: ReturnValue)

  /** The id a request was given; for the record, on which bus, and for which service. */
  datatype Origin = Origin(bus: nat, id: nat, name: Option<QString>)

  /** The struct of that name. What the code keeps is the target and the id; `past` is what the
      request has been told so far. */
  datatype ObjectSlot = ObjectSlot(target: Target, origin: Origin, past: seq<Exchange>)

  /** getServiceStatus: how far a getService has come. */
  datatype Status = Status(step: nat, name: QString, version: Int32, result: ReturnValue)

  datatype Call = Call(layer: Layer, remote: Remote)

  /** A queued invocation of one of the proxy's slots, with the id and return value it passes. */
  datatype Post = Post(layer: Layer, id: nat, news: Exchange)

  datatype Request = Request(layer: Layer, user: nat)

  /** What a user is told; for the record, the history, and the bus the proxy is on by then. */
  datatype Completion = Completion(
    layer: Layer,
    origin: Origin,
    user: nat,
    ret: ReturnValue,
    past: seq<Exchange>,
    bus: nat)

  datatype ConnectionState = Disconnected | Connecting | Connected

  /** What the proxy has taken over: a service, or the one service of the original protocol. */
  datatype Taken = Service(id: UInt32) | Original

  /** The current connection: its bus and the bus's last id, and the marks in its token. */
  datatype Link = Link(
    bus: nat,
    next: nat,
    connected: bool,
    state: ConnectionState,
    setDefaultToken: bool,
    service: Option<QString>)

  /** Bus calls not yet answered, of this bus and of each earlier one, and the proxy's event queue. */
  datatype Traffic = Traffic(pending: map<nat, Call>, stale: seq<map<nat, Call>>, queue: seq<Post>)

  /** The maps of the proxy, by the bare id of what a request waits for. */
  datatype Entries = Entries(get: map<nat, ObjectSlot>, select: map<nat, ObjectSlot>, connect: map<nat, ObjectSlot>)
  {
    function At(layer: Layer): map<nat, ObjectSlot> {
      match layer
      case GetService => get
      case SelectService => select
      case Connect => connect
    }

    function With(layer: Layer, m: map<nat, ObjectSlot>): Entries {
      match layer
      case GetService => this.(get := m)
      case SelectService => this.(select := m)
      case Connect => this.(connect := m)
    }
  }

  datatype Log = Log(accepted: map<Origin, Request>, completions: seq<Completion>)

  datatype State = State(
    link: Link,
    traffic: Traffic,
    entries: Entries,
    status: map<nat, Status>,
    taken: Option<Taken>,
    log: Log)

  const NO_ENTRIES := Entries(map[], map[], map[])

  /** A new proxy, with a connection object of its own. */
  function Start(bus: nat): State {
    State(Link(bus, 0, false, Disconnected, false, None), Traffic(map[], [], []), NO_ENTRIES, map[], None, Log(map[], []))
  }

  const NOT_CONNECTED := FromError(1, Q("Cannot call functions while not connected"))
  const UNKNOWN_STEP := FromError(1, Q("Reached an known step in the service selecting process!"))

  // ---------------------------------------------------------- specification

  function Minus(m: map<nat, ObjectSlot>, id: nat): map<nat, ObjectSlot> {
    m - {id}
  }

  function Plus(m: map<nat, ObjectSlot>, n: nat, to: ObjectSlot): map<nat, ObjectSlot> {
    m[n := to]
  }

  function Asked(q: Traffic, n: nat, call: Call): Traffic {
    q.(pending := q.pending[n := call])
  }

  function Posted(q: Traffic, p: Post): Traffic {
    q.(queue := q.queue + [p])
  }

  /** A call through the current bus. */
  function CallBus(s: State, layer: Layer, remote: Remote): State {
    var n := s.link.next + 1;
    s.(link := s.link.(next := n), traffic := Asked(s.traffic, n, Call(layer, remote)))
  }

  function SendReturnValue(s: State, layer: Layer, to: ObjectSlot, ret: ReturnValue): State {
    match to.target
    case User(user) =>
      s.(log := s.log.(completions := s.log.completions + [Completion(layer, to.origin, user, ret, to.past, s.link.bus)]))
    case Slot(outer) => s.(traffic := Posted(s.traffic, Post(outer, to.origin.id, Within(to.past, ret))))
  }

  /** Taking a request out of its map and sending its result on. */
  function Finish(s: State, layer: Layer, id: nat, news: Exchange, ret: ReturnValue): State
    requires id in s.entries.At(layer)
  {
    var m := s.entries.At(layer);
    var t := s.(entries := s.entries.With(layer, Minus(m, id)),
                status := if layer == GetService then s.status - {m[id].origin.id} else s.status);
    SendReturnValue(t, layer, m[id].(past := m[id].past + [news]), ret)
  }

  /** The same request under the id of its next bus call. */
  function MoveOn(s: State, layer: Layer, id: nat, news: Exchange, remote: Remote): State
    requires id in s.entries.At(layer)
  {
    var m, n := s.entries.At(layer), s.link.next + 1;
    CallBus(s, layer, remote)
      .(entries := s.entries.With(layer, Plus(Minus(m, id), n, m[id].(past := m[id].past + [news]))))
  }

  function NextOrigin(s: State, name: Option<QString>): Origin {
    Origin(s.link.bus, s.link.next + 1, name)
  }

  /** The asynchronous getService, up to its return. */
  function BeginGet(s: State, target: Target, name: QString): State {
    var n := s.link.next + 1;
    CallBus(s, GetService, Version)
      .(entries := s.entries.(get := Plus(s.entries.get, n, ObjectSlot(target, NextOrigin(s, Some(name)), []))),
        status := s.status[n := Status(0, name, 0, DEFAULT_RETURN)])
  }

  function BeginSelect(s: State, target: Target, name: QString): State {
    var n, t := s.link.next + 1, BeginGet(s, Slot(SelectService), name);
    t.(entries := t.entries.(
         select := Plus(t.entries.select, n, ObjectSlot(target, NextOrigin(s, Some(name)), []))))
  }

  /** The calls of the connection left behind may still be answered. */
  function Abandoned(q: Traffic): Traffic {
    Traffic(map[], q.stale + [q.pending], q.queue)
  }

  /** A connect gets a bus of its own, whose ids start again, and marks its token; without a
      path, a service the token already names stays there. */
  function NewBus(s: State, bus: nat, path: Option<QString>, named: Option<QString>): State {
    s.(link := Link(bus, 0, true, Connecting, true, if path.Some? then path else named),
       traffic := Abandoned(s.traffic))
  }

  function BeginConnect(s: State, bus: nat, user: nat, path: Option<QString>, named: Option<QString>): State {
    var t := NewBus(s, bus, path, named);
    CallBus(t, Connect, OpenUrl)
      .(entries := t.entries.(connect := Plus(t.entries.connect, 1, ObjectSlot(User(user), NextOrigin(t, path), []))))
  }

  /** The next bus call of a getService. When it cannot be made, the status goes back in although
      the request is over. */
  function Proceed(s: State, id: nat, news: Exchange, status: Status, remote: Remote): State
    requires id in s.entries.get
  {
    var k := s.entries.get[id].origin.id;
    var t := if s.link.connected then MoveOn(s, GetService, id, news, remote)
             else Finish(s, GetService, id, news, NOT_CONNECTED);
    t.(status := t.status[k := status.(step := status.step + 1)])
  }

  ghost predicate Known(s: State, id: nat) {
    id in s.entries.get && s.entries.get[id].origin.id in s.status
  }

  /** Assignment from a proxy or a service return value: the connection changes, and the maps stay. */
  function TakeOver(s: State, link: Link): State {
    if link.bus == s.link.bus then s else s.(link := link, traffic := Abandoned(s.traffic))
  }

  /** The server answers a selection with a service or an error. */
  predicate Answers(remote: Remote, ret: ReturnValue) {
    remote.Select? ==> ret.IsService() || ret.IsError()
  }

  /** A selection that has been answered so. */
  ghost predicate Selects(s: State, id: nat, ret: ReturnValue)
    requires Known(s, id)
  {
    var status := s.status[s.entries.get[id].origin.id];
    status.step == 2 && status.version != 0 ==> ret.IsService() || ret.IsError()
  }

  function GetServiceCompleted(s: State, id: nat, news: Exchange): State
    requires Known(s, id) && Selects(s, id, news.ret)
  {
    var ret := news.ret;
    if ret.IsError() then Finish(s, GetService, id, news, ret)
    else
      var status := s.status[s.entries.get[id].origin.id];
      if status.step == 0 then Proceed(s, id, news, status, Version)
      else if status.step == 1 then
        var version := ToInt(ret.value);
        Proceed(s, id, news, status.(version := version),
                if version == 0 then SelectOriginal(status.name) else Select(status.name))
      else if status.step == 2 then
        if status.version == 0 then Finish(s.(taken := Some(Original)), GetService, id, news, ret)
        else Proceed(s, id, news, status.(result := ret), Auth)
      else if status.step == 3 then Finish(s, GetService, id, news, status.result)
      else Finish(s, GetService, id, news, UNKNOWN_STEP)
  }

  function SelectServiceCompleted(s: State, id: nat, news: Exchange): State
    requires id in s.entries.select
  {
    var t := if news.ret.IsService() then s.(taken := Some(Service(news.ret.serviceId))) else s;
    Finish(t, SelectService, id, news, news.ret)
  }

  function GiveUp(s: State): State {
    s.(link := s.link.(setDefaultToken := false, service := None, state := Disconnected))
  }

  /** A connect goes on to select a service: the select is its next step. */
  function SelectInside(s: State, id: nat, news: Exchange, name: QString): State
    requires id in s.entries.connect
  {
    var m, n := s.entries.connect, s.link.next + 1;
    var t := BeginSelect(s, Slot(Connect), name);
    t.(entries := t.entries.(connect := Plus(Minus(m, id), n, m[id].(past := m[id].past + [news]))))
  }

  function ConnectCompleted(s: State, id: nat, news: Exchange): State
    requires id in s.entries.connect
  {
    var ret := news.ret;
    if ret.IsError() then Finish(GiveUp(s), Connect, id, news, ret)
    else if s.link.setDefaultToken then
      if s.link.connected then
        MoveOn(s.(link := s.link.(setDefaultToken := false)), Connect, id, news, SetDefaultToken)
      else Finish(GiveUp(s), Connect, id, news, NOT_CONNECTED)
    else if s.link.service.Some? then
      if s.link.connected then SelectInside(s.(link := s.link.(service := None)), id, news, s.link.service.value)
      else Finish(GiveUp(s), Connect, id, news, NOT_CONNECTED)
    else Finish(s.(link := s.link.(state := Connected)), Connect, id, news, ret)
  }

  // ------------------------------------------------------------------ steps

  datatype Event =
    | Get(user: nat, name: QString)
    | SelectFor(user: nat, name: QString)
    | ConnectTo(bus: nat, user: nat, path: Option<QString>, named: Option<QString>)
    | Assigned(link: Link)                             // the proxy takes over a connection
    | Elsewhere(link: Link)                            // what others do on the connection or its token
    | Replied(id: nat, ret: ReturnValue)               // the bus answers a call, as it does once per id
    | RepliedLate(bus: nat, id: nat, ret: ReturnValue) // an earlier bus does
    | Handled                                          // the proxy takes its next event
    | Lost                                             // the bus is gone

  /** A service of another connection takes the proxy back to it: no step of this model, since
      only an assignment meanwhile can have led away from there. */
  ghost predicate Handles(s: State, p: Post) {
    match p.layer
    case GetService => Known(s, p.id) && Selects(s, p.id, p.news.ret)
    case SelectService =>
      p.id in s.entries.select && (p.news.ret.IsService() ==> s.entries.select[p.id].origin.bus == s.link.bus)
    case Connect => p.id in s.entries.connect
  }

  /** The ids of a bus are given out in order. */
  ghost predicate Covers(log: Log, link: Link) {
    forall k :: k in log.accepted && k.bus == link.bus ==> k.id <= link.next
  }

  ghost predicate NeverOn(log: Log, bus: nat) {
    forall k :: k in log.accepted ==> k.bus != bus
  }

  ghost predicate Enabled(s: State, e: Event) {
    match e
    case Replied(id, ret) => id in s.traffic.pending && Answers(s.traffic.pending[id].remote, ret)
    case RepliedLate(bus, id, ret) =>
      && bus < |s.traffic.stale| && id in s.traffic.stale[bus]
      && Answers(s.traffic.stale[bus][id].remote, ret)
    case ConnectTo(bus, _, _, _) => bus != s.link.bus && NeverOn(s.log, bus)
    case Assigned(link) =>
      if link.bus == s.link.bus then link == s.link
      else Covers(s.log, link) && (link.connected ==> link.next >= 1)
    case Elsewhere(link) =>
      link.bus == s.link.bus && link.next >= s.link.next && (link.connected ==> s.link.connected)
    case Handled => s.traffic.queue != [] && Handles(s, s.traffic.queue[0])
    case _ => true
  }

  function Accept(s: State, layer: Layer, user: nat, origin: Origin): State {
    s.(log := s.log.(accepted := s.log.accepted[origin := Request(layer, user)]))
  }

  ghost function Handle(s: State, p: Post): State
    requires Handles(s, p)
  {
    match p.layer
    case GetService => GetServiceCompleted(s, p.id, p.news)
    case SelectService => SelectServiceCompleted(s, p.id, p.news)
    case Connect => ConnectCompleted(s, p.id, p.news)
  }

  function Popped(s: State): State
    requires s.traffic.queue != []
  {
    s.(traffic := s.traffic.(queue := s.traffic.queue[1..]))
  }

  function ReplyTo(q: Traffic, id: nat, ret: ReturnValue): Traffic
    requires id in q.pending
  {
    Posted(q.(pending := q.pending - {id}), Post(q.pending[id].layer, id, Told(q.pending[id].remote, ret)))
  }

  function LateReplyTo(q: Traffic, bus: nat, id: nat, ret: ReturnValue): Traffic
    requires bus < |q.stale| && id in q.stale[bus]
  {
    var call := q.stale[bus][id];
    Posted(q.(stale := q.stale[bus := q.stale[bus] - {id}]), Post(call.layer, id, Told(call.remote, ret)))
  }

  ghost function Step(s: State, e: Event): State
    requires Enabled(s, e)
  {
    match e
    case Get(user, name) =>
      if s.link.connected then Accept(BeginGet(s, User(user), name), GetService, user, NextOrigin(s, Some(name))) else s
    case SelectFor(user, name) =>
      if s.link.connected then Accept(BeginSelect(s, User(user), name), SelectService, user, NextOrigin(s, Some(name))) else s
    case ConnectTo(bus, user, path, named) =>
      Accept(BeginConnect(s, bus, user, path, named), Connect, user, Origin(bus, 1, path))
    case Assigned(link) => TakeOver(s, link)
    case Elsewhere(link) => s.(link := link)
    case Replied(id, ret) => s.(traffic := ReplyTo(s.traffic, id, ret))
    case RepliedLate(bus, id, ret) => s.(traffic := LateReplyTo(s.traffic, bus, id, ret))
    case Handled => Handle(Popped(s), s.traffic.queue[0])
    case Lost => s.(link := s.link.(connected := false, state := Disconnected))
  }

  // --------------------------------------------------------------- the class

  /** The proxy's own maps, with the connection it is on, what is under way there, and the
      record the properties speak of. */
  class ClientProxyPrivate {
    var link: Link
    var traffic: Traffic
    var getServiceObjects: map<nat, ObjectSlot>
    var getServiceStatus: map<nat, Status>
    var selectServiceObjects: map<nat, ObjectSlot>
    var connectObjects: map<nat, ObjectSlot>
    var taken: Option<Taken>
    var log: Log

    ghost function Contents(): State
      reads this
    {
      State(link, traffic, Entries(getServiceObjects, selectServiceObjects, connectObjects), getServiceStatus, taken, log)
    }

    constructor (bus: nat)
      ensures Contents() == Start(bus)
    {
      link, traffic := Start(bus).link, Start(bus).traffic;
      getServiceObjects, getServiceStatus, selectServiceObjects, connectObjects := map[], map[], map[], map[];
      taken, log := None, Start(bus).log;
    }

    method CallFunction(layer: Layer, remote: Remote) returns (id: Option<nat>)
      modifies this`link, this`traffic
      ensures id == if old(link).connected then Some(old(link).next + 1) else None
      ensures Contents() == if old(link).connected then CallBus(old(Contents()), layer, remote) else old(Contents())
    {
      if !link.connected {
        return None;
      }
      link := link.(next := link.next + 1);
      traffic := traffic.(pending := traffic.pending[link.next := Call(layer, remote)]);
      id := Some(link.next);
    }

    method Send(layer: Layer, to: ObjectSlot, ret: ReturnValue)
      modifies this`traffic, this`log
      ensures Contents() == SendReturnValue(old(Contents()), layer, to, ret)
    {
      match to.target
      case User(user) =>
        log := log.(completions := log.completions + [Completion(layer, to.origin, user, ret, to.past, link.bus)]);
      case Slot(outer) =>
        traffic := traffic.(queue := traffic.queue + [Post(outer, to.origin.id, Within(to.past, ret))]);
    }

    method StartGet(target: Target, name: QString) returns (id: Option<nat>)
      modifies this`link, this`traffic, this`getServiceObjects, this`getServiceStatus
      ensures id == if old(link).connected then Some(old(link).next + 1) else None
      ensures Contents() == if old(link).connected then BeginGet(old(Contents()), target, name) else old(Contents())
    {
      id := CallFunction(GetService, Version);
      if id.Some? {
        getServiceStatus := getServiceStatus[id.value := Status(0, name, 0, DEFAULT_RETURN)];
        getServiceObjects :=
          getServiceObjects[id.value := ObjectSlot(target, Origin(link.bus, id.value, Some(name)), [])];
      }
    }

    method StartSelect(target: Target, name: QString) returns (id: Option<nat>)
      modifies this`link, this`traffic, this`getServiceObjects, this`getServiceStatus, this`selectServiceObjects
      ensures id == if old(link).connected then Some(old(link).next + 1) else None
      ensures Contents() == if old(link).connected then BeginSelect(old(Contents()), target, name) else old(Contents())
    {
      id := StartGet(Slot(SelectService), name);
      if id.None? {
        return;
      }
      selectServiceObjects :=
        selectServiceObjects[id.value := ObjectSlot(target, Origin(link.bus, id.value, Some(name)), [])];
    }

    method Record(origin: Origin, layer: Layer, user: nat)
      modifies this`log
      ensures Contents() == Accept(old(Contents()), layer, user, origin)
    {
      log := log.(accepted := log.accepted[origin := Request(layer, user)]);
    }

    /** The three requests as a user makes them. */
    method GetFor(user: nat, name: QString) returns (id: Option<nat>)
      modifies this
      ensures id == if old(link).connected then Some(old(link).next + 1) else None
      ensures Contents() == Step(old(Contents()), Get(user, name))
    {
      id := StartGet(User(user), name);
      if id.Some? {
        Record(Origin(link.bus, id.value, Some(name)), GetService, user);
      }
    }

    method SelectServiceFor(user: nat, name: QString) returns (id: Option<nat>)
      modifies this
      ensures id == if old(link).connected then Some(old(link).next + 1) else None
      ensures Contents() == Step(old(Contents()), SelectFor(user, name))
    {
      id := StartSelect(User(user), name);
      if id.Some? {
        Record(Origin(link.bus, id.value, Some(name)), SelectService, user);
      }
    }

    /** The protocol is known and the url has been taken apart; the old connection is let go. */
    method StartConnect(bus: nat, user: nat, path: Option<QString>, named: Option<QString>)
      modifies this`link, this`traffic, this`connectObjects
      ensures Contents() == BeginConnect(old(Contents()), bus, user, path, named)
    {
      traffic := Abandoned(traffic);
      link := Link(bus, 0, true, Connecting, true, named);
      if path.Some? {
        link := link.(service := path);
      }
      var r := CallFunction(Connect, OpenUrl);
      connectObjects := connectObjects[r.value := ObjectSlot(User(user), Origin(bus, r.value, path), [])];
    }

    method ConnectFor(bus: nat, user: nat, path: Option<QString>, named: Option<QString>) returns (id: nat)
      requires bus != link.bus && NeverOn(log, bus)
      modifies this
      ensures id == 1
      ensures Contents() == Step(old(Contents()), ConnectTo(bus, user, path, named))
    {
      hide BeginConnect;
      id := 1;
      StartConnect(bus, user, path, named);
      Record(Origin(bus, id, path), Connect, user);
    }

    /** The connection's part of both assignment operators. */
    method AssignConnection(other: Link)
      modifies this`link, this`traffic
      ensures Contents() == TakeOver(old(Contents()), other)
    {
      if other.bus != link.bus {
        traffic := Abandoned(traffic);
        link := other;
      }
    }

    method FinishGet(id: nat, news: Exchange, ret: ReturnValue)
      requires id in getServiceObjects
      modifies this`getServiceObjects, this`getServiceStatus, this`traffic, this`log
      ensures Contents() == Finish(old(Contents()), GetService, id, news, ret)
    {
      var to := getServiceObjects[id];
      getServiceObjects := getServiceObjects - {id};
      getServiceStatus := getServiceStatus - {to.origin.id};
      Send(GetService, to.(past := to.past + [news]), ret);
    }

    method GetServiceCompletedSlot(id: nat, news: Exchange)
      requires Known(Contents(), id) && Selects(Contents(), id, news.ret)
      modifies this
      ensures Contents() == GetServiceCompleted(old(Contents()), id, news)
    {
      hide Finish;
      var ret := news.ret;
      if ret.IsError() {
        FinishGet(id, news, ret);
        return;
      }
      var functionId := getServiceObjects[id].origin.id;
      var status := getServiceStatus[functionId];
      var r: Option<nat>;
      if status.step == 0 {
        r := CallFunction(GetService, Version);
      } else if status.step == 1 {
        status := status.(version := ToInt(ret.value));
        if status.version == 0 {
          r := CallFunction(GetService, SelectOriginal(status.name));
        } else {
          r := CallFunction(GetService, Select(status.name));
        }
      } else if status.step == 2 && status.version != 0 {
        status := status.(result := ret);
        r := CallFunction(GetService, Auth);
      } else {
        if status.step == 2 {
          taken := Some(Original);
        }
        FinishGet(id, news, if status.step == 2 then ret else if status.step == 3 then status.result else UNKNOWN_STEP);
        return;
      }
      if r.None? {
        FinishGet(id, news, NOT_CONNECTED);
      } else {
        var to := getServiceObjects[id];
        getServiceObjects := (getServiceObjects - {id})[r.value := to.(past := to.past + [news])];
      }
      status := status.(step := status.step + 1);
      getServiceStatus := getServiceStatus[functionId := status];
    }

    method SelectServiceCompletedSlot(id: nat, news: Exchange)
      requires id in selectServiceObjects
      modifies this
      ensures Contents() == SelectServiceCompleted(old(Contents()), id, news)
    {
      if news.ret.IsService() {
        taken := Some(Service(news.ret.serviceId));
      }
      var to := selectServiceObjects[id];
      selectServiceObjects := selectServiceObjects - {id};
      Send(SelectService, to.(past := to.past + [news]), news.ret);
    }

    method FinishConnect(id: nat, news: Exchange, ret: ReturnValue)
      requires id in connectObjects
      modifies this`connectObjects, this`traffic, this`log
      ensures Contents() == Finish(old(Contents()), Connect, id, news, ret)
    {
      var to := connectObjects[id];
      connectObjects := connectObjects - {id};
      Send(Connect, to.(past := to.past + [news]), ret);
    }

    method ConnectCompletedSlot(id: nat, news: Exchange)
      requires id in connectObjects
      modifies this
      ensures Contents() == ConnectCompleted(old(Contents()), id, news)
    {
      hide Finish;
      if news.ret.IsError() {
        link := link.(setDefaultToken := false, service := None, state := Disconnected);
        FinishConnect(id, news, news.ret);
        return;
      }
      var r: Option<nat>;
      if link.setDefaultToken {
        link := link.(setDefaultToken := false);
        r := CallFunction(Connect, SetDefaultToken);
      } else if link.service.Some? {
        var name := link.service.value;
        link := link.(service := None);
        r := StartSelect(Slot(Connect), name);
      } else {
        link := link.(state := Connected);
        FinishConnect(id, news, news.ret);
        return;
      }
      if r.None? {
        link := link.(setDefaultToken := false, service := None, state := Disconnected);
        FinishConnect(id, news, NOT_CONNECTED);
      } else {
        var to := connectObjects[id];
        connectObjects := (connectObjects - {id})[r.value := to.(past := to.past + [news])];
      }
    }
  }
}
