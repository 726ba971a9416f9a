/** lib/serverprotocolinstancebase.cpp: the services one client can reach, under which numbers,
    and which of them still wait for their authentication. */
module ServiceTable {
  import opened QtTypes
  import opened DataStream
  import opened ReturnValues
  import opened Signatures

  const NO_ID: UInt32 := 0xFFFF_FFFF
  const AUTH := Q("auth")

  datatype AuthToken = AuthToken(client: map<QString, QVariant>, isDefault: bool)

  /** A QVariant that may also hold an AuthToken. */
  datatype Argument = Plain(value: QVariant) | Token(token: AuthToken)
  {
    function Text(): QString {
      if Plain? then ToText(value) else []
    }

    function AsToken(): AuthToken {
      if Token? then token else AuthToken(map[], false)
    }
  }

  /** What a service function gives back: a value, or a service object. */
  datatype Given = Value(ret: ReturnValue) | Object(proxy: nat)

  /** Whatever the service's own code does with a call. */
  type Code = (nat, Sig, seq<Argument>) -> Given

  /** The fields: service objects are numbers here, equal when their pointers are. */
  datatype Table = Table(
    services: map<UInt32, nat>,
    needsAuth: seq<UInt32>,
    curServiceId: UInt32,
    tokens: map<nat, AuthToken>,
    defaultToken: AuthToken)

  const NEW_TABLE := Table(map[], [], 0, map[], AuthToken(map[], false))

  /** A call that reached a service object. */
  datatype Run = Run(proxy: nat, func: Sig, args: seq<Argument>, ok: bool)

  datatype Result = Result(table: Table, ret: ReturnValue, run: Option<Run>)

  function NoTemplate(name: QString): ReturnValue {
    FromError(1, Q("Received service template object was null (") + name + Q(")"))
  }

  const NO_SERVICE := FromError(1, Q("The service object does not exist"))
  const NOT_AUTHENTICATED := FromError(1, Q("You must authenticate before selecting a service!"))
  const TOO_FEW := FromError(1, Q("Not enough paramters for that signature"))

  // ---------------------------------------------------------- specification

  function Register(t: Table, proxy: nat): Table {
    var id := ToUInt32(t.curServiceId + 1);
    t.(curServiceId := id, services := t.services[id := proxy])
  }

  /** getServiceObject(name, username, pass); `auth` is what the service's own auth() says. */
  function OpenAuthenticated(t: Table, name: QString, made: Option<nat>, auth: ReturnValue): Result {
    if made.None? then Result(t, NoTemplate(name), None)
    else
      var u := Register(t, made.value);
      Result(u, if auth.IsError() then auth else auth.SetServiceId(u.curServiceId), None)
  }

  /** getServiceObject(name). */
  function Open(t: Table, name: QString, made: Option<nat>): Result {
    if made.None? then Result(t, NoTemplate(name), None)
    else
      var u := Register(t, made.value);
      Result(u.(needsAuth := u.needsAuth + [u.curServiceId]), DEFAULT_RETURN.SetServiceId(u.curServiceId), None)
  }

  /** service(id); `first` is the key the hash iterates first. */
  function Lookup(t: Table, id: UInt32, first: UInt32): Option<nat>
    requires t.services != map[] ==> first in t.services
  {
    if id == 0 then if t.services == map[] then None else Some(t.services[first])
    else if id in t.services then Some(t.services[id])
    else None
  }

  /** QHash::key: some key of the value, or the default. */
  ghost function KeyOf(services: map<UInt32, nat>, proxy: nat, fallback: UInt32): (id: UInt32)
    ensures proxy in services.Values ==> id in services && services[id] == proxy
    ensures proxy !in services.Values ==> id == fallback
  {
    if proxy in services.Values then
      var id :| id in services && services[id] == proxy; id
    else fallback
  }

  predicate IsTokenType(name: QString) {
    name == Q("AuthToken") || name == Q("QtRpc::AuthToken")
  }

  /** A default token stands for the one of the connection. */
  function Substituted(t: Table, func: Sig, args: seq<Argument>): (r: seq<Argument>)
    ensures |r| == |args|
  {
    seq(|args|, i requires 0 <= i < |args| =>
      if i < |func.args| && IsTokenType(func.args[i]) && args[i].AsToken().isDefault then Token(t.defaultToken)
      else args[i])
  }

  const USER_PASSWORD := Sig(AUTH, [Q("QString"), Q("QString")])
  const WITH_TOKEN := Sig(AUTH, [Q("AuthToken")])

  function FromUser(name: QString, password: QString): AuthToken {
    AuthToken(map[Q("username") := Str(name), Q("password") := Str(password)], false)
  }

  /** What callFunction hands to the service. */
  function Prepared(t: Table, func: Sig, args: seq<Argument>): (Sig, seq<Argument>)
    requires func == USER_PASSWORD ==> |args| >= 2
  {
    if func == USER_PASSWORD then
      (WITH_TOKEN, Substituted(t, WITH_TOKEN, [Token(FromUser(args[0].Text(), args[1].Text()))]))
    else (func, Substituted(t, func, args))
  }

  function Without(ids: seq<UInt32>, id: UInt32): (r: seq<UInt32>)
    ensures forall k :: k in r <==> k in ids && k != id
  {
    if ids == [] then []
    else (if ids[0] == id then [] else [ids[0]]) + Without(ids[1..], id)
  }

  /** parseReturn: a service object goes out as its number, a new one if it had none. */
  ghost function ParseReturn(t: Table, given: Given): (Table, ReturnValue) {
    match given
    case Value(ret) => (t, ret)
    case Object(proxy) =>
      var id := KeyOf(t.services, proxy, NO_ID);
      if id == NO_ID then
        var u := Register(t, proxy);
        (u, DEFAULT_RETURN.SetServiceId(u.curServiceId))
      else (t, DEFAULT_RETURN.SetServiceId(id))
  }

  predicate Failed(given: Given) {
    given.Value? && given.ret.IsError()
  }

  /** What a successful auth() changes. */
  function Authenticated(t: Table, id: UInt32, proxy: nat, args: seq<Argument>): Table {
    var u := t.(needsAuth := Without(t.needsAuth, id));
    if args == [] then u else u.(tokens := u.tokens[proxy := args[0].AsToken()])
  }

  ghost function CallFunction(t: Table, code: Code, first: UInt32, id: UInt32, func: Sig, args: seq<Argument>): Result
    requires t.services != map[] ==> first in t.services
  {
    var srv := Lookup(t, id, first);
    if srv.None? then Result(t, NO_SERVICE, None)
    else if func.name != AUTH && id in t.needsAuth then Result(t, NOT_AUTHENTICATED, None)
    else if func == USER_PASSWORD && |args| < 2 then Result(t, TOO_FEW, None)
    else
      var (f, a) := Prepared(t, func, args);
      var given := code(srv.value, f, a);
      var u := if f.name == AUTH && !Failed(given) then Authenticated(t, id, srv.value, a) else t;
      var (v, ret) := ParseReturn(u, given);
      Result(v, ret, Some(Run(srv.value, f, a, !Failed(given))))
  }

  // --------------------------------------------------------------- the class

  class ServerProtocolInstanceBase {
    var services: map<UInt32, nat>
    var needsAuth: seq<UInt32>
    var curServiceId: UInt32
    var currentFunctionId: UInt32
    var tokens: map<nat, AuthToken>
    var defaultToken: AuthToken

    ghost function Contents(): Table
      reads this
    {
      Table(services, needsAuth, curServiceId, tokens, defaultToken)
    }

    constructor ()
      ensures Contents() == NEW_TABLE && currentFunctionId == 0
    {
      services, needsAuth, curServiceId, currentFunctionId := map[], [], 0, 0;
      tokens, defaultToken := map[], AuthToken(map[], false);
    }

    method GetServiceObjectFor(name: QString, made: Option<nat>, auth: ReturnValue) returns (ret: ReturnValue)
      modifies this
      ensures Result(Contents(), ret, None) == OpenAuthenticated(old(Contents()), name, made, auth)
    {
      if made.None? {
        return NoTemplate(name);
      }
      curServiceId := ToUInt32(curServiceId + 1);
      services := services[curServiceId := made.value];
      ret := auth;
      if !ret.IsError() {
        ret := ret.SetServiceId(curServiceId);
      }
    }

    method GetServiceObject(name: QString, made: Option<nat>) returns (ret: ReturnValue)
      modifies this
      ensures Result(Contents(), ret, None) == Open(old(Contents()), name, made)
    {
      if made.None? {
        return NoTemplate(name);
      }
      curServiceId := ToUInt32(curServiceId + 1);
      services := services[curServiceId := made.value];
      needsAuth := needsAuth + [curServiceId];
      ret := DEFAULT_RETURN.SetServiceId(curServiceId);
    }

    method ParseGiven(given: Given) returns (ret: ReturnValue)
      requires OneId(services)
      modifies this`services, this`curServiceId
      ensures (Contents(), ret) == ParseReturn(old(Contents()), given)
    {
      match given
      case Value(value) =>
        ret := value;
      case Object(proxy) =>
        var id: UInt32 := NO_ID;
        if k: UInt32 :| k in services && services[k] == proxy {
          id := k;
        }
        if id == NO_ID {
          curServiceId := ToUInt32(curServiceId + 1);
          id := curServiceId;
          services := services[curServiceId := proxy];
        }
        ret := DEFAULT_RETURN.SetServiceId(id);
    }

    method Call(callId: UInt32, code: Code, first: UInt32, id: UInt32, func: Sig, args: seq<Argument>)
      returns (ret: ReturnValue, run: Option<Run>)
      requires OneId(services) && (services != map[] ==> first in services)
      modifies this
      ensures Result(Contents(), ret, run) == CallFunction(old(Contents()), code, first, id, func, args)
      ensures run.Some? ==> currentFunctionId == 0
    {
      ghost var before := Contents();
      run := None;
      var srv := Lookup(Table(services, needsAuth, curServiceId, tokens, defaultToken), id, first);
      if srv.None? {
        return NO_SERVICE, None;
      }
      if func.name != AUTH && id in needsAuth {
        return NOT_AUTHENTICATED, None;
      }
      var sig, list := func, args;
      if sig == USER_PASSWORD {
        if |list| < 2 {
          return TOO_FEW, None;
        }
        sig := WITH_TOKEN;
        list := [Token(FromUser(list[0].Text(), list[1].Text()))];
      }
      ghost var asked := list;
      for i := 0 to |sig.args|
        invariant |list| == |asked|
        invariant forall k :: 0 <= k < |list| ==> list[k] == if k < i then Substituted(before, sig, asked)[k] else asked[k]
      {
        if i < |list| && IsTokenType(sig.args[i]) && list[i].AsToken().isDefault {
          list := list[i := Token(defaultToken)];
        }
      }
      assert list == Substituted(before, sig, asked);
      currentFunctionId := callId;
      var given := code(srv.value, sig, list);
      if sig.name == AUTH && !Failed(given) {
        needsAuth := Without(needsAuth, id);
        if |list| > 0 {
          tokens := tokens[srv.value := list[0].AsToken()];
        }
      }
      currentFunctionId := 0;
      ret := ParseGiven(given);
      run := Some(Run(srv.value, sig, list, !Failed(given)));
    }

    method ServiceId(proxy: nat) returns (id: UInt32)
      requires OneId(services)
      ensures id == KeyOf(services, proxy, 0)
    {
      id := 0;
      if k: UInt32 :| k in services && services[k] == proxy {
        id := k;
      }
    }
  }

  /** No object under two numbers. */
  ghost predicate OneId(services: map<UInt32, nat>) {
    forall i, j :: i in services && j in services && services[i] == services[j] ==> i == j
  }

  // ------------------------------------------------------------------ runs

  /** What happened on the connection. */
  datatype Entry =
    | Opened(id: UInt32, proxy: nat, gated: bool)
    | Called(id: UInt32, run: Run)

  datatype State = State(table: Table, history: seq<Entry>, numbers: nat)

  const START := State(NEW_TABLE, [], 0)

  datatype Event =
    | SelectOriginal(name: QString, made: Option<nat>, auth: ReturnValue)
    | Select(name: QString, made: Option<nat>)
    | SetDefaultToken(token: AuthToken)
    | Function(id: UInt32, first: UInt32, func: Sig, args: seq<Argument>, code: Code)

  /** A service template makes a new object each time. */
  ghost predicate Enabled(s: State, e: Event) {
    match e
    case SelectOriginal(_, made, _) => made.Some? ==> made.value !in s.table.services.Values
    case Select(_, made) => made.Some? ==> made.value !in s.table.services.Values
    case Function(_, first, _, _, _) => s.table.services != map[] ==> first in s.table.services
    case SetDefaultToken(_) => true
  }

  ghost function ResultOf(s: State, e: Event): Result
    requires Enabled(s, e)
  {
    match e
    case SelectOriginal(name, made, auth) => OpenAuthenticated(s.table, name, made, auth)
    case Select(name, made) => Open(s.table, name, made)
    case Function(id, first, func, args, code) => CallFunction(s.table, code, first, id, func, args)
    case SetDefaultToken(token) => Result(s.table.(defaultToken := token), FromVariant(Bool(true)), None)
  }

  /** The number a step gave out shows as a change of the counter. */
  ghost function Step(s: State, e: Event): State
    requires Enabled(s, e)
  {
    var r := ResultOf(s, e);
    var ran := if r.run.Some? then s.history + [Called(e.id, r.run.value)] else s.history;
    var id := r.table.curServiceId;
    if id == s.table.curServiceId then State(r.table, ran, s.numbers)
    else State(r.table, ran + [Opened(id, r.table.services[id], e.Select?)], s.numbers + 1)
  }

  ghost predicate Reaches(s: State, events: seq<Event>, t: State)
    decreases |events|
  {
    if events == [] then s == t
    else Enabled(s, events[0]) && Reaches(Step(s, events[0]), events[1..], t)
  }

  /** Runs that give out at most 2^32 - 2 numbers: -1 means no number, and 0 any service. */
  ghost predicate Reachable(t: State) {
    t.numbers < NO_ID && exists events :: Reaches(START, events, t)
  }

  // ---------------------------------------------------------- what is owed

  ghost predicate Grants(e: Entry, id: UInt32) {
    e.Called? && e.id == id && e.run.func.name == AUTH && e.run.ok
  }

  /** Opened without authentication, and not authenticated since. */
  ghost predicate Gated(history: seq<Entry>, id: UInt32) {
    exists i :: 0 <= i < |history| && history[i].Opened? && history[i].id == id && history[i].gated
      && forall j :: i < j < |history| ==> !Grants(history[j], id)
  }

  ghost predicate OpenedAs(history: seq<Entry>, id: UInt32, proxy: nat) {
    exists i :: 0 <= i < |history| && history[i].Opened? && history[i].id == id && history[i].proxy == proxy
  }

  /** Nothing but auth was run through a number of its own while that number was gated. */
  ghost predicate RanOpen(history: seq<Entry>) {
    forall k :: 0 <= k < |history| && history[k].Called? && history[k].id != 0 && history[k].run.func.name != AUTH ==>
      !Gated(history[..k], history[k].id)
  }

  /** A call through a number of its own reached the object of that number. */
  ghost predicate RanOwn(history: seq<Entry>, services: map<UInt32, nat>) {
    forall k :: 0 <= k < |history| && history[k].Called? && history[k].id != 0 ==>
      history[k].id in services && services[history[k].id] == history[k].run.proxy
  }

  ghost predicate Inv(s: State) {
    && OneId(s.table.services)
    && s.table.curServiceId == s.numbers
    && (forall id :: id in s.table.services <==> 1 <= id <= s.numbers)
    && (forall id: UInt32 :: id in s.table.needsAuth <==> Gated(s.history, id))
    && (forall id: UInt32, proxy: nat :: OpenedAs(s.history, id, proxy) <==>
          id in s.table.services && s.table.services[id] == proxy)
    && RanOpen(s.history)
    && RanOwn(s.history, s.table.services)
  }

  lemma GatedSnoc(h: seq<Entry>, e: Entry, id: UInt32)
    ensures Gated(h + [e], id) <==>
            (e.Opened? && e.id == id && e.gated) || (Gated(h, id) && !Grants(e, id))
  {
    var g, n := h + [e], |h|;
    assert g[n] == e && forall k :: 0 <= k < n ==> g[k] == h[k];
    if Gated(g, id) {
      var i :| 0 <= i < |g| && g[i].Opened? && g[i].id == id && g[i].gated
        && forall j :: i < j < |g| ==> !Grants(g[j], id);
      assert i < n ==> h[i].Opened? && !Grants(g[n], id);
      assert forall j :: i < j < n ==> !Grants(g[j], id);
    }
    if e.Opened? && e.id == id && e.gated {
      assert g[n].Opened?;
    }
    if Gated(h, id) && !Grants(e, id) {
      var i :| 0 <= i < |h| && h[i].Opened? && h[i].id == id && h[i].gated
        && forall j :: i < j < |h| ==> !Grants(h[j], id);
      assert g[i].Opened?;
    }
  }

  lemma OpenedSnoc(h: seq<Entry>, e: Entry, id: UInt32, proxy: nat)
    ensures OpenedAs(h + [e], id, proxy) <==> OpenedAs(h, id, proxy) || e == Opened(id, proxy, e.Opened? && e.gated)
  {
    var g, n := h + [e], |h|;
    assert g[n] == e && forall k :: 0 <= k < n ==> g[k] == h[k];
    if OpenedAs(h, id, proxy) {
      var i :| 0 <= i < |h| && h[i].Opened? && h[i].id == id && h[i].proxy == proxy;
      assert g[i].Opened?;
    }
  }

  lemma RanSnoc(h: seq<Entry>, e: Entry)
    requires RanOpen(h)
    requires e.Called? && e.id != 0 && e.run.func.name != AUTH ==> !Gated(h, e.id)
    ensures RanOpen(h + [e])
  {
    hide Gated;
    var g, n := h + [e], |h|;
    forall k | 0 <= k < |g| && g[k].Called? && g[k].id != 0 && g[k].run.func.name != AUTH
      ensures !Gated(g[..k], g[k].id)
    {
      assert g[..n] == h;
      assert k < n ==> g[..k] == h[..k] && g[k] == h[k];
    }
  }

  /** A new number for an object that has none. */
  lemma RegisterKeeps(s: State, proxy: nat, gated: bool)
    requires Inv(s) && s.numbers + 1 < NO_ID && proxy !in s.table.services.Values
    ensures var u := Register(s.table, proxy);
      var v := if gated then u.(needsAuth := u.needsAuth + [u.curServiceId]) else u;
      && Inv(State(v, s.history + [Opened(u.curServiceId, proxy, gated)], s.numbers + 1))
      && u.curServiceId == s.numbers + 1
  {
    hide Gated, OpenedAs, RanOpen;
    var u := Register(s.table, proxy);
    var v := if gated then u.(needsAuth := u.needsAuth + [u.curServiceId]) else u;
    var e := Opened(u.curServiceId, proxy, gated);
    RanSnoc(s.history, e);
    forall id: UInt32 ensures id in v.needsAuth <==> Gated(s.history + [e], id) {
      GatedSnoc(s.history, e, id);
    }
    forall id: UInt32, p: nat
      ensures OpenedAs(s.history + [e], id, p) <==> id in v.services && v.services[id] == p
    {
      OpenedSnoc(s.history, e, id, p);
    }
  }

  /** A call that reaches a service, before its answer is looked at. */
  lemma RunKeeps(s: State, id: UInt32, proxy: nat, func: Sig, args: seq<Argument>, ok: bool)
    requires Inv(s) && (func.name == AUTH || id !in s.table.needsAuth)
    requires id != 0 ==> id in s.table.services && s.table.services[id] == proxy
    ensures var u := if func.name == AUTH && ok then Authenticated(s.table, id, proxy, args) else s.table;
      Inv(State(u, s.history + [Called(id, Run(proxy, func, args, ok))], s.numbers))
  {
    hide Gated, OpenedAs, RanOpen, AUTH;
    var u := if func.name == AUTH && ok then Authenticated(s.table, id, proxy, args) else s.table;
    var e := Called(id, Run(proxy, func, args, ok));
    RanSnoc(s.history, e);
    forall k: UInt32 ensures k in u.needsAuth <==> Gated(s.history + [e], k) {
      GatedSnoc(s.history, e, k);
    }
    forall k: UInt32, p: nat ensures OpenedAs(s.history + [e], k, p) <==> OpenedAs(s.history, k, p) {
      OpenedSnoc(s.history, e, k, p);
    }
  }

  lemma FunctionKeeps(s: State, e: Event)
    requires Inv(s) && Enabled(s, e) && e.Function? && Step(s, e).numbers < NO_ID
    ensures Inv(Step(s, e))
  {
    hide Gated, OpenedAs, RanOpen, Substituted, OneId;
    var r := CallFunction(s.table, e.code, e.first, e.id, e.func, e.args);
    if r.run.Some? {
      var run, proxy := r.run.value, Lookup(s.table, e.id, e.first).value;
      var given := e.code(proxy, run.func, run.args);
      RunKeeps(s, e.id, proxy, run.func, run.args, run.ok);
      var u := if run.func.name == AUTH && run.ok then Authenticated(s.table, e.id, proxy, run.args) else s.table;
      var mid := State(u, s.history + [Called(e.id, run)], s.numbers);
      assert (r.table, r.ret) == ParseReturn(u, given);
      assert u.services == s.table.services && u.curServiceId == s.numbers;
      if given.Object? && KeyOf(u.services, given.proxy, NO_ID) == NO_ID {
        assert given.proxy !in u.services.Values;
        RegisterKeeps(mid, given.proxy, false);
      }
    }
  }

  /** Each step either leaves the counter alone or moves it on by one. */
  lemma StepKeeps(s: State, e: Event)
    requires Inv(s) && Enabled(s, e) && Step(s, e).numbers < NO_ID
    ensures Inv(Step(s, e))
  {
    if e.Function? {
      FunctionKeeps(s, e);
    } else if (e.Select? || e.SelectOriginal?) && e.made.Some? {
      assert Register(s.table, e.made.value).curServiceId != s.table.curServiceId;
      RegisterKeeps(s, e.made.value, e.Select?);
    }
  }

  lemma {:induction false} NumbersGrow(s: State, events: seq<Event>, t: State)
    requires Reaches(s, events, t)
    ensures s.numbers <= t.numbers
    decreases |events|
  {
    if events != [] {
      hide ResultOf;
      NumbersGrow(Step(s, events[0]), events[1..], t);
    }
  }

  lemma {:induction false} InvAlways(s: State, events: seq<Event>, t: State)
    requires Inv(s) && Reaches(s, events, t) && t.numbers < NO_ID
    ensures Inv(t)
    decreases |events|
  {
    hide Inv, Step, Enabled;
    if events != [] {
      var u := Step(s, events[0]);
      NumbersGrow(u, events[1..], t);
      StepKeeps(s, events[0]);
      InvAlways(u, events[1..], t);
    }
  }

  lemma ReachableInv(t: State)
    requires Reachable(t)
    ensures Inv(t)
  {
    var events :| Reaches(START, events, t);
    assert Inv(START);
    InvAlways(START, events, t);
  }

  // ---------------------------------------------------------------- results

  /** The numbers given out are 1, 2, 3, ...; each stays with the one object it was first given
      for, and no object has two. */
  lemma NumbersAndObjects(t: State, i: UInt32, j: UInt32)
    requires Reachable(t)
    ensures i in t.table.services <==> 1 <= i <= t.numbers
    ensures forall proxy: nat :: OpenedAs(t.history, i, proxy) <==>
              i in t.table.services && t.table.services[i] == proxy
    ensures i in t.table.services && j in t.table.services ==>
              (t.table.services[i] == t.table.services[j] <==> i == j)
  {
    ReachableInv(t);
  }

  /** serviceId() inverts the table, and says 0 for an object without a number. */
  lemma ServiceIdInverts(t: State, id: UInt32, proxy: nat)
    requires Reachable(t)
    ensures KeyOf(t.table.services, proxy, 0) == id && id != 0 <==> id in t.table.services && t.table.services[id] == proxy
    ensures KeyOf(t.table.services, proxy, 0) == 0 <==> proxy !in t.table.services.Values
  {
    ReachableInv(t);
  }

  lemma {:induction false} NumbersKept(s: State, events: seq<Event>, t: State, id: UInt32)
    requires Inv(s) && Reaches(s, events, t) && t.numbers < NO_ID && id in s.table.services
    ensures id in t.table.services && t.table.services[id] == s.table.services[id]
    decreases |events|
  {
    if events != [] {
      var u := Step(s, events[0]);
      NumbersGrow(u, events[1..], t);
      StepKeeps(s, events[0]);
      NumberKept(s, events[0], id);
      NumbersKept(u, events[1..], t, id);
    }
  }

  lemma NumberKept(s: State, e: Event, id: UInt32)
    requires Inv(s) && Enabled(s, e) && Step(s, e).numbers < NO_ID && id in s.table.services
    ensures id in Step(s, e).table.services && Step(s, e).table.services[id] == s.table.services[id]
  {
    hide Gated, OpenedAs, RanOpen, OneId, Substituted;
    StepKeeps(s, e);
  }

  /** The step sends the client a number for this service object. */
  ghost predicate HandsOut(s: State, e: Event, proxy: nat)
    requires Enabled(s, e)
  {
    if e.Select? then e.made == Some(proxy)
    else if e.Function? then
      var run := ResultOf(s, e).run;
      run.Some? && e.code(run.value.proxy, run.value.func, run.value.args) == Object(proxy)
    else false
  }

  lemma HandedOut(s: State, e: Event, proxy: nat)
    requires Inv(s) && Enabled(s, e) && Step(s, e).numbers < NO_ID && HandsOut(s, e, proxy)
    ensures var ret, after := ResultOf(s, e).ret, Step(s, e).table.services;
      && ret == DEFAULT_RETURN.SetServiceId(ret.serviceId)
      && ret.serviceId in after && after[ret.serviceId] == proxy
  {
    hide Gated, OpenedAs, RanOpen, OneId, Substituted;
  }

  /** A service object sent out twice, however far apart, has the same number both times. */
  lemma SameNumberForEver(s: State, e: Event, events: seq<Event>, t: State, later: Event, proxy: nat)
    requires Reachable(s) && Enabled(s, e) && HandsOut(s, e, proxy)
    requires Reaches(Step(s, e), events, t)
    requires Enabled(t, later) && HandsOut(t, later, proxy) && Step(t, later).numbers < NO_ID
    ensures ResultOf(t, later).ret == ResultOf(s, e).ret
  {
    ReachableInv(s);
    var u, v := Step(s, e), Step(t, later);
    NumbersGrow(u, events, t);
    assert Reaches(v, [], v) && Reaches(t, [later], v);
    NumbersGrow(t, [later], v);
    StepKeeps(s, e);
    InvAlways(u, events, t);
    StepKeeps(t, later);
    HandedOut(s, e, proxy);
    HandedOut(t, later, proxy);
    hide Inv, Step, HandsOut, ResultOf, Reaches, Enabled;
    var id, id2 := ResultOf(s, e).ret.serviceId, ResultOf(t, later).ret.serviceId;
    NumbersKept(u, events, t, id);
    NumberKept(t, later, id);
    OnlyOne(v, id, id2);
  }

  lemma OnlyOne(t: State, i: UInt32, j: UInt32)
    requires Inv(t) && i in t.table.services && j in t.table.services && t.table.services[i] == t.table.services[j]
    ensures i == j
  {
  }

  /** A function addressed to a service by its own number runs exactly when the number is
      known, is not waiting for its authentication, and the call is well formed. */
  lemma RunsExactly(t: State, code: Code, first: UInt32, id: UInt32, func: Sig, args: seq<Argument>)
    requires Reachable(t) && (t.table.services != map[] ==> first in t.table.services)
    ensures CallFunction(t.table, code, first, id, func, args).run.Some? <==>
              && (if id == 0 then t.numbers > 0 else 1 <= id <= t.numbers)
              && (func.name == AUTH || !Gated(t.history, id))
              && (func == USER_PASSWORD ==> |args| >= 2)
  {
    ReachableInv(t);
    hide Gated, RanOpen, OpenedAs, Substituted;
    assert t.numbers > 0 ==> 1 in t.table.services;
  }

  /** Once a number is open it stays open. */
  lemma {:induction false} StaysOpen(s: State, events: seq<Event>, t: State, id: UInt32)
    requires Inv(s) && Reaches(s, events, t) && t.numbers < NO_ID
    requires 1 <= id <= s.numbers && !Gated(s.history, id)
    ensures !Gated(t.history, id)
    decreases |events|
  {
    if events != [] {
      var u := Step(s, events[0]);
      NumbersGrow(u, events[1..], t);
      StepKeeps(s, events[0]);
      StepStaysOpen(s, events[0], id);
      hide Gated, Enabled, Inv;
      StaysOpen(u, events[1..], t, id);
    }
  }

  lemma StepStaysOpen(s: State, e: Event, id: UInt32)
    requires Inv(s) && Enabled(s, e) && Step(s, e).numbers < NO_ID
    requires 1 <= id <= s.numbers && !Gated(s.history, id)
    ensures !Gated(Step(s, e).history, id) && s.numbers <= Step(s, e).numbers
  {
    hide Gated, OpenedAs, RanOpen, OneId, Substituted;
    StepKeeps(s, e);
    assert id !in s.table.needsAuth;
  }

  /** In every run: between the opening of a service without authentication and any of its
      functions run through its number there was a successful auth through that number. */
  lemma AuthenticatedFirst(t: State, i: nat, k: nat)
    requires Reachable(t) && i < k < |t.history|
    requires t.history[i].Opened? && t.history[i].gated
    requires t.history[k].Called? && t.history[k].id == t.history[i].id && t.history[k].run.func.name != AUTH
    ensures exists j :: i < j < k && Grants(t.history[j], t.history[i].id)
  {
    ReachableInv(t);
    var id, h := t.history[i].id, t.history[..k];
    assert OpenedAs(t.history, id, t.history[i].proxy);
    assert !Gated(h, id);
    assert h[i].Opened?;
    var j :| i < j < |h| && Grants(h[j], id);
  }

  // ------------------------------------------------------ which objects can run

  /** The same for the object itself: until a successful auth through its number, an object
      opened without authentication runs other functions only through the number 0. */
  lemma ObjectAuthenticatedFirst(t: State, i: nat, k: nat)
    requires Reachable(t) && i < k < |t.history|
    requires t.history[i].Opened? && t.history[i].gated
    requires t.history[k].Called? && t.history[k].run.proxy == t.history[i].proxy && t.history[k].run.func.name != AUTH
    requires forall j :: i < j < k ==> !Grants(t.history[j], t.history[i].id)
    ensures t.history[k].id == 0
  {
    ReachableInv(t);
    assert OpenedAs(t.history, t.history[i].id, t.history[i].proxy);
    if t.history[k].id != 0 {
      assert t.history[k].id == t.history[i].id;
      AuthenticatedFirst(t, i, k);
    }
  }

  const PING := Sig(Q("ping"), [])
  const LOGIN := Sig(AUTH, [Q("AuthToken")])

  /** The run where that happens: the one service of a connection, opened and not
      authenticated, answers through 0; and an auth through 0 leaves its number gated. */
  lemma ThroughZero(code: Code, token: AuthToken)
    requires code(7, PING, []) == Value(DEFAULT_RETURN)
    requires code(7, LOGIN, [Token(token)]) == Value(DEFAULT_RETURN) && !token.isDefault
    ensures var table := Open(NEW_TABLE, [], Some(7)).table;
      && CallFunction(table, code, 1, 1, PING, []).ret == NOT_AUTHENTICATED
      && CallFunction(table, code, 1, 0, PING, []).run == Some(Run(7, PING, [], true))
      && CallFunction(table, code, 1, 0, LOGIN, [Token(token)]).run == Some(Run(7, LOGIN, [Token(token)], true))
      && CallFunction(table, code, 1, 0, LOGIN, [Token(token)]).table.needsAuth == [1]
      && CallFunction(table, code, 1, 1, LOGIN, [Token(token)]).table.needsAuth == []
  {
    Names();
    var t := Open(NEW_TABLE, [], Some(7)).table;
    assert t.services == map[1 := 7] && t.needsAuth == [1];
    hide PING, LOGIN, USER_PASSWORD, AUTH, Q;
    assert Substituted(t, PING, []) == [];
    assert Substituted(t, LOGIN, [Token(token)]) == [Token(token)];
    assert Without([1], 0) == [1] && Without([1], 1) == [];
  }

  lemma Names()
    ensures PING.name != AUTH && LOGIN.name == AUTH && PING != USER_PASSWORD && LOGIN != USER_PASSWORD
    ensures PING.args == []
  {
    assert |PING.name| == 4 && PING.name[0] == 112 && AUTH[0] == 97;
    assert |LOGIN.args| == 1 && |USER_PASSWORD.args| == 2;
  }

  /** Exactly the services not opened through the one-argument form run functions, through
      their own number, without any successful auth through it: those another service handed
      out, and those of the three-argument form, whether or not that one's own auth succeeded. */
  lemma RunsWithoutAuthExactly(t: State, code: Code, first: UInt32, id: UInt32, proxy: nat, func: Sig, args: seq<Argument>)
    requires Reachable(t) && first in t.table.services
    requires OpenedAs(t.history, id, proxy) && func.name != AUTH
    requires forall j :: 0 <= j < |t.history| ==> !Grants(t.history[j], id)
    ensures CallFunction(t.table, code, first, id, func, args).run.Some? <==> !OpenedGated(t.history, id)
  {
    ReachableInv(t);
    Names();
    RunsExactly(t, code, first, id, func, args);
    assert func != USER_PASSWORD;
    if OpenedGated(t.history, id) {
      var i :| 0 <= i < |t.history| && t.history[i].Opened? && t.history[i].id == id && t.history[i].gated;
      assert Gated(t.history, id);
    }
  }

  ghost predicate OpenedGated(history: seq<Entry>, id: UInt32) {
    exists i :: 0 <= i < |history| && history[i].Opened? && history[i].id == id && history[i].gated
  }

  /** A failed selection of the three-argument form says so, and still leaves its object in the
      table, under a number that waits for nothing. */
  lemma FailedSelectionStays(s: State, name: QString, proxy: nat, auth: ReturnValue)
    requires Reachable(s) && s.numbers + 1 < NO_ID && proxy !in s.table.services.Values && auth.IsError()
    ensures var r, t := OpenAuthenticated(s.table, name, Some(proxy), auth), Step(s, SelectOriginal(name, Some(proxy), auth));
      && r.ret == auth
      && t.table.services == s.table.services[(s.numbers + 1) as UInt32 := proxy]
      && !Gated(t.history, (s.numbers + 1) as UInt32)
  {
    ReachableInv(s);
    var id: UInt32 := s.numbers + 1;
    if Gated(s.history, id) {
      GatedIsNumbered(s, id);
    }
    hide Gated, RanOpen, OpenedAs, OneId;
    StepKeeps(s, SelectOriginal(name, Some(proxy), auth));
    GatedSnoc(s.history, Opened(id, proxy, false), id);
  }

  lemma GatedIsNumbered(s: State, id: UInt32)
    requires Inv(s) && Gated(s.history, id)
    ensures id in s.table.services
  {
    var i :| 0 <= i < |s.history| && s.history[i].Opened? && s.history[i].id == id;
    assert OpenedAs(s.history, id, s.history[i].proxy);
  }

  // ------------------------------------------------------- what a call comes to

  ghost function WhyNot(t: State, id: UInt32, func: Sig): ReturnValue {
    if id > t.numbers || t.numbers == 0 then NO_SERVICE
    else if func.name != AUTH && Gated(t.history, id) then NOT_AUTHENTICATED
    else TOO_FEW
  }

  /** A call that does not run says why, by the first of the guards that refuses it, and changes
      nothing. */
  lemma RefusalsSayWhy(t: State, code: Code, first: UInt32, id: UInt32, func: Sig, args: seq<Argument>)
    requires Reachable(t) && (t.table.services != map[] ==> first in t.table.services)
    ensures var r := CallFunction(t.table, code, first, id, func, args);
      r.run.None? ==> r.table == t.table && r.ret == WhyNot(t, id, func) && r.ret.IsError()
  {
    ReachableInv(t);
    hide Gated, RanOpen, OpenedAs, Substituted;
    assert t.numbers > 0 ==> 1 in t.table.services;
  }

  /** A default token stands for the one of the connection, in the places of tokens; everything else
      is as it was given. */
  ghost predicate HandedOn(token: AuthToken, types: seq<QString>, args: seq<Argument>, handed: seq<Argument>) {
    && |handed| == |args|
    && forall i :: 0 <= i < |args| ==>
        handed[i] == if i < |types| && IsTokenType(types[i]) && args[i].AsToken().isDefault then Token(token) else args[i]
  }

  /** A call that runs reaches the object of the number, with the function and the arguments it was
      made with; a user name and a password go as a token. */
  lemma RunsAsCalled(t: State, code: Code, first: UInt32, id: UInt32, func: Sig, args: seq<Argument>)
    requires Reachable(t) && (t.table.services != map[] ==> first in t.table.services)
    requires CallFunction(t.table, code, first, id, func, args).run.Some?
    ensures var run := CallFunction(t.table, code, first, id, func, args).run.value;
      && OpenedAs(t.history, if id == 0 then first else id, run.proxy)
      && (func != USER_PASSWORD ==> run.func == func && HandedOn(t.table.defaultToken, func.args, args, run.args))
      && (func == USER_PASSWORD ==>
            && run.func == WITH_TOKEN && |args| >= 2
            && run.args == [Token(FromUser(args[0].Text(), args[1].Text()))])
      && (run.ok <==> !Failed(code(run.proxy, run.func, run.args)))
  {
    ReachableInv(t);
    hide Gated, RanOpen, OpenedAs, IsTokenType, FromUser, USER_PASSWORD, WITH_TOKEN;
    if func == USER_PASSWORD {
      NotDefault(args[0].Text(), args[1].Text());
      var list := [Token(FromUser(args[0].Text(), args[1].Text()))];
      assert Substituted(t.table, WITH_TOKEN, list) == list;
    }
  }

  lemma NotDefault(name: QString, password: QString)
    ensures !FromUser(name, password).isDefault
  {
  }

  /** Nothing of the table has changed but what an auth that succeeded changes: its number waits no
      longer, and its object has the token. */
  ghost predicate AuthChanges(t: Table, u: Table, id: UInt32, run: Run) {
    && u.defaultToken == t.defaultToken
    && (forall k :: k in u.needsAuth <==> k in t.needsAuth && !(run.func.name == AUTH && run.ok && k == id))
    && u.tokens == if run.func.name == AUTH && run.ok && run.args != []
                   then t.tokens[run.proxy := run.args[0].AsToken()] else t.tokens
  }

  /** A value or an error is returned as it is; an object as its number, which it keeps if it has
      one, and which is the next one if not. */
  ghost predicate ReturnedAs(t: Table, given: Given, u: Table, ret: ReturnValue) {
    match given
    case Value(value) => ret == value && u.services == t.services
    case Object(proxy) =>
      && ret.IsService() && ret.serviceId in u.services && u.services[ret.serviceId] == proxy
      && if proxy in t.services.Values then u.services == t.services
         else ret.serviceId == t.curServiceId + 1 && u.services == t.services[ret.serviceId := proxy]
  }

  /** A call that runs returns what the service gave. */
  lemma CallReturns(t: State, code: Code, first: UInt32, id: UInt32, func: Sig, args: seq<Argument>)
    requires Reachable(t) && t.numbers + 1 < NO_ID && (t.table.services != map[] ==> first in t.table.services)
    requires CallFunction(t.table, code, first, id, func, args).run.Some?
    ensures var r := CallFunction(t.table, code, first, id, func, args);
      var run := r.run.value;
      && AuthChanges(t.table, r.table, id, run)
      && ReturnedAs(t.table, code(run.proxy, run.func, run.args), r.table, r.ret)
      && t.table.curServiceId == t.numbers
  {
    ReachableInv(t);
    Counted(t);
    hide Inv, Prepared, ParseReturn, Authenticated, ReturnedAs, AuthChanges;
    var r := CallFunction(t.table, code, first, id, func, args);
    var run := r.run.value;
    var given := code(run.proxy, run.func, run.args);
    var u := if run.func.name == AUTH && run.ok then Authenticated(t.table, id, run.proxy, run.args) else t.table;
    assert (r.table, r.ret) == ParseReturn(u, given);
    AuthChangesOnly(t.table, id, run);
    GivenReturned(u, given);
    SameReturned(t.table, u, given, r.table, r.ret, id, run);
  }

  lemma Counted(t: State)
    requires Inv(t)
    ensures t.table.curServiceId == t.numbers && forall id :: id in t.table.services <==> 1 <= id <= t.numbers
  {
    hide Gated, RanOpen, OpenedAs, OneId;
  }

  lemma AuthChangesOnly(t: Table, id: UInt32, run: Run)
    ensures var u := if run.func.name == AUTH && run.ok then Authenticated(t, id, run.proxy, run.args) else t;
      AuthChanges(t, u, id, run) && u.services == t.services && u.curServiceId == t.curServiceId
  {
    hide AUTH;
  }

  lemma GivenReturned(t: Table, given: Given)
    requires t.curServiceId + 1 < NO_ID && forall id :: id in t.services <==> 1 <= id <= t.curServiceId
    ensures ReturnedAs(t, given, ParseReturn(t, given).0, ParseReturn(t, given).1)
    ensures var u := ParseReturn(t, given).0;
      u.needsAuth == t.needsAuth && u.tokens == t.tokens && u.defaultToken == t.defaultToken
  {
  }

  lemma SameReturned(t: Table, u: Table, given: Given, v: Table, ret: ReturnValue, id: UInt32, run: Run)
    requires AuthChanges(t, u, id, run) && u.services == t.services && u.curServiceId == t.curServiceId
    requires v.needsAuth == u.needsAuth && v.tokens == u.tokens && v.defaultToken == u.defaultToken
    requires ReturnedAs(u, given, v, ret)
    ensures AuthChanges(t, v, id, run) && ReturnedAs(t, given, v, ret)
  {
    hide AUTH;
  }

  /** A selection that succeeds returns the next number, for the object made; of the three-argument
      form, what that one's own auth returned, with the number. */
  lemma SelectionReturns(t: State, name: QString, proxy: nat, auth: ReturnValue)
    requires Reachable(t) && t.numbers + 1 < NO_ID && proxy !in t.table.services.Values
    ensures var r, id := Open(t.table, name, Some(proxy)), (t.numbers + 1) as UInt32;
      && r.ret.IsService() && r.ret.serviceId == id && r.table.services == t.table.services[id := proxy]
      && id in r.table.needsAuth
    ensures var r, id := OpenAuthenticated(t.table, name, Some(proxy), auth), (t.numbers + 1) as UInt32;
      && r.table.services == t.table.services[id := proxy]
      && (auth.IsError() ==> r.ret == auth)
      && (!auth.IsError() ==> r.ret == auth.(kind := SERVICE, serviceId := id))
  {
    ReachableInv(t);
    hide Gated, RanOpen, OpenedAs;
  }

  /** The default token is the one set last. */
  lemma {:induction false} TokenSetLast(s: State, events: seq<Event>, t: State)
    requires Reaches(s, events, t)
    ensures t.table.defaultToken == LastToken(events, s.table.defaultToken)
    decreases |events|
  {
    hide Enabled, Step;
    if events != [] {
      StepToken(s, events[0]);
      TokenSetLast(Step(s, events[0]), events[1..], t);
    }
  }

  function LastToken(events: seq<Event>, before: AuthToken): AuthToken {
    if events == [] then before
    else LastToken(events[1..], if events[0].SetDefaultToken? then events[0].token else before)
  }

  lemma StepToken(s: State, e: Event)
    requires Enabled(s, e)
    ensures Step(s, e).table.defaultToken == if e.SetDefaultToken? then e.token else s.table.defaultToken
  {
    hide Prepared;
  }
}
