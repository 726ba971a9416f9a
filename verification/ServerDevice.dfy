/** lib/serverprotocolinstanceiodevice.cpp: the server's end of a connection. */
module ServerDevice {
  import opened QtTypes
  import opened QStrings
  import opened DataStream
  import opened ReturnValues
  import opened Signatures
  import opened Messages
  import opened Framing
  import opened MessageWire
  import opened Protocol

  function NotReady(): (q: QString)
    ensures |q| <= 100
  {
    Q("Function calls cannot be made until the server is ready.")
  }

  function NotYet(): (q: QString)
    ensures |q| <= 100
  {
    Q("You cannot select a service until the server enters the Service state.")
  }

  function NoFunctionName(): (q: QString)
    ensures |q| <= 100
  {
    Q("Missing parameters to function listFunctions")
  }

  function NoEventName(): (q: QString)
    ensures |q| <= 100
  {
    Q("Missing parameters to function listEvents")
  }

  function NoCallbackName(): (q: QString)
    ensures |q| <= 100
  {
    Q("Missing parameters to function listCallbacks")
  }

  function NoToken(): (q: QString)
    ensures |q| <= 100
  {
    Q("Missing parameters to function setDefaultToken")
  }

  /** What the device does, for the record. `after` counts the messages written before. */
  datatype Action =
    | Ran(msg: Msg, after: nat)                          // a function, by the service layer
    | Unready(msg: Msg, after: nat)                      // a function before the ready state
    | Selected(msg: Msg, version: UInt32, after: nat)    // a selection, by the service layer
    | Early(msg: Msg, version: UInt32, after: nat)       // a selection while still connecting
    | Answered(msg: Msg)                                 // a query, by the service layer
    | Lacking(msg: Msg, complaint: QString)              // a query without its argument
    | TokenSet(msg: Msg)
    | Protocolled(msg: Msg)
    | CallbackReturned(msg: Msg)
    | Volunteered(msg: Msg)                              // the application writes a message of its own
    | Moved(state: nat)                                  // the transport moves the state

  /** The code the device calls: `answer` is the service layer's result for a message,
      `hook` the state protocolFunction asks for; both may depend on all that came before. */
  datatype Layer = Layer(
    maxVersion: UInt32,
    answer: (seq<Action>, Msg) -> ReturnValue,
    hook: (seq<Action>, Msg) -> nat)

  datatype Server = Server(
    version: UInt32,
    state: nat,
    sent: seq<Msg>,
    received: seq<Msg>,
    log: seq<Action>,
    hungUp: bool)

  datatype Outcome = Outcome(server: Server, done: bool)

  // ---------------------------------------------------------- specification

  function Write(s: Server, m: Msg): Server {
    s.(sent := s.sent + [m.(version := s.version)])
  }

  function ChangeState(s: Server, state: nat): Server {
    if state <= s.state then s
    else Write(s.(state := state), ProtocolCall(STATE_CHANGED, [Int(ToInt32(state))]))
  }

  function Log(s: Server, a: Action): Server {
    s.(log := s.log + [a])
  }

  function SelectService(env: Layer, s: Server, m: Msg): Server {
    if s.state == CONNECTING then
      var t := Log(s, Early(m, s.version, |s.sent|));
      if s.version == 0 then Write(t, ErrorCall(1, NotYet()))
      else Write(t, Reply(m.id, FromError(1, NotYet())))
    else
      var ret := env.answer(s.log, m);
      var t := Log(s, Selected(m, s.version, |s.sent|));
      if s.version == 0 then
        if ret.IsError() then Write(t, ErrorCall(2, ret.text))
        else ChangeState(Write(t, ProtocolCall(READY_MESSAGE, [ret.value])), READY)
      else
        Write(if ret.IsService() then ChangeState(t, READY) else t, Reply(m.id, ret))
  }

  /** A query the service layer answers, or an error when its argument is missing. */
  function Query(env: Layer, s: Server, m: Msg, needsArgument: bool, complaint: QString): Server {
    if needsArgument && m.args == [] then Write(Log(s, Lacking(m, complaint)), Reply(m.id, FromError(1, complaint)))
    else Write(Log(s, Answered(m)), Reply(m.id, env.answer(s.log, m)))
  }

  function SetDefaultToken(s: Server, m: Msg): Server {
    if m.args == [] then Write(Log(s, Lacking(m, NoToken())), Reply(m.id, FromError(1, NoToken())))
    else Write(Log(s, TokenSet(m)), Reply(m.id, FromVariant(Bool(true))))
  }

  function CheckProtocolFunction(env: Layer, s: Server, m: Msg): Outcome {
    var name := m.func.name;
    if name == SET_VERSION.name then
      if m.args == [] then Outcome(s.(hungUp := true), true)
      else
        var cversion := Min(ToUInt(m.args[0]), env.maxVersion);
        Outcome(Write(s, VersionCall(cversion)).(version := cversion), true)
    else if name == SELECT_SERVICE.name then Outcome(SelectService(env, s, m), true)
    else if name == ERROR_MESSAGE.name then Outcome(s, true)
    else if name == Q("listServices") then Outcome(Query(env, s, m, false, []), false)
    else if name == Q("listFunctions") then Outcome(Query(env, s, m, true, NoFunctionName()), false)
    else if name == Q("listEvents") then Outcome(Query(env, s, m, true, NoEventName()), false)
    else if name == Q("listCallbacks") then Outcome(Query(env, s, m, true, NoCallbackName()), false)
    else if name == Q("setDefaultToken") then
      Outcome(SetDefaultToken(s, m), false)
    else Outcome(s, false)
  }

  function ParseMessage(env: Layer, s: Server, m: Msg): Outcome {
    if m.kind == FUNCTION then
      if s.state != READY then Outcome(Write(Log(s, Unready(m, |s.sent|)), ErrorCall(2, NotReady())), true)
      else
        var ret := env.answer(s.log, m);
        var t := Log(s, Ran(m, |s.sent|));
        Outcome(if ret.IsAsyncronous() then t else Write(t, Reply(m.id, ret)), true)
    else if m.kind == QTRPC then
      var checked := CheckProtocolFunction(env, s, m);
      if checked.done then checked
      else Outcome(Log(ChangeState(checked.server, env.hook(checked.server.log, m)), Protocolled(m)), true)
    else if m.kind == RETURN then Outcome(Log(s, CallbackReturned(m)), true)
    else Outcome(s, false)
  }

  /** What the application writes of its own: events, callbacks, delayed replies. */
  function Volunteer(s: Server, m: Msg): Server {
    Write(Log(s, Volunteered(m)), m)
  }

  /** The transport moves the state, as when encryption is up. */
  function Move(s: Server, state: nat): Server {
    ChangeState(Log(s, Moved(state)), state)
  }

  /** One frame: read in the current version and, if that is refused, in the original one. */
  function Receive(env: Layer, s: Server, payload: seq<Byte>): Server {
    var m := Decode(s.version, payload).value;
    var first := ParseMessage(env, s, m);
    if first.done then first.server.(received := s.received + [m])
    else
      var m0 := Decode(0, payload).value;
      ParseMessage(env, first.server, m0).server.(received := s.received + [m0])
  }

  /** All the complete frames in the pending bytes. */
  function Drain(env: Layer, s: Server, pending: seq<Byte>): Server
    decreases |pending|
  {
    if HasFrame(pending) then Drain(env, Receive(env, s, FirstFrame(pending)), AfterFrame(pending)) else s
  }

  /** Bytes may be dispatched as they come: what an earlier read left over counts with the next. */
  lemma {:induction false} DrainIncremental(env: Layer, s: Server, pending: seq<Byte>, more: seq<Byte>)
    ensures Drain(env, s, pending + more) == Drain(env, Drain(env, s, pending), Residue(pending) + more)
    decreases |pending|
  {
    hide HasFrame, FirstFrame, AfterFrame, Receive;
    if HasFrame(pending) {
      FrameExtends(pending, more);
      DrainIncremental(env, Receive(env, s, FirstFrame(pending)), AfterFrame(pending), more);
    }
  }

  /** A refused message has changed nothing, so whatever the bytes of a frame, it takes effect
      once, from the state it found, in at most one of its two readings. */
  lemma FallbackOnce(env: Layer, s: Server, payload: seq<Byte>)
    ensures var m, m0 := Decode(s.version, payload).value, Decode(0, payload).value;
      var first, second := ParseMessage(env, s, m), ParseMessage(env, s, m0);
      && (first.done <==> m.kind in {FUNCTION, QTRPC, RETURN})
      && (!first.done ==> first.server == s)
      && Receive(env, s, payload) ==
         if first.done then first.server.(received := s.received + [m])
         else if second.done then second.server.(received := s.received + [m0])
         else s.(received := s.received + [m0])
  {
    hide CheckProtocolFunction, Decode;
  }

  /** The service layer's results can be sent back. */
  ghost predicate Sane(env: Layer) {
    && (forall log, m :: var r := env.answer(log, m); FitsReturn(r) && Sendable(r.value, r.text))
    && (forall log, m :: env.hook(log, m) <= READY)
  }

  // ------------------------------------------------------------ what is written

  /** The messages a step appends: writable, in one version, and no negotiation among them. */
  ghost predicate Ordinary(ms: seq<Msg>, version: UInt32) {
    forall i :: 0 <= i < |ms| ==> Writable(ms[i]) && ms[i].version == version && !Negotiates(ms[i])
  }

  ghost predicate Appends(s: Server, t: Server) {
    && s.sent <= t.sent && Ordinary(t.sent[|s.sent|..], s.version)
    && t.version == s.version && t.received == s.received && t.hungUp == s.hungUp
  }

  lemma AppendsTransitive(s: Server, t: Server, u: Server)
    requires Appends(s, t) && Appends(t, u)
    ensures Appends(s, u)
  {
    hide Writable, Negotiates;
    assert u.sent[|s.sent|..] == t.sent[|s.sent|..] + u.sent[|t.sent|..];
  }

  lemma WriteAppends(s: Server, m: Msg)
    requires Writable(m.(version := s.version)) && !Negotiates(m)
    ensures Appends(s, Write(s, m))
  {
    hide Writable;
  }

  lemma ChangeStateAppends(s: Server, state: nat)
    requires state <= READY
    ensures Appends(s, ChangeState(s, state))
  {
    hide Writable, Negotiates;
    var m := ProtocolCall(STATE_CHANGED, [Int(ToInt32(state))]);
    OwnMessage(m, s.version);
    if state > s.state {
      WriteAppends(s.(state := state), m);
    }
  }

  /** The messages with nothing of the service layer in them. */
  lemma OwnMessage(m: Msg, version: UInt32)
    requires Brief(m) && (m.kind == QTRPC ==> m.func in [STATE_CHANGED, ERROR_MESSAGE])
    ensures Writable(m.(version := version)) && !Negotiates(m)
  {
    hide Writable, Q;
    BriefWritable(m.(version := version));
    OrdinaryNames();
    if m.kind == QTRPC {
      OrdinaryIsNot(m);
    }
  }

  lemma HandledAppends(env: Layer, s: Server, m: Msg)
    requires Sane(env) && m.kind == QTRPC && m.func.name != SET_VERSION.name
    ensures Appends(s, CheckProtocolFunction(env, s, m).server)
  {
    hide Writable, Negotiates, Q, ChangeState, SelectService, Query, SetDefaultToken, Sane;
    var name := m.func.name;
    if name == SELECT_SERVICE.name {
      SelectAppends(env, s, m);
    } else if name == Q("listServices") {
      QueryAppends(env, s, m, false, []);
    } else if name == Q("listFunctions") {
      QueryAppends(env, s, m, true, NoFunctionName());
    } else if name == Q("listEvents") {
      QueryAppends(env, s, m, true, NoEventName());
    } else if name == Q("listCallbacks") {
      QueryAppends(env, s, m, true, NoCallbackName());
    } else if name == Q("setDefaultToken") {
      TokenAppends(s, m);
    }
  }

  lemma TokenAppends(s: Server, m: Msg)
    ensures Appends(s, SetDefaultToken(s, m))
  {
    hide Writable, Negotiates, Appends, Write, Reply;
    var a := if m.args == [] then Lacking(m, NoToken()) else TokenSet(m);
    OwnReply(Log(s, a), m.id, FromError(1, NoToken()));
    OwnReply(Log(s, a), m.id, FromVariant(Bool(true)));
    LogAppends(s, a, SetDefaultToken(s, m));
  }

  lemma OwnReply(s: Server, id: UInt32, ret: ReturnValue)
    requires !ret.value.List? && !ret.value.Str? && |ret.text| <= 100
    ensures Appends(s, Write(s, Reply(id, ret)))
  {
    hide Writable, Negotiates;
    OwnMessage(Reply(id, ret), s.version);
    WriteAppends(s, Reply(id, ret));
  }

  lemma LayerReply(env: Layer, s: Server, t: Server, m: Msg, id: UInt32)
    requires Sane(env) && t.version == s.version
    ensures Appends(t, Write(t, Reply(id, env.answer(s.log, m))))
  {
    hide Writable;
    var ret := env.answer(s.log, m);
    ValueWritable(Reply(id, ret).(version := s.version), ret.value, ret.text);
    WriteAppends(t, Reply(id, ret));
  }

  lemma QueryAppends(env: Layer, s: Server, m: Msg, needsArgument: bool, complaint: QString)
    requires Sane(env) && |complaint| <= 100
    ensures Appends(s, Query(env, s, m, needsArgument, complaint))
  {
    hide Writable, Negotiates, Sane, Appends, Write, Reply;
    var a := if needsArgument && m.args == [] then Lacking(m, complaint) else Answered(m);
    OwnReply(Log(s, a), m.id, FromError(1, complaint));
    LayerReply(env, s, Log(s, a), m, m.id);
    LogAppends(s, a, Query(env, s, m, needsArgument, complaint));
  }

  lemma OwnError(s: Server, level: Int32, text: QString)
    requires |text| <= 100
    ensures Appends(s, Write(s, ErrorCall(level, text)))
  {
    hide Writable, Negotiates, Q;
    OwnMessage(ErrorCall(level, text), s.version);
    WriteAppends(s, ErrorCall(level, text));
  }

  lemma SelectAppends(env: Layer, s: Server, m: Msg)
    requires Sane(env)
    ensures Appends(s, SelectService(env, s, m))
  {
    hide Appends, ChangeState, Write, Reply, ErrorCall, ProtocolCall, Sendable, FitsReturn;
    if s.state == CONNECTING {
      var a := Early(m, s.version, |s.sent|);
      OwnReply(Log(s, a), m.id, FromError(1, NotYet()));
      OwnError(Log(s, a), 1, NotYet());
      LogAppends(s, a, SelectService(env, s, m));
    } else {
      var a := Selected(m, s.version, |s.sent|);
      SelectAnswered(env, s, Log(s, a), m);
      LogAppends(s, a, SelectService(env, s, m));
    }
  }

  lemma LogAppends(s: Server, a: Action, u: Server)
    requires Appends(Log(s, a), u)
    ensures Appends(s, u)
  {
    hide Ordinary;
  }

  lemma SelectAnswered(env: Layer, s: Server, t: Server, m: Msg)
    requires Sane(env) && s.state != CONNECTING && t == Log(s, Selected(m, s.version, |s.sent|))
    ensures Appends(t, SelectService(env, s, m))
  {
    hide Appends, ChangeState, Reply, ErrorCall, ProtocolCall, Sendable, FitsReturn;
    var ret := env.answer(s.log, m);
    if s.version == 0 && ret.IsError() {
      LayerCall(t, ErrorCall(2, ret.text), ret);
    } else if s.version == 0 {
      var u := Write(t, ProtocolCall(READY_MESSAGE, [ret.value]));
      LayerCall(t, ProtocolCall(READY_MESSAGE, [ret.value]), ret);
      ChangeStateAppends(u, READY);
      AppendsTransitive(t, u, ChangeState(u, READY));
    } else {
      var u := if ret.IsService() then ChangeState(t, READY) else t;
      ChangeStateAppends(t, READY);
      AppendsItself(t);
      VersionKept(t, u);
      LayerReply(env, s, u, m, m.id);
      AppendsTransitive(t, u, Write(u, Reply(m.id, ret)));
    }
  }

  lemma AppendsItself(s: Server)
    ensures Appends(s, s)
  {
  }

  lemma VersionKept(s: Server, t: Server)
    requires Appends(s, t)
    ensures t.version == s.version
  {
  }

  /** The two original-format answers to selectService. */
  lemma LayerCall(s: Server, m: Msg, ret: ReturnValue)
    requires FitsReturn(ret) && Sendable(ret.value, ret.text)
    requires m == ErrorCall(2, ret.text) || m == ProtocolCall(READY_MESSAGE, [ret.value])
    ensures Appends(s, Write(s, m))
  {
    hide Writable, Sendable, FitsReturn, Negotiates, Q, Trim;
    OrdinaryNames();
    assert m.ret == DEFAULT_RETURN;
    ValueWritable(m.(version := s.version), ret.value, ret.text);
    OrdinaryIsNot(m);
    WriteAppends(s, m);
  }

  /** Every message other than the negotiation request leaves the version alone and
      adds only ordinary messages in it. */
  lemma ParseAppends(env: Layer, s: Server, m: Msg)
    requires Sane(env) && !(m.kind == QTRPC && m.func.name == SET_VERSION.name)
    ensures Appends(s, ParseMessage(env, s, m).server)
  {
    hide Writable, Negotiates, Q, CheckProtocolFunction, ChangeState;
    if m.kind == FUNCTION {
      var t := Log(s, Ran(m, |s.sent|));
      OwnError(Log(s, Unready(m, |s.sent|)), 2, NotReady());
      LayerReply(env, s, t, m, m.id);
    } else if m.kind == QTRPC {
      var c := CheckProtocolFunction(env, s, m).server;
      HandledAppends(env, s, m);
      ChangeStateAppends(c, env.hook(c.log, m));
      AppendsTransitive(s, c, ChangeState(c, env.hook(c.log, m)));
    }
  }

  // --------------------------------------------------------------- the class

  class ServerInstance {
    const env: Layer
    var device: seq<Byte>      // received and not yet read
    var out: seq<Byte>         // all that was written to the device
    var totalSize: Int64
    var read: int
    var buffer: seq<Byte>
    var version: UInt32
    var state: nat
    var hungUp: bool
    var sent: seq<Msg>
    var received: seq<Msg>
    var log: seq<Action>

    ghost function Value(): Server
      reads this
    {
      Server(version, state, sent, received, log, hungUp)
    }

    ghost predicate Valid()
      reads this
    {
      Sane(env) && AllWritable(sent) && out == Bytes(sent)
    }

    function Unread(): seq<Byte>
      reads this
    {
      Pending(totalSize, buffer, device)
    }

    constructor (env: Layer)
      requires Sane(env)
      ensures Valid() && this.env == env && device == [] && Waiting(totalSize, read, buffer) && Unread() == []
      ensures Value() == Write(Server(0, CONNECTING, [], [], [], false), ProtocolCall(WELCOME, [UInt(env.maxVersion)]))
    {
      hide Sane, Writable, WELCOME, Q, ToString, FromString, PutI64, Encode;
      this.env := env;
      device, out, totalSize, read, buffer := [], [], 0, 0, [];
      version, state, hungUp, log := 0, CONNECTING, false, [];
      sent, received := [], [];
      new;
      WelcomeBrief(env.maxVersion);
      CallProtocolFunction(WELCOME, [UInt(env.maxVersion)]);
    }

    method WriteMessage(msg: Msg)
      requires Valid() && Writable(msg.(version := version))
      modifies `out, `sent
      ensures Valid() && Value() == Write(old(Value()), msg)
    {
      hide Sane, Encode, FitsMsg, Bytes;
      var m := new Message();
      m.data := msg;
      m.SetVersion(version);
      var size := m.Size();
      var stream := new Stream([]);
      stream.Write(PutI64(size));
      m.WriteTo(stream);
      BytesOne(m.data);
      BytesConcat(sent, [m.data]);
      assert [] + PutI64(size) + Encode(m.data) == Packet(m.data);
      out := out + stream.data;
      sent := sent + [m.data];
    }

    method CallProtocolFunction(func: Sig, args: Arguments)
      requires Valid() && Writable(ProtocolCall(func, args).(version := version))
      modifies `out, `sent
      ensures Valid() && Value() == Write(old(Value()), ProtocolCall(func, args))
    {
      WriteMessage(Call(0, QTRPC, func, args, 0));
    }

    /** States cannot go backwards. */
    method ChangeTo(newState: nat)
      requires Valid() && newState <= READY
      modifies `out, `sent, `state
      ensures Valid() && Value() == ChangeState(old(Value()), newState)
    {
      hide Sane, Bytes, Writable, STATE_CHANGED;
      if newState <= state {
        return;
      }
      StateWritable(newState, version);
      state := newState;
      CallProtocolFunction(STATE_CHANGED, [Int(ToInt32(state))]);
    }

    method Select(msg: Msg)
      requires Valid()
      modifies `out, `sent, `state, `log
      ensures Valid() && Value() == SelectService(env, old(Value()), msg)
    {
      hide Writable, Bytes, Write, ChangeState, Sendable, FitsReturn, ErrorCall, ProtocolCall;
      ghost var start := Value();
      if state == CONNECTING {
        log := log + [Early(msg, version, |sent|)];
        OwnErrorWritable(1, NotYet(), version);
        OwnWritable(Reply(msg.id, FromError(1, NotYet())), version);
        if version == 0 {
          WriteMessage(ErrorCall(1, NotYet()));
        } else {
          WriteMessage(Reply(msg.id, FromError(1, NotYet())));
        }
      } else {
        var ret := env.answer(log, msg);
        log := log + [Selected(msg, version, |sent|)];
        LayerWritable(env, start.log, msg, msg.id, version);
        if version == 0 {
          if ret.IsError() {
            WriteMessage(ErrorCall(2, ret.text));
          } else {
            WriteMessage(ProtocolCall(READY_MESSAGE, [ret.value]));
            ChangeTo(READY);
          }
        } else {
          if ret.IsService() {
            ChangeTo(READY);
          }
          WriteMessage(Reply(msg.id, ret));
        }
      }
    }

    method Inquire(msg: Msg, needsArgument: bool, complaint: QString)
      requires Valid() && |complaint| <= 100
      modifies `out, `sent, `log
      ensures Valid() && Value() == Query(env, old(Value()), msg, needsArgument, complaint)
    {
      hide Writable, Bytes, Sendable, FitsReturn;
      if needsArgument && msg.args == [] {
        log := log + [Lacking(msg, complaint)];
        OwnWritable(Reply(msg.id, FromError(1, complaint)), version);
        WriteMessage(Reply(msg.id, FromError(1, complaint)));
      } else {
        LayerWritable(env, log, msg, msg.id, version);
        var ret := env.answer(log, msg);
        log := log + [Answered(msg)];
        WriteMessage(Reply(msg.id, ret));
      }
    }

    method CheckProtocol(msg: Msg) returns (done: bool)
      requires Valid()
      modifies `out, `sent, `version, `state, `log, `hungUp
      ensures Valid() && Outcome(Value(), done) == CheckProtocolFunction(env, old(Value()), msg)
    {
      hide Writable, Bytes, Sane, Write, SelectService, Query, Q, VersionCall;
      var name := msg.func.name;
      if name == SET_VERSION.name {
        if |msg.args| > 0 {
          var cversion := ToUInt(msg.args[0]);
          if cversion > env.maxVersion {
            cversion := env.maxVersion;
          }
          VersionWritable(cversion, version);
          WriteMessage(VersionCall(cversion));
          version := cversion;
          return true;
        }
        hungUp := true;
        return true;
      } else if name == SELECT_SERVICE.name {
        Select(msg);
        return true;
      } else if name == ERROR_MESSAGE.name {
        return true;
      } else if name == Q("listServices") {
        Inquire(msg, false, []);
      } else if name == Q("listFunctions") {
        Inquire(msg, true, NoFunctionName());
      } else if name == Q("listEvents") {
        Inquire(msg, true, NoEventName());
      } else if name == Q("listCallbacks") {
        Inquire(msg, true, NoCallbackName());
      } else if name == Q("setDefaultToken") {
        OwnWritable(Reply(msg.id, FromError(1, NoToken())), version);
        OwnWritable(Reply(msg.id, FromVariant(Bool(true))), version);
        if |msg.args| > 0 {
          log := log + [TokenSet(msg)];
          WriteMessage(Reply(msg.id, FromVariant(Bool(true))));
        } else {
          log := log + [Lacking(msg, NoToken())];
          WriteMessage(Reply(msg.id, FromError(1, NoToken())));
        }
      }
      done := false;
    }

    /** False, and nothing done, for a message of no type the server takes. */
    method Parse(msg: Msg) returns (done: bool)
      requires Valid()
      modifies `out, `sent, `version, `state, `log, `hungUp
      ensures Valid() && Outcome(Value(), done) == ParseMessage(env, old(Value()), msg)
    {
      hide Writable, Bytes, Write, CheckProtocolFunction, ChangeState, Sendable, FitsReturn;
      ghost var start := Value();
      if msg.kind == FUNCTION {
        if state != READY {
          log := log + [Unready(msg, |sent|)];
          OwnErrorWritable(2, NotReady(), version);
          WriteMessage(ErrorCall(2, NotReady()));
          return true;
        }
        var ret := env.answer(log, msg);
        LayerWritable(env, log, msg, msg.id, version);
        log := log + [Ran(msg, |sent|)];
        if !ret.IsAsyncronous() {
          WriteMessage(Reply(msg.id, ret));
        }
        return true;
      } else if msg.kind == QTRPC {
        done := CheckProtocol(msg);
        if done {
          return true;
        }
        ChangeTo(env.hook(log, msg));
        log := log + [Protocolled(msg)];
        return true;
      } else if msg.kind == RETURN {
        log := log + [CallbackReturned(msg)];
        return true;
      }
      done := false;
    }

    /** A complete frame: decoded in the current version, then perhaps in the original one. */
    method Dispatch()
      requires Valid()
      modifies `out, `sent, `version, `state, `log, `hungUp, `received
      ensures Valid() && Value() == Receive(env, old(Value()), buffer)
    {
      hide Sane, ParseMessage, DecodeInto, Bytes;
      var msg := new Message();
      msg.SetVersion(version);
      var stream := new Stream(buffer);
      msg.ReadFrom(stream);
      var done := Parse(msg.data);
      if !done {
        msg := new Message();
        stream := new Stream(buffer);
        msg.ReadFrom(stream);
        done := Parse(msg.data);
      }
      received := received + [msg.data];
    }

    /** The reading loop: every complete frame is dispatched, and what is left is the
        beginning of the next one. */
    method ReadyRead()
      requires Valid() && Waiting(totalSize, read, buffer)
      modifies this
      ensures Valid() && Waiting(totalSize, read, buffer)
      ensures Value() == Drain(env, old(Value()), old(Unread()))
      ensures Unread() == Residue(old(Unread()))
    {
      hide Sane, Receive, HasFrame, FirstFrame, AfterFrame, PutI64, GetI64, Bytes;
      while device != []
        invariant Valid() && Waiting(totalSize, read, buffer)
        invariant Drain(env, Value(), Unread()) == Drain(env, old(Value()), old(Unread()))
        invariant Residue(Unread()) == Residue(old(Unread()))
        decreases |device|
      {
        ghost var pending := Unread();
        if totalSize == 0 {
          if |device| < HEADER {
            break;
          }
          HeaderRead(device);
          totalSize, device := GetI64(device[..HEADER]), device[HEADER..];
          read := 0;
          buffer := [];
        }
        assert pending == PutI64(totalSize) + buffer + device;
        var n := Take(device, totalSize - read);
        Assoc(PutI64(totalSize), buffer, device[..n]);
        Assoc(PutI64(totalSize) + buffer, device[..n], device[n..]);
        assert device == device[..n] + device[n..];
        buffer, device := buffer + device[..n], device[n..];
        read := read + n;
        if totalSize <= read {
          FrameInHand(totalSize, buffer, device);
          totalSize := 0;
          read := 0;
          Dispatch();
        }
      }
      NothingPending(totalSize, read, buffer, device);
    }
  }

  lemma OwnWritable(m: Msg, version: UInt32)
    requires Brief(m)
    ensures Writable(m.(version := version))
  {
    hide Writable;
    BriefWritable(m.(version := version));
  }

  lemma StateWritable(state: nat, version: UInt32)
    requires state <= READY
    ensures Writable(ProtocolCall(STATE_CHANGED, [Int(ToInt32(state))]).(version := version))
  {
    hide Writable;
    OwnMessage(ProtocolCall(STATE_CHANGED, [Int(ToInt32(state))]), version);
  }

  lemma OwnErrorWritable(level: Int32, text: QString, version: UInt32)
    requires |text| <= 100
    ensures Writable(ErrorCall(level, text).(version := version))
  {
    hide Writable;
    OwnWritable(ErrorCall(level, text), version);
  }

  lemma LayerWritable(env: Layer, log: seq<Action>, m: Msg, id: UInt32, version: UInt32)
    requires Sane(env)
    ensures var r := env.answer(log, m);
      && Writable(Reply(id, r).(version := version))
      && Writable(ErrorCall(2, r.text).(version := version))
      && Writable(ProtocolCall(READY_MESSAGE, [r.value]).(version := version))
  {
    hide Writable, Sendable, FitsReturn;
    var r := env.answer(log, m);
    ValueWritable(Reply(id, r).(version := version), r.value, r.text);
    ValueWritable(ErrorCall(2, r.text).(version := version), r.value, r.text);
    ValueWritable(ProtocolCall(READY_MESSAGE, [r.value]).(version := version), r.value, r.text);
  }

  lemma WelcomeBrief(maxVersion: UInt32)
    ensures Writable(ProtocolCall(WELCOME, [UInt(maxVersion)]))
    ensures Writable(ProtocolCall(WELCOME, [UInt(maxVersion)]).(version := 0))
  {
    hide Writable;
    BriefWritable(ProtocolCall(WELCOME, [UInt(maxVersion)]));
  }
}
