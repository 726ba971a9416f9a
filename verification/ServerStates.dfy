/** The state of a server connection over all its runs, as announced on the wire. */
module ServerStates {
  import opened QtTypes
  import opened QStrings
  import opened DataStream
  import opened ReturnValues
  import opened Signatures
  import opened Messages
  import opened MessageWire
  import opened Protocol
  import opened ServerDevice
  import opened ServerAnswers

  /** A frame arrives, the application sends something of its own (an event, a callback, a
      delayed reply), or the transport moves the state, as when encryption is up. */
  datatype Event = Arrive(payload: seq<Byte>) | Emit(msg: Msg) | Become(state: nat)

  function Start(env: Layer): Server {
    Write(Server(0, CONNECTING, [], [], [], false), ProtocolCall(WELCOME, [UInt(env.maxVersion)]))
  }

  function Apply(env: Layer, s: Server, e: Event): Server {
    match e
    case Arrive(payload) => Receive(env, s, payload)
    case Emit(m) => Volunteer(s, m)
    case Become(state) => Move(s, state)
  }

  function Run(env: Layer, events: seq<Event>): Server {
    if events == [] then Start(env)
    else Apply(env, Run(env, events[..|events| - 1]), events[|events| - 1])
  }

  /** Only changeState writes what the client takes for a change of state, and only for a state
      there is. */
  ghost predicate Admissible(events: seq<Event>) {
    forall i :: 0 <= i < |events| ==>
      match events[i]
      case Arrive(_) => true
      case Emit(m) => !IsStateChange(m)
      case Become(state) => state <= READY
  }

  function Announced(m: Msg): int
    requires IsStateChange(m)
  {
    ToInt(m.args[0])
  }

  ghost predicate AnnouncedBefore(ms: seq<Msg>, n: nat, state: int) {
    exists i :: 0 <= i < n <= |ms| && IsStateChange(ms[i]) && Announced(ms[i]) == state
  }

  ghost predicate StrictlyIncreasing(ms: seq<Msg>) {
    forall i, j :: 0 <= i < j < |ms| && IsStateChange(ms[i]) && IsStateChange(ms[j]) ==> Announced(ms[i]) < Announced(ms[j])
  }

  ghost predicate AnyBefore(ms: seq<Msg>, n: nat) {
    exists i :: 0 <= i < n <= |ms| && IsStateChange(ms[i])
  }

  /** A function is run or refused by whether the ready state had been announced; a selection by
      whether any state had. */
  ghost predicate Timely(ms: seq<Msg>, a: Action) {
    match a
    case Ran(_, after) => AnnouncedBefore(ms, after, READY)
    case Unready(_, after) => after <= |ms| && !AnnouncedBefore(ms, after, READY)
    case Selected(_, _, after) => AnyBefore(ms, after)
    case Early(_, _, after) => after <= |ms| && !AnyBefore(ms, after)
    case _ => true
  }

  ghost predicate Gate(s: Server) {
    && StrictlyIncreasing(s.sent) && s.state <= READY
    && (forall i :: 0 <= i < |s.sent| && IsStateChange(s.sent[i]) ==> CONNECTING < Announced(s.sent[i]) <= s.state)
    && (s.state > CONNECTING ==> AnnouncedBefore(s.sent, |s.sent|, s.state))
    && (forall k :: 0 <= k < |s.log| ==> Timely(s.sent, s.log[k]))
  }

  lemma MoreSent(ms: seq<Msg>, m: Msg, n: nat, state: int)
    ensures AnnouncedBefore(ms, n, state) ==> AnnouncedBefore(ms + [m], n, state)
    ensures n <= |ms| ==> (AnnouncedBefore(ms, n, state) <==> AnnouncedBefore(ms + [m], n, state))
    ensures AnnouncedBefore(ms, |ms|, state) ==> AnnouncedBefore(ms + [m], |ms| + 1, state)
    ensures AnyBefore(ms, n) ==> AnyBefore(ms + [m], n)
    ensures n <= |ms| ==> (AnyBefore(ms, n) <==> AnyBefore(ms + [m], n))
  {
    hide IsStateChange;
    var more := ms + [m];
    assert forall i :: 0 <= i < |ms| ==> more[i] == ms[i];
  }

  lemma TimelyKept(ms: seq<Msg>, m: Msg, a: Action)
    requires Timely(ms, a)
    ensures Timely(ms + [m], a)
  {
    hide AnnouncedBefore, AnyBefore;
    MoreSent(ms, m, if a.Ran? || a.Unready? || a.Selected? || a.Early? then a.after else 0, READY);
  }

  lemma AllTimely(ms: seq<Msg>, m: Msg, log: seq<Action>)
    requires forall k :: 0 <= k < |log| ==> Timely(ms, log[k])
    ensures forall k :: 0 <= k < |log| ==> Timely(ms + [m], log[k])
  {
    hide Timely;
    forall k | 0 <= k < |log| ensures Timely(ms + [m], log[k]) {
      TimelyKept(ms, m, log[k]);
    }
  }

  lemma GateWrite(s: Server, m: Msg)
    requires Gate(s) && !IsStateChange(m)
    ensures Gate(Write(s, m))
  {
    hide IsStateChange, Timely;
    var sent := m.(version := s.version);
    assert !IsStateChange(sent) by { VersionApart(m, s.version); }
    MoreSent(s.sent, sent, |s.sent|, s.state);
    AllTimely(s.sent, sent, s.log);
  }

  lemma VersionApart(m: Msg, version: UInt32)
    ensures IsStateChange(m.(version := version)) == IsStateChange(m)
  {
    hide FromString, ToString, Trim, STATE_CHANGED;
  }

  lemma GateChangeState(s: Server, state: nat)
    requires Gate(s) && state <= READY
    ensures Gate(ChangeState(s, state))
  {
    hide STATE_CHANGED, IsStateChange, Timely;
    if state > s.state {
      var m := ProtocolCall(STATE_CHANGED, [Int(ToInt32(state))]).(version := s.version);
      AllTimely(s.sent, m, s.log);
      OwnChange(m);
      var sent := s.sent + [m];
      assert IsStateChange(sent[|s.sent|]) && Announced(m) == state;
    }
  }

  lemma OwnChange(m: Msg)
    requires m.kind == QTRPC && m.func == STATE_CHANGED && m.args != []
    ensures IsStateChange(m)
  {
    hide STATE_CHANGED, Trim, ToString, FromString;
    OrdinaryNames();
  }

  lemma GateLog(s: Server, a: Action)
    requires Gate(s) && Timely(s.sent, a)
    ensures Gate(Log(s, a))
  {
    hide Timely, IsStateChange;
  }

  /** What the state says at the time. */
  lemma TimelyNow(s: Server, m: Msg)
    requires Gate(s)
    ensures Timely(s.sent, if s.state == READY then Ran(m, |s.sent|) else Unready(m, |s.sent|))
    ensures Timely(s.sent,
      if s.state == CONNECTING then Early(m, s.version, |s.sent|) else Selected(m, s.version, |s.sent|))
  {
    hide IsStateChange;
  }

  lemma OtherName(m: Msg)
    requires m.kind == QTRPC ==>
               Trim(m.func.name) == m.func.name && PERCENT !in m.func.name && |m.func.name| != |STATE_CHANGED.name|
    ensures !IsStateChange(m)
  {
    hide STATE_CHANGED, Trim, ToString, FromString, Pieces;
    OrdinaryNames();
    EmptyTrim();
    if m.kind == QTRPC {
      NoMarkers(m.func.name);
      ReadBackName(m.func);
    }
  }

  /** Nothing the device writes by itself announces a state, changeState apart. */
  lemma GateWriteOwn(s: Server, m: Msg)
    requires Gate(s)
    requires m.kind == RETURN || m.func in [ERROR_MESSAGE, READY_MESSAGE, SET_VERSION, WELCOME]
    ensures Gate(Write(s, m))
  {
    hide Gate, Write, IsStateChange, Trim;
    hide ERROR_MESSAGE, READY_MESSAGE, SET_VERSION, WELCOME, STATE_CHANGED;
    OrdinaryNames();
    NegotiationNames();
    OtherName(m);
    GateWrite(s, m);
  }

  lemma GateSelect(env: Layer, s: Server, m: Msg)
    requires Gate(s)
    ensures Gate(SelectService(env, s, m))
  {
    hide Gate, Write, ChangeState, Log, IsStateChange;
    hide ERROR_MESSAGE, READY_MESSAGE, SET_VERSION, WELCOME, STATE_CHANGED;
    hide Timely;
    TimelyNow(s, m);
    if s.state == CONNECTING {
      var t := Log(s, Early(m, s.version, |s.sent|));
      GateLog(s, Early(m, s.version, |s.sent|));
      GateWriteOwn(t, ErrorCall(1, NotYet()));
      GateWriteOwn(t, Reply(m.id, FromError(1, NotYet())));
    } else {
      var ret, t := env.answer(s.log, m), Log(s, Selected(m, s.version, |s.sent|));
      GateLog(s, Selected(m, s.version, |s.sent|));
      GateWriteOwn(t, ErrorCall(2, ret.text));
      GateWriteOwn(t, ProtocolCall(READY_MESSAGE, [ret.value]));
      GateChangeState(Write(t, ProtocolCall(READY_MESSAGE, [ret.value])), READY);
      GateChangeState(t, READY);
      GateWriteOwn(if ret.IsService() then ChangeState(t, READY) else t, Reply(m.id, ret));
    }
  }

  lemma GateQuery(env: Layer, s: Server, m: Msg, needsArgument: bool, complaint: QString)
    requires Gate(s)
    ensures Gate(Query(env, s, m, needsArgument, complaint))
  {
    hide Gate, Write, Log, IsStateChange;
    hide ERROR_MESSAGE, READY_MESSAGE, SET_VERSION, WELCOME, STATE_CHANGED;
    GateLog(s, Lacking(m, complaint));
    GateLog(s, Answered(m));
    GateWriteOwn(Log(s, Lacking(m, complaint)), Reply(m.id, FromError(1, complaint)));
    GateWriteOwn(Log(s, Answered(m)), Reply(m.id, env.answer(s.log, m)));
  }

  lemma GateToken(s: Server, m: Msg)
    requires Gate(s)
    ensures Gate(SetDefaultToken(s, m))
  {
    hide Gate, Write, Log, IsStateChange;
    hide ERROR_MESSAGE, READY_MESSAGE, SET_VERSION, WELCOME, STATE_CHANGED;
    GateLog(s, Lacking(m, NoToken()));
    GateLog(s, TokenSet(m));
    GateWriteOwn(Log(s, Lacking(m, NoToken())), Reply(m.id, FromError(1, NoToken())));
    GateWriteOwn(Log(s, TokenSet(m)), Reply(m.id, FromVariant(Bool(true))));
  }

  /** Hanging up and switching the version are no concern of the gate. */
  lemma GateOther(s: Server, t: Server)
    requires Gate(s) && t.state == s.state && t.sent == s.sent && t.log == s.log
    ensures Gate(t)
  {
  }

  lemma GateCheck(env: Layer, s: Server, m: Msg)
    requires Gate(s)
    ensures Gate(CheckProtocolFunction(env, s, m).server)
  {
    hide Gate, Write, IsStateChange, SelectService, Query, SetDefaultToken, Q;
    hide ERROR_MESSAGE, READY_MESSAGE, SET_VERSION, WELCOME, STATE_CHANGED, SELECT_SERVICE;
    GateSelect(env, s, m);
    GateQuery(env, s, m, false, []);
    GateQuery(env, s, m, true, NoFunctionName());
    GateQuery(env, s, m, true, NoEventName());
    GateQuery(env, s, m, true, NoCallbackName());
    GateToken(s, m);
    GateOther(s, s.(hungUp := true));
    if m.args != [] {
      var v := Min(ToUInt(m.args[0]), env.maxVersion);
      GateWriteOwn(s, VersionCall(v));
      GateOther(Write(s, VersionCall(v)), Write(s, VersionCall(v)).(version := v));
    }
  }

  lemma GateParse(env: Layer, s: Server, m: Msg)
    requires Gate(s) && Sane(env)
    ensures Gate(ParseMessage(env, s, m).server)
  {
    hide Gate, Write, Log, IsStateChange, ChangeState, CheckProtocolFunction;
    hide ERROR_MESSAGE, READY_MESSAGE, SET_VERSION, WELCOME, STATE_CHANGED;
    if m.kind == FUNCTION {
      TimelyNow(s, m);
      if s.state != READY {
        GateLog(s, Unready(m, |s.sent|));
        GateWriteOwn(Log(s, Unready(m, |s.sent|)), ErrorCall(2, NotReady()));
      } else {
        GateLog(s, Ran(m, |s.sent|));
        GateWriteOwn(Log(s, Ran(m, |s.sent|)), Reply(m.id, env.answer(s.log, m)));
      }
    } else if m.kind == QTRPC {
      var checked := CheckProtocolFunction(env, s, m).server;
      GateCheck(env, s, m);
      GateChangeState(checked, env.hook(checked.log, m));
      GateLog(ChangeState(checked, env.hook(checked.log, m)), Protocolled(m));
    } else {
      GateLog(s, CallbackReturned(m));
    }
  }

  lemma GateReceive(env: Layer, s: Server, payload: seq<Byte>)
    requires Gate(s) && Sane(env)
    ensures Gate(Receive(env, s, payload))
  {
    hide Gate, ParseMessage, Decode, Sane;
    var m, m0 := Decode(s.version, payload).value, Decode(0, payload).value;
    var first := ParseMessage(env, s, m).server;
    GateParse(env, s, m);
    GateParse(env, first, m0);
    GateOther(first, first.(received := s.received + [m]));
    var second := ParseMessage(env, first, m0).server;
    GateOther(second, second.(received := s.received + [m0]));
  }

  lemma {:induction false} GateAlways(env: Layer, events: seq<Event>)
    requires Sane(env) && Admissible(events)
    ensures Gate(Run(env, events))
  {
    hide Gate, Receive, Write, ChangeState, Sane;
    if events == [] {
      var s := Server(0, CONNECTING, [], [], [], false);
      NothingSent(s);
      GateWriteOwn(s, ProtocolCall(WELCOME, [UInt(env.maxVersion)]));
    } else {
      var n := |events| - 1;
      var s := Run(env, events[..n]);
      GateAlways(env, events[..n]);
      match events[n]
      case Arrive(payload) => GateReceive(env, s, payload);
      case Emit(m) =>
        GateLog(s, Volunteered(m));
        GateWrite(Log(s, Volunteered(m)), m);
      case Become(state) =>
        GateLog(s, Moved(state));
        GateChangeState(Log(s, Moved(state)), state);
    }
  }

  lemma NothingSent(s: Server)
    requires s.state == CONNECTING && s.sent == [] && s.log == []
    ensures Gate(s)
  {
  }

  /** In every run, whatever frames arrive: the states announced strictly increase; a function
      reaches the service layer if the announcement of the ready state has gone out before, and is
      refused if not; and a selection by whether any announcement has. */
  lemma StatesAnnounced(env: Layer, events: seq<Event>)
    requires Sane(env) && Admissible(events)
    ensures var s := Run(env, events);
      && StrictlyIncreasing(s.sent)
      && forall k :: 0 <= k < |s.log| ==> Timely(s.sent, s.log[k])
  {
    hide Timely;
    GateAlways(env, events);
  }

  /** In every run, whatever frames arrive and whatever the application does: each message that
      asks is dealt with once, in order; the answers are those due for them, in order; and the
      state is the highest asked for. */
  lemma {:induction false} AnswersInOrder(env: Layer, events: seq<Event>)
    ensures Accounted(env, Run(env, events))
  {
    hide Accounted, Receive, Volunteer, Move;
    if events == [] {
      StartAccounts(env);
    } else {
      var n := |events| - 1;
      AnswersInOrder(env, events[..n]);
      var s := Run(env, events[..n]);
      match events[n]
      case Arrive(payload) => ReceiveAccounts(env, s, payload);
      case Emit(m) => VolunteerAccounts(env, s, m);
      case Become(state) => MoveAccounts(env, s, state);
    }
  }
}
