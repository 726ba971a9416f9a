/** What a server answers: to which message, under which id, with which result, and how that
    moves its state. */
module ServerAnswers {
  import opened QtTypes
  import opened QStrings
  import opened DataStream
  import opened ReturnValues
  import opened Signatures
  import opened Messages
  import opened MessageWire
  import opened Protocol
  import opened ServerDevice

  /** A message that tells the client what came of one of its own. */
  predicate IsAnswer(m: Msg) {
    m.kind == RETURN || (m.kind == QTRPC && m.func in [ERROR_MESSAGE, READY_MESSAGE])
  }

  function Answers(ms: seq<Msg>): seq<Msg> {
    if ms == [] then []
    else
      var n := |ms| - 1;
      Answers(ms[..n]) + if IsAnswer(ms[n]) then [ms[n].(version := 0)] else []
  }

  /** A message the server owes an answer, if only an error. */
  predicate Asks(m: Msg) {
    m.kind == FUNCTION || (m.kind == QTRPC && AsksByName(m.func.name))
  }

  predicate AsksByName(name: QString) {
    name == SELECT_SERVICE.name
    || name in [Q("listServices"), Q("listFunctions"), Q("listEvents"), Q("listCallbacks"), Q("setDefaultToken")]
  }

  /** What is to be done with a message: answering it, handing it to the protocol, or delivering
      it to whoever waits for the client's reply. */
  datatype Duty = Answer(msg: Msg) | HandOn(msg: Msg) | Deliver(msg: Msg)

  predicate HandsOn(name: QString) {
    name != SET_VERSION.name && name != SELECT_SERVICE.name && name != ERROR_MESSAGE.name
  }

  function Duties(m: Msg): seq<Duty> {
    (if Asks(m) then [Answer(m)] else [])
    + (if m.kind == QTRPC && HandsOn(m.func.name) then [HandOn(m)] else [])
    + (if m.kind == RETURN then [Deliver(m)] else [])
  }

  function AllDuties(ms: seq<Msg>): seq<Duty> {
    if ms == [] then []
    else
      var n := |ms| - 1;
      AllDuties(ms[..n]) + Duties(ms[n])
  }

  function Fulfils(a: Action): seq<Duty> {
    match a
    case Protocolled(m) => [HandOn(m)]
    case CallbackReturned(m) => [Deliver(m)]
    case Volunteered(_) => []
    case Moved(_) => []
    case _ => [Answer(a.msg)]
  }

  /** What has been done with the messages, in order. */
  function Fulfilled(log: seq<Action>): seq<Duty> {
    if log == [] then []
    else
      var n := |log| - 1;
      Fulfilled(log[..n]) + Fulfils(log[n])
  }

  /** What is due for an action: nothing, or one answer, with the id of the message. */
  function Due(env: Layer, before: seq<Action>, a: Action): seq<Msg> {
    match a
    case Ran(m, _) => if env.answer(before, m).IsAsyncronous() then [] else [Reply(m.id, env.answer(before, m))]
    case Selected(m, version, _) =>
      var ret := env.answer(before, m);
      if version != 0 then [Reply(m.id, ret)]
      else if ret.IsError() then [ErrorCall(2, ret.text)]
      else [ProtocolCall(READY_MESSAGE, [ret.value])]
    case Answered(m) => [Reply(m.id, env.answer(before, m))]
    case TokenSet(m) => [Reply(m.id, FromVariant(Bool(true)))]
    case Lacking(m, complaint) => [Reply(m.id, FromError(1, complaint))]
    case Early(m, version, _) => if version == 0 then [ErrorCall(1, NotYet())] else [Reply(m.id, FromError(1, NotYet()))]
    case Unready(m, _) => [ErrorCall(2, NotReady())]
    case Volunteered(m) => if IsAnswer(m) then [m.(version := 0)] else []
    case _ => []
  }

  function AllDue(env: Layer, log: seq<Action>): seq<Msg> {
    if log == [] then []
    else
      var n := |log| - 1;
      AllDue(env, log[..n]) + Due(env, log[..n], log[n])
  }

  /** A selection that found what it asked for. */
  predicate Succeeded(env: Layer, before: seq<Action>, a: Action) {
    a.Selected? && var ret := env.answer(before, a.msg); if a.version == 0 then !ret.IsError() else ret.IsService()
  }

  /** The state an action asks for. */
  function Asked(env: Layer, before: seq<Action>, a: Action): nat {
    match a
    case Protocolled(m) => env.hook(before, m)
    case Moved(state) => state
    case _ => if Succeeded(env, before, a) then READY else CONNECTING
  }

  function Highest(env: Layer, log: seq<Action>): nat {
    if log == [] then CONNECTING
    else
      var n := |log| - 1;
      var state, before := Asked(env, log[..n], log[n]), Highest(env, log[..n]);
      if state > before then state else before
  }

  // -------------------------------------------------------------- invariant

  /** All answers given are those due, in order; and the state is the highest asked for. */
  ghost predicate Answering(env: Layer, s: Server) {
    Answers(s.sent) == AllDue(env, s.log) && s.state == Highest(env, s.log)
  }

  /** A client that speaks some other language. */
  predicate AsksNoVersion(m: Msg) {
    m.kind == QTRPC && m.func.name == SET_VERSION.name && m.args == []
  }

  /** And everything to be done with a message was done, once. */
  ghost predicate Accounted(env: Layer, s: Server) {
    && Answering(env, s) && Fulfilled(s.log) == AllDuties(s.received)
    && (s.hungUp <==> exists m <- s.received :: AsksNoVersion(m))
  }

  /** The answers and states so far, with the last action still to be done. */
  ghost predicate Owing(env: Layer, s: Server, due: seq<Msg>, state: nat) {
    Answers(s.sent) + due == AllDue(env, s.log) && (if state > s.state then state else s.state) == Highest(env, s.log)
  }

  lemma LogOwes(env: Layer, s: Server, a: Action)
    requires Answering(env, s)
    ensures Owing(env, Log(s, a), Due(env, s.log, a), Asked(env, s.log, a))
    ensures Fulfilled(Log(s, a).log) == Fulfilled(s.log) + Fulfils(a)
  {
    assert (s.log + [a])[..|s.log|] == s.log;
    LogFulfils(s.log, a);
    hide Due, Asked, Fulfilled, Answers, Fulfils;
  }

  lemma LogFulfils(log: seq<Action>, a: Action)
    ensures Fulfilled(log + [a]) == Fulfilled(log) + Fulfils(a)
  {
    assert (log + [a])[..|log|] == log;
  }

  lemma WritePays(env: Layer, s: Server, m: Msg, state: nat)
    requires Owing(env, s, if IsAnswer(m) then [m.(version := 0)] else [], state)
    ensures Owing(env, Write(s, m), [], state)
  {
    assert (s.sent + [m.(version := s.version)])[..|s.sent|] == s.sent;
    hide AllDue, Highest;
  }

  lemma ChangePays(env: Layer, s: Server, state: nat, due: seq<Msg>)
    requires Owing(env, s, due, state)
    ensures Owing(env, ChangeState(s, state), due, 0)
  {
    hide AllDue, Highest, STATE_CHANGED, ERROR_MESSAGE, READY_MESSAGE;
    if state > s.state {
      var m := ProtocolCall(STATE_CHANGED, [Int(ToInt32(state))]).(version := s.version);
      NotAnswers();
      assert !IsAnswer(m);
      assert (s.sent + [m])[..|s.sent|] == s.sent;
    }
  }

  lemma AllPaid(env: Layer, s: Server)
    requires Owing(env, s, [], 0)
    ensures Answering(env, s)
  {
    hide Answers, AllDue, Highest;
  }

  lemma NotAnswers()
    ensures STATE_CHANGED !in [ERROR_MESSAGE, READY_MESSAGE]
    ensures SET_VERSION !in [ERROR_MESSAGE, READY_MESSAGE] && WELCOME !in [ERROR_MESSAGE, READY_MESSAGE]
  {
    hide Q;
    OrdinaryNames();
    NegotiationNames();
    hide STATE_CHANGED, SET_VERSION, WELCOME, ERROR_MESSAGE, READY_MESSAGE;
  }

  /** One logged action, the state it asks for, and the answer due. */
  lemma Replies(env: Layer, s: Server, a: Action, m: Msg)
    requires Answering(env, s) && Due(env, s.log, a) == [m] && IsAnswer(m) && m.version == 0
    requires Asked(env, s.log, a) == CONNECTING
    ensures Answering(env, Write(Log(s, a), m))
  {
    hide Due, Asked, IsAnswer, Answering, Write, AllDue, Highest;
    LogOwes(env, s, a);
    WritePays(env, Log(s, a), m, CONNECTING);
    AllPaid(env, Write(Log(s, a), m));
  }

  lemma SelectAnswers(env: Layer, s: Server, m: Msg)
    requires Answering(env, s)
    ensures Answering(env, SelectService(env, s, m))
  {
    hide Answering, Answers, AllDue, Highest, Owing, ChangeState, Write, Q;
    hide ERROR_MESSAGE, READY_MESSAGE, NotYet;
    var ret := env.answer(s.log, m);
    if s.state == CONNECTING {
      var reply := if s.version == 0 then ErrorCall(1, NotYet()) else Reply(m.id, FromError(1, NotYet()));
      Replies(env, s, Early(m, s.version, |s.sent|), reply);
    } else {
      var a := Selected(m, s.version, |s.sent|);
      var t := Log(s, a);
      LogOwes(env, s, a);
      if s.version == 0 && !ret.IsError() {
        var reply := ProtocolCall(READY_MESSAGE, [ret.value]);
        WritePays(env, t, reply, READY);
        ChangePays(env, Write(t, reply), READY, []);
        AllPaid(env, ChangeState(Write(t, reply), READY));
      } else if s.version != 0 && ret.IsService() {
        ChangePays(env, t, READY, [Reply(m.id, ret)]);
        WritePays(env, ChangeState(t, READY), Reply(m.id, ret), 0);
        AllPaid(env, Write(ChangeState(t, READY), Reply(m.id, ret)));
      } else {
        Replies(env, s, a, if s.version == 0 then ErrorCall(2, ret.text) else Reply(m.id, ret));
      }
    }
  }

  /** A reply that moves no state. */
  lemma SimplyReplies(env: Layer, s: Server, a: Action, ret: ReturnValue)
    requires Answering(env, s)
    requires (a.Answered? && ret == env.answer(s.log, a.msg))
             || (a.TokenSet? && ret == FromVariant(Bool(true)))
             || (a.Lacking? && ret == FromError(1, a.complaint))
    ensures var t := Write(Log(s, a), Reply(a.msg.id, ret));
      Answering(env, t) && Fulfilled(t.log) == Fulfilled(s.log) + [Answer(a.msg)]
  {
    hide Answering, Answers, AllDue, Highest, Fulfilled, NotYet, NotReady, FromVariant, FromError, ArgsFromReturn;
    hide READY_MESSAGE, ERROR_MESSAGE;
    LogFulfils(s.log, a);
    Replies(env, s, a, Reply(a.msg.id, ret));
  }

  lemma QueryAnswers(env: Layer, s: Server, m: Msg, needsArgument: bool, complaint: QString)
    requires Answering(env, s)
    ensures var t := Query(env, s, m, needsArgument, complaint);
      Answering(env, t) && Fulfilled(t.log) == Fulfilled(s.log) + [Answer(m)]
  {
    hide Answering, Fulfilled, Write, Log, Reply, FromError;
    SimplyReplies(env, s, Lacking(m, complaint), FromError(1, complaint));
    SimplyReplies(env, s, Answered(m), env.answer(s.log, m));
  }

  lemma TokenAnswers(env: Layer, s: Server, m: Msg)
    requires Answering(env, s)
    ensures var t := SetDefaultToken(s, m); Answering(env, t) && Fulfilled(t.log) == Fulfilled(s.log) + [Answer(m)]
  {
    hide Answering, Fulfilled, Write, Log, Reply, FromError, FromVariant, NoToken;
    SimplyReplies(env, s, Lacking(m, NoToken()), FromError(1, NoToken()));
    SimplyReplies(env, s, TokenSet(m), FromVariant(Bool(true)));
  }

  lemma SelectFulfils(env: Layer, s: Server, m: Msg)
    ensures Fulfilled(SelectService(env, s, m).log) == Fulfilled(s.log) + [Answer(m)]
  {
    hide Fulfilled;
    LogFulfils(s.log, Early(m, s.version, |s.sent|));
    LogFulfils(s.log, Selected(m, s.version, |s.sent|));
  }

  lemma CheckAnswers(env: Layer, s: Server, m: Msg)
    requires Answering(env, s) && m.kind == QTRPC
    ensures var c := CheckProtocolFunction(env, s, m);
      && Answering(env, c.server)
      && Fulfilled(c.server.log) == Fulfilled(s.log) + (if Asks(m) then [Answer(m)] else [])
      && (c.done <==> !HandsOn(m.func.name))
  {
    hide Answering, Fulfilled, SelectService, Query, SetDefaultToken, Q, Write;
    var name := m.func.name;
    NamesApart();
    hide SELECT_SERVICE, SET_VERSION, ERROR_MESSAGE;
    if name == SET_VERSION.name {
      if m.args == [] {
        SameAnswers(env, s, s.(hungUp := true));
      } else {
        VersionAnswers(env, s, Min(ToUInt(m.args[0]), env.maxVersion));
      }
    } else if name == SELECT_SERVICE.name {
      SelectAnswers(env, s, m);
      SelectFulfils(env, s, m);
    } else if name == Q("listServices") {
      QueryAnswers(env, s, m, false, []);
    } else if name == Q("listFunctions") {
      QueryAnswers(env, s, m, true, NoFunctionName());
    } else if name == Q("listEvents") {
      QueryAnswers(env, s, m, true, NoEventName());
    } else if name == Q("listCallbacks") {
      QueryAnswers(env, s, m, true, NoCallbackName());
    } else if name == Q("setDefaultToken") {
      TokenAnswers(env, s, m);
    }
  }

  lemma NamesApart()
    ensures !AsksByName(SET_VERSION.name) && !AsksByName(ERROR_MESSAGE.name)
  {
    hide Q;
    OrdinaryNames();
    NegotiationNames();
    hide SELECT_SERVICE, SET_VERSION, ERROR_MESSAGE;
  }

  lemma VersionAnswers(env: Layer, s: Server, version: UInt32)
    requires Answering(env, s)
    ensures Answering(env, Write(s, VersionCall(version)).(version := version))
    ensures Write(s, VersionCall(version)).log == s.log
  {
    NotAnswers();
    hide SET_VERSION, ERROR_MESSAGE, READY_MESSAGE, AllDue, Highest;
    var m := VersionCall(version).(version := s.version);
    assert (s.sent + [m])[..|s.sent|] == s.sent;
  }

  lemma ParseAnswers(env: Layer, s: Server, m: Msg)
    requires Answering(env, s)
    ensures var t := ParseMessage(env, s, m).server;
      && Answering(env, t) && Fulfilled(t.log) == Fulfilled(s.log) + Duties(m)
  {
    hide Answering, Answers, AllDue, Highest, Owing, ChangeState, CheckProtocolFunction, AsksByName, NotReady, Fulfilled;
    if m.kind == FUNCTION {
      var ret := env.answer(s.log, m);
      var a := if s.state != READY then Unready(m, |s.sent|) else Ran(m, |s.sent|);
      LogOwes(env, s, a);
      if s.state == READY && ret.IsAsyncronous() {
        AllPaid(env, Log(s, a));
      } else {
        Replies(env, s, a, if s.state != READY then ErrorCall(2, NotReady()) else Reply(m.id, ret));
      }
    } else if m.kind == QTRPC {
      CheckAnswers(env, s, m);
      var c := CheckProtocolFunction(env, s, m).server;
      HookAnswers(env, c, m);
    } else if m.kind == RETURN {
      LogOwes(env, s, CallbackReturned(m));
      AllPaid(env, Log(s, CallbackReturned(m)));
    }
  }

  lemma HookAnswers(env: Layer, s: Server, m: Msg)
    requires Answering(env, s)
    ensures var t := Log(ChangeState(s, env.hook(s.log, m)), Protocolled(m));
      Answering(env, t) && Fulfilled(t.log) == Fulfilled(s.log) + [HandOn(m)]
  {
    hide Answering, Answers, AllDue, Highest, Owing;
    var a, state := Protocolled(m), env.hook(s.log, m);
    LogOwes(env, s, a);
    ChangePays(env, Log(s, a), state, []);
    AllPaid(env, ChangeState(Log(s, a), state));
  }

  /** Whatever the bytes of a frame. */
  lemma ReceiveAccounts(env: Layer, s: Server, payload: seq<Byte>)
    requires Accounted(env, s)
    ensures Accounted(env, Receive(env, s, payload))
  {
    hide Answering, Fulfilled, ParseMessage, Decode, AsksByName, AsksNoVersion;
    var m, m0 := Decode(s.version, payload).value, Decode(0, payload).value;
    FallbackOnce(env, s, payload);
    ParseAnswers(env, s, m);
    ParseAnswers(env, s, m0);
    ParseHangsUp(env, s, m);
    ParseHangsUp(env, s, m0);
    OneMore(s.received, m);
    OneMore(s.received, m0);
    var t := Receive(env, s, payload);
    SameAnswers(env, s, s.(received := t.received));
    SameAnswers(env, ParseMessage(env, s, m).server, ParseMessage(env, s, m).server.(received := t.received));
    SameAnswers(env, ParseMessage(env, s, m0).server, ParseMessage(env, s, m0).server.(received := t.received));
  }

  lemma ParseHangsUp(env: Layer, s: Server, m: Msg)
    ensures ParseMessage(env, s, m).server.hungUp <==> s.hungUp || AsksNoVersion(m)
  {
    hide CheckProtocolFunction;
    if m.kind == QTRPC {
      CheckHangsUp(env, s, m);
    }
  }

  lemma CheckHangsUp(env: Layer, s: Server, m: Msg)
    requires m.kind == QTRPC
    ensures CheckProtocolFunction(env, s, m).server.hungUp <==> s.hungUp || AsksNoVersion(m)
  {
    OthersStay(env, s, m);
    hide Q, SET_VERSION, SELECT_SERVICE, ERROR_MESSAGE, SelectService, Query, SetDefaultToken;
  }

  lemma OthersStay(env: Layer, s: Server, m: Msg)
    ensures SelectService(env, s, m).hungUp == s.hungUp && SetDefaultToken(s, m).hungUp == s.hungUp
    ensures forall needsArgument, complaint :: Query(env, s, m, needsArgument, complaint).hungUp == s.hungUp
  {
    hide Reply, ErrorCall, ProtocolCall, NotYet, NoToken;
  }

  lemma OneMore(ms: seq<Msg>, m: Msg)
    ensures AllDuties(ms + [m]) == AllDuties(ms) + Duties(m)
  {
    assert (ms + [m])[..|ms|] == ms;
  }

  lemma SameAnswers(env: Layer, s: Server, t: Server)
    requires Answering(env, s) && t.sent == s.sent && t.log == s.log && t.state == s.state
    ensures Answering(env, t)
  {
  }

  lemma VolunteerAccounts(env: Layer, s: Server, m: Msg)
    requires Accounted(env, s)
    ensures Accounted(env, Volunteer(s, m))
  {
    hide Answering, Answers, AllDue, Highest, Owing, AllDuties, IsAnswer;
    LogOwes(env, s, Volunteered(m));
    WritePays(env, Log(s, Volunteered(m)), m, CONNECTING);
    AllPaid(env, Volunteer(s, m));
  }

  lemma MoveAccounts(env: Layer, s: Server, state: nat)
    requires Accounted(env, s)
    ensures Accounted(env, Move(s, state))
  {
    hide Answering, Answers, AllDue, Highest, Owing, AllDuties;
    LogOwes(env, s, Moved(state));
    ChangePays(env, Log(s, Moved(state)), state, []);
    AllPaid(env, Move(s, state));
  }

  lemma StartAccounts(env: Layer)
    ensures Accounted(env, Write(Server(0, CONNECTING, [], [], [], false), ProtocolCall(WELCOME, [UInt(env.maxVersion)])))
  {
    NotAnswers();
    hide WELCOME, ERROR_MESSAGE, READY_MESSAGE;
    var m := ProtocolCall(WELCOME, [UInt(env.maxVersion)]).(version := 0);
    assert [m][..0] == [];
    assert Answers([m]) == [];
  }

  // ---------------------------------------------------------------- results

  /** An answer written has its place among the answers. */
  lemma {:induction false} AnswerAt(ms: seq<Msg>, k: nat)
    requires k < |ms| && IsAnswer(ms[k])
    ensures |Answers(ms[..k])| < |Answers(ms)| && Answers(ms)[|Answers(ms[..k])|] == ms[k].(version := 0)
    decreases |ms|
  {
    var n := |ms| - 1;
    if k < n {
      AnswerAt(ms[..n], k);
      assert ms[..n][..k] == ms[..k];
    }
  }

  /** Every answer is due for one action: the order of the answers is that of the actions. */
  lemma {:induction false} DueFrom(env: Layer, log: seq<Action>, b: nat) returns (a: nat)
    requires b < |AllDue(env, log)|
    ensures a < |log| && Due(env, log[..a], log[a]) == [AllDue(env, log)[b]]
    ensures |AllDue(env, log[..a])| == b
    decreases |log|
  {
    hide Due;
    var n := |log| - 1;
    if b < |AllDue(env, log[..n])| {
      a := DueFrom(env, log[..n], b);
      assert log[..n][..a] == log[..a];
    } else {
      a := n;
      DueOnce(env, log[..n], log[n]);
    }
  }

  lemma DueOnce(env: Layer, before: seq<Action>, a: Action)
    ensures |Due(env, before, a)| <= 1
  {
    hide Reply, ErrorCall, ProtocolCall, NotYet, NotReady, READY_MESSAGE, IsAnswer;
  }

  /** An action that answers a message is for one that arrived: the order of these actions is that
      of arrival. */
  lemma AnswersArrived(log: seq<Action>, received: seq<Msg>, a: nat, m: Msg) returns (j: nat)
    requires Fulfilled(log) == AllDuties(received) && a < |log| && Fulfils(log[a]) == [Answer(m)]
    ensures j < |received| && received[j] == m && Asks(m)
    ensures |AllDuties(received[..j])| == |Fulfilled(log[..a])|
  {
    FulfilledAt(log, a);
    j := DutyAt(received, |Fulfilled(log[..a])|);
  }

  lemma {:induction false} FulfilledAt(log: seq<Action>, a: nat)
    requires a < |log| && Fulfils(log[a]) != []
    ensures |Fulfilled(log[..a])| < |Fulfilled(log)| && Fulfilled(log)[|Fulfilled(log[..a])|] == Fulfils(log[a])[0]
    decreases |log|
  {
    var n := |log| - 1;
    if a < n {
      FulfilledAt(log[..n], a);
      assert log[..n][..a] == log[..a];
    }
  }

  lemma {:induction false} DutyAt(ms: seq<Msg>, p: nat) returns (j: nat)
    requires p < |AllDuties(ms)| && AllDuties(ms)[p].Answer?
    ensures j < |ms| && AllDuties(ms)[p] == Answer(ms[j]) && Asks(ms[j]) && |AllDuties(ms[..j])| == p
    decreases |ms|
  {
    hide Asks, HandsOn;
    var n := |ms| - 1;
    if p < |AllDuties(ms[..n])| {
      j := DutyAt(ms[..n], p);
      assert ms[..n][..j] == ms[..j];
    } else {
      j := n;
    }
  }

  /** Answers to different actions, and actions for different answers, are different. */
  lemma Apart(env: Layer, ms: seq<Msg>, log: seq<Action>, k: nat, l: nat)
    ensures k < l <= |ms| && IsAnswer(ms[k]) ==> |Answers(ms[..k])| < |Answers(ms[..l])|
    ensures k < l <= |log| && Fulfils(log[k]) != [] ==> |Fulfilled(log[..k])| < |Fulfilled(log[..l])|
  {
    if k < l <= |ms| && IsAnswer(ms[k]) {
      AnswerAt(ms[..l], k);
      assert ms[..l][..k] == ms[..k];
    }
    if k < l <= |log| && Fulfils(log[k]) != [] {
      FulfilledAt(log[..l], k);
      assert log[..l][..k] == log[..k];
    }
  }

  /** The server is ready exactly when a selection has succeeded, or its protocol or its transport
      has asked for that state. */
  lemma {:induction false} ReadyExactly(env: Layer, log: seq<Action>)
    ensures Highest(env, log) >= READY <==> exists i :: 0 <= i < |log| && Asked(env, log[..i], log[i]) >= READY
  {
    hide Asked;
    if log != [] {
      var n := |log| - 1;
      ReadyExactly(env, log[..n]);
      assert forall i :: 0 <= i < n ==> log[..n][..i] == log[..i] && log[..n][i] == log[i];
    }
  }
}
