/** What a client signals and writes: what for, with which id and value. */
module ClientSignals {
  import opened QtTypes
  import opened QStrings
  import opened DataStream
  import opened ReturnValues
  import opened Signatures
  import opened Messages
  import opened MessageWire
  import opened Protocol
  import opened ClientDevice

  // ---------------------------------------------------- what a message calls for

  predicate Named(m: Msg, func: Sig) {
    m.kind == QTRPC && Trim(m.func.name) == func.name
  }

  /** The server gives up. */
  predicate IsFatal(m: Msg) {
    Named(m, ERROR_MESSAGE) && ToInt(Argument(m.args, 0)) == 2
  }

  /** The server takes the version asked for. */
  predicate Agrees(cfg: Config, m: Msg) {
    Named(m, SET_VERSION) && m.args != [] && ToUInt(m.args[0]) <= cfg.maxVersion
  }

  /** The server takes no version, or one unknown here: the device gives up. */
  predicate Refuses(cfg: Config, m: Msg) {
    Named(m, SET_VERSION) && !Agrees(cfg, m)
  }

  predicate ForDevice(m: Msg) {
    Named(m, WELCOME) || Named(m, SET_VERSION) || Named(m, ERROR_MESSAGE)
    || Named(m, STATE_CHANGED) || Named(m, READY_MESSAGE)
  }

  /** The signals due for a message. */
  function Raises(cfg: Config, m: Msg): seq<Signal> {
    (if m.kind == FUNCTION then [SendCallback(m)] else [])
    + (if m.kind == EVENT then [SendEvent(m)] else [])
    + (if m.kind == RETURN then [ReturnReceived(m.id, m.ret, Wire)] else [])
    + (if m.kind == QTRPC && !ForDevice(m) then [ProtocolFunction(m)] else [])
    + (if Agrees(cfg, m) then [ReturnReceived(cfg.connectId, FromVariant(Bool(true)), Acknowledged)] else [])
    + (if Named(m, READY_MESSAGE)
       then [ReturnReceived(cfg.selectServiceId, FromVariant(Argument(m.args, 0)), Ready)] else [])
    + (if IsFatal(m) && cfg.connectId != NO_CONNECT_ID
       then [ReturnReceived(cfg.connectId, FromError(2, ToText(Argument(m.args, 1))), Fatal)] else [])
  }

  /** What the device itself writes for a message: its request for a version, what the transport
      has to say once connected, and the selection of a service. */
  function OwnWrites(cfg: Config, m: Msg): seq<Msg> {
    if Named(m, WELCOME) && m.args != [] then [VersionCall(Min(ToUInt(m.args[0]), cfg.maxVersion))]
    else if Named(m, WELCOME) || Agrees(cfg, m) then cfg.onConnected
    else if Named(m, STATE_CHANGED) && ToInt(Argument(m.args, 0)) == SERVICE_STATE && cfg.serviceName != [] then
      [ProtocolCall(SELECT_SERVICE, [Str(cfg.serviceName), Str(cfg.user), Str(cfg.password)])]
    else []
  }

  function AllRaises(cfg: Config, ms: seq<Msg>): seq<Signal> {
    if ms == [] then []
    else
      var n := |ms| - 1;
      AllRaises(cfg, ms[..n]) + Raises(cfg, ms[n])
  }

  function AllOwnWrites(cfg: Config, ms: seq<Msg>): seq<Msg> {
    if ms == [] then []
    else
      var n := |ms| - 1;
      AllOwnWrites(cfg, ms[..n]) + OwnWrites(cfg, ms[n])
  }

  // --------------------------------------------------------- what was signalled

  /** The signals that answer a message, and three sorts of them; and those for what was not sent. */
  datatype Sort = Raised | Callbacks | Events | Returns | NotSent

  predicate Of(sort: Sort, s: Signal) {
    match sort
    case Raised => !s.Disconnected? && !(s.ReturnReceived? && s.cause == Unsent)
    case Callbacks => s.SendCallback?
    case Events => s.SendEvent?
    case Returns => s.ReturnReceived? && s.cause == Wire
    case NotSent => s.ReturnReceived? && s.cause == Unsent
  }

  function Only(sort: Sort, ss: seq<Signal>): seq<Signal> {
    if ss == [] then []
    else
      var n := |ss| - 1;
      Only(sort, ss[..n]) + if Of(sort, ss[n]) then [ss[n]] else []
  }

  function Own(tries: seq<Try>): seq<Msg> {
    if tries == [] then []
    else
      var n := |tries| - 1;
      Own(tries[..n]) + if tries[n].own then [tries[n].msg] else []
  }

  function Refusals(tries: seq<Try>): seq<Signal> {
    if tries == [] then []
    else
      var n := |tries| - 1;
      Refusals(tries[..n]) + [ReturnReceived(tries[n].msg.id, NotConnected(), Unsent)]
  }

  /** What was tried went out, up to the loss of the connection; after that each try is told, under
      its own id, that there is none. */
  ghost predicate OutOrTold(c: Client) {
    && |c.sent| <= |c.tries| && (c.connected ==> |c.sent| == |c.tries|)
    && (forall i :: 0 <= i < |c.sent| ==> c.sent[i].(version := c.tries[i].msg.version) == c.tries[i].msg)
    && Only(NotSent, c.signals) == Refusals(c.tries[|c.sent|..])
  }

  ghost predicate Told(cfg: Config, c: Client) {
    && Only(Raised, c.signals) == AllRaises(cfg, c.received)
    && Own(c.tries) == AllOwnWrites(cfg, c.received)
    && (c.connected <==> forall m <- c.received :: !IsFatal(m))
    && (c.detached <==> exists m <- c.received :: Refuses(cfg, m))
    && OutOrTold(c)
  }

  /** From one state to a later one, these signals and these writes of the device's own. */
  ghost predicate Goes(c: Client, d: Client, raised: seq<Signal>, own: seq<Msg>) {
    && Only(Raised, d.signals) == Only(Raised, c.signals) + raised
    && Own(d.tries) == Own(c.tries) + own
    && (OutOrTold(c) ==> OutOrTold(d))
  }

  lemma OnlyMore(sort: Sort, ss: seq<Signal>, s: Signal)
    ensures Only(sort, ss + [s]) == Only(sort, ss) + if Of(sort, s) then [s] else []
  {
    assert (ss + [s])[..|ss|] == ss;
  }

  lemma EmitGoes(c: Client, s: Signal)
    requires Of(Raised, s)
    ensures Goes(c, Emit(c, s), [s], [])
  {
    OnlyMore(Raised, c.signals, s);
    OnlyMore(NotSent, c.signals, s);
    hide Only, Own, Refusals;
  }

  lemma WriteGoes(c: Client, m: Msg, own: bool)
    ensures Goes(c, Write(c, m, own), [], if own then [m] else [])
  {
    hide Only, Own, Refusals, NotConnected, OutOrTold;
    OnlyMore(Raised, c.signals, ReturnReceived(m.id, NotConnected(), Unsent));
    OwnMore(c.tries, Try(m, own));
    if OutOrTold(c) {
      WriteTold(c, m, own);
    }
  }

  lemma OwnMore(tries: seq<Try>, t: Try)
    ensures Own(tries + [t]) == Own(tries) + if t.own then [t.msg] else []
  {
    assert (tries + [t])[..|tries|] == tries;
  }

  lemma WriteTold(c: Client, m: Msg, own: bool)
    requires OutOrTold(c)
    ensures OutOrTold(Write(c, m, own))
  {
    OnlyMore(NotSent, c.signals, ReturnReceived(m.id, NotConnected(), Unsent));
    TriedMore(c.tries, |c.sent|, Try(m, own));
    hide Only, Refusals, NotConnected;
  }

  lemma TriedMore(tries: seq<Try>, k: nat, t: Try)
    requires k <= |tries|
    ensures Refusals((tries + [t])[k..]) == Refusals(tries[k..]) + [ReturnReceived(t.msg.id, NotConnected(), Unsent)]
    ensures k == |tries| ==> Refusals((tries + [t])[k + 1..]) == Refusals(tries[k..]) == []
  {
    assert (tries + [t])[k..] == tries[k..] + [t];
    assert (tries[k..] + [t])[..|tries[k..]|] == tries[k..];
  }

  lemma GoesOn(c: Client, d: Client, e: Client, r1: seq<Signal>, o1: seq<Msg>, r2: seq<Signal>, o2: seq<Msg>)
    requires Goes(c, d, r1, o1) && Goes(d, e, r2, o2)
    ensures Goes(c, e, r1 + r2, o1 + o2)
  {
    hide Only, Own, OutOrTold;
  }

  lemma GoesNoFurther(c: Client, d: Client, e: Client, raised: seq<Signal>, own: seq<Msg>)
    requires Goes(c, d, raised, own) && Goes(d, e, [], [])
    ensures Goes(c, e, raised, own)
  {
    hide Goes;
    GoesOn(c, d, e, raised, own, [], []);
    assert raised + [] == raised && own + [] == own;
  }

  lemma {:induction false} WriteAllGoes(c: Client, ms: seq<Msg>)
    ensures Goes(c, WriteAll(c, ms), [], ms)
    decreases |ms|
  {
    if ms != [] {
      hide Goes, Write;
      var d := Write(c, ms[0], true);
      WriteGoes(c, ms[0], true);
      WriteAllGoes(d, ms[1..]);
      GoesOn(c, d, WriteAll(d, ms[1..]), [], [ms[0]], [], ms[1..]);
      assert [ms[0]] + ms[1..] == ms;
    }
  }

  lemma StaysGoes(c: Client, d: Client)
    requires d.signals == c.signals && d.tries == c.tries && d.sent == c.sent && d.connected == c.connected
    ensures Goes(c, d, [], [])
  {
  }

  lemma DisconnectGoes(c: Client)
    ensures Goes(c, Disconnect(c), [], [])
  {
    OnlyMore(Raised, c.signals, Disconnected);
    OnlyMore(NotSent, c.signals, Disconnected);
    hide Only, Own, Refusals;
  }

  lemma FatalGoes(cfg: Config, c: Client, m: Msg)
    requires Named(m, ERROR_MESSAGE)
    ensures var s := ReturnReceived(cfg.connectId, FromError(2, ToText(Argument(m.args, 1))), Fatal);
      Goes(c, TakeError(cfg, c, m.args), if IsFatal(m) && cfg.connectId != NO_CONNECT_ID then [s] else [], [])
  {
    hide Goes, Disconnect, ERROR_MESSAGE;
    var s := ReturnReceived(cfg.connectId, FromError(2, ToText(Argument(m.args, 1))), Fatal);
    StaysGoes(c, c);
    if IsFatal(m) {
      var d := if cfg.connectId == NO_CONNECT_ID then c else Emit(c, s);
      EmitGoes(c, s);
      DisconnectGoes(d);
      GoesNoFurther(c, d, Disconnect(d), if cfg.connectId == NO_CONNECT_ID then [] else [s], []);
    }
  }

  lemma SwitchGoes(cfg: Config, c: Client, version: UInt32)
    requires version <= cfg.maxVersion
    ensures Goes(c, SwitchVersion(cfg, c, version),
      [ReturnReceived(cfg.connectId, FromVariant(Bool(true)), Acknowledged)], cfg.onConnected)
  {
    hide Goes, WriteAll, Emit;
    var s := ReturnReceived(cfg.connectId, FromVariant(Bool(true)), Acknowledged);
    var d := c.(version := version);
    var e := WriteAll(d, cfg.onConnected);
    StaysGoes(c, d);
    WriteAllGoes(d, cfg.onConnected);
    GoesOn(c, d, e, [], [], [], cfg.onConnected);
    EmitGoes(e, s);
    GoesOn(c, e, Emit(e, s), [] + [], [] + cfg.onConnected, [s], []);
    assert [] + [] + [s] == [s] && [] + cfg.onConnected + [] == cfg.onConnected;
  }

  lemma SwitchRefused(cfg: Config, c: Client, version: UInt32)
    requires version > cfg.maxVersion
    ensures SwitchVersion(cfg, c, version) == c.(detached := true)
  {
  }

  /** The names of the device's own messages are different. */
  lemma NamesDiffer()
    ensures WELCOME.name != SET_VERSION.name && WELCOME.name != ERROR_MESSAGE.name
    ensures WELCOME.name != STATE_CHANGED.name && WELCOME.name != READY_MESSAGE.name
    ensures SET_VERSION.name != ERROR_MESSAGE.name && SET_VERSION.name != STATE_CHANGED.name
    ensures SET_VERSION.name != READY_MESSAGE.name && STATE_CHANGED.name != ERROR_MESSAGE.name
    ensures STATE_CHANGED.name != READY_MESSAGE.name && ERROR_MESSAGE.name != READY_MESSAGE.name
  {
    OrdinaryNames();
    NegotiationNames();
    assert ERROR_MESSAGE.name[0] == CodeUnit('e') && READY_MESSAGE.name[0] == CodeUnit('r');
  }

  lemma CheckGoes(cfg: Config, c: Client, m: Msg)
    requires m.kind == QTRPC
    ensures var checked := CheckProtocolFunction(cfg, c, m);
      && (checked.done <==> ForDevice(m))
      && Goes(c, checked.client, if ForDevice(m) then Raises(cfg, m) else [], OwnWrites(cfg, m))
  {
    NamesDiffer();
    hide Goes, Write, WriteAll, Emit, SwitchVersion, TakeError, VersionCall, Trim, ProtocolCall;
    hide WELCOME, SET_VERSION, ERROR_MESSAGE, STATE_CHANGED, READY_MESSAGE, SELECT_SERVICE;
    StaysGoes(c, c);
    StaysGoes(c, c.(detached := true));
    if Named(m, WELCOME) {
      assert Raises(cfg, m) == [];
      WriteAllGoes(c, cfg.onConnected);
      if m.args != [] {
        WriteGoes(c, VersionCall(Min(ToUInt(m.args[0]), cfg.maxVersion)), true);
      }
    } else if Named(m, SET_VERSION) {
      if Agrees(cfg, m) {
        assert Raises(cfg, m) == [ReturnReceived(cfg.connectId, FromVariant(Bool(true)), Acknowledged)];
        SwitchGoes(cfg, c, ToUInt(m.args[0]));
      } else if m.args != [] {
        assert Raises(cfg, m) == [];
        SwitchRefused(cfg, c, ToUInt(m.args[0]));
      }
    } else if Named(m, ERROR_MESSAGE) {
      FatalGoes(cfg, c, m);
      assert Raises(cfg, m) == if IsFatal(m) && cfg.connectId != NO_CONNECT_ID
        then [ReturnReceived(cfg.connectId, FromError(2, ToText(Argument(m.args, 1))), Fatal)] else [];
    } else if Named(m, STATE_CHANGED) {
      assert Raises(cfg, m) == [];
      WriteGoes(c, SelectCall(cfg), true);
    } else if Named(m, READY_MESSAGE) {
      var s := ReturnReceived(cfg.selectServiceId, FromVariant(Argument(m.args, 0)), Ready);
      assert Raises(cfg, m) == [s];
      EmitGoes(c, s);
    }
  }

  lemma ParseGoes(cfg: Config, c: Client, m: Msg)
    ensures Goes(c, ParseMessage(cfg, c, m), Raises(cfg, m), OwnWrites(cfg, m))
  {
    hide Goes, CheckProtocolFunction, ForDevice, Trim;
    hide WELCOME, SET_VERSION, ERROR_MESSAGE, STATE_CHANGED, READY_MESSAGE, SelectCall, VersionCall;
    StaysGoes(c, c);
    if m.kind == QTRPC {
      var checked := CheckProtocolFunction(cfg, c, m);
      CheckGoes(cfg, c, m);
      if !checked.done {
        EmitGoes(checked.client, ProtocolFunction(m));
        GoesOn(c, checked.client, ParseMessage(cfg, c, m), [], OwnWrites(cfg, m), [ProtocolFunction(m)], []);
        NotForDevice(cfg, m);
      }
    } else if m.kind == FUNCTION {
      EmitGoes(c, SendCallback(m));
      assert Raises(cfg, m) == [SendCallback(m)];
    } else if m.kind == RETURN {
      EmitGoes(c, ReturnReceived(m.id, m.ret, Wire));
      assert Raises(cfg, m) == [ReturnReceived(m.id, m.ret, Wire)];
    } else if m.kind == EVENT {
      EmitGoes(c, SendEvent(m));
      assert Raises(cfg, m) == [SendEvent(m)];
    }
  }

  lemma NotForDevice(cfg: Config, m: Msg)
    requires m.kind == QTRPC && !ForDevice(m)
    ensures Raises(cfg, m) == [] + [ProtocolFunction(m)] && OwnWrites(cfg, m) + [] == OwnWrites(cfg, m)
  {
    hide Trim, WELCOME, SET_VERSION, ERROR_MESSAGE, STATE_CHANGED, READY_MESSAGE;
  }

  /** Only a fatal error ends the connection, and only a version refused makes the device give up. */
  lemma ParseConnected(cfg: Config, c: Client, m: Msg)
    ensures ParseMessage(cfg, c, m).connected <==> c.connected && !IsFatal(m)
    ensures ParseMessage(cfg, c, m).detached <==> c.detached || Refuses(cfg, m)
    ensures ParseMessage(cfg, c, m).received == c.received
  {
    hide Trim, Write, WriteAll, SelectCall, VersionCall;
    NamesDiffer();
    hide WELCOME, SET_VERSION, ERROR_MESSAGE, STATE_CHANGED, READY_MESSAGE;
    WriteAllConnected(c, cfg.onConnected);
    WriteConnected(c, SelectCall(cfg));
    if m.args != [] {
      WriteConnected(c, VersionCall(Min(ToUInt(m.args[0]), cfg.maxVersion)));
      WriteAllConnected(c.(version := ToUInt(m.args[0])), cfg.onConnected);
    }
  }

  lemma WriteConnected(c: Client, m: Msg)
    ensures Write(c, m, true).connected == c.connected && Write(c, m, true).received == c.received
    ensures Write(c, m, true).detached == c.detached
  {
  }

  lemma {:induction false} WriteAllConnected(c: Client, ms: seq<Msg>)
    ensures WriteAll(c, ms).connected == c.connected && WriteAll(c, ms).received == c.received
    ensures WriteAll(c, ms).detached == c.detached
    decreases |ms|
  {
    if ms != [] {
      WriteAllConnected(Write(c, ms[0], true), ms[1..]);
    }
  }

  /** A frame, whatever its bytes. */
  lemma ReceiveTells(cfg: Config, c: Client, payload: seq<Byte>)
    requires Told(cfg, c)
    ensures Told(cfg, Receive(cfg, c, payload))
  {
    hide ParseMessage, Decode, OutOrTold, Raises, OwnWrites, IsFatal, Refuses, Only, Own;
    var m := Decode(c.version, payload).value;
    ParseGoes(cfg, c, m);
    ParseConnected(cfg, c, m);
    assert (c.received + [m])[..|c.received|] == c.received;
    SameTold(ParseMessage(cfg, c, m), c.received + [m]);
  }

  lemma SameTold(c: Client, received: seq<Msg>)
    requires OutOrTold(c)
    ensures OutOrTold(c.(received := received))
  {
  }

  /** The application writes. */
  lemma WriteTells(cfg: Config, c: Client, m: Msg)
    requires Told(cfg, c)
    ensures Told(cfg, Write(c, m, false))
  {
    WriteGoes(c, m, false);
    hide OutOrTold, Only, Own, AllRaises, AllOwnWrites, IsFatal, Refuses;
  }

  lemma StartTells(cfg: Config)
    ensures Told(cfg, NEW_CLIENT)
  {
  }

  // ---------------------------------------------------------------- results

  /** The signal of that sort due for a message: for a function, an event, a return. */
  function Expected(sort: Sort, m: Msg): seq<Signal> {
    if sort == Callbacks && m.kind == FUNCTION then [SendCallback(m)]
    else if sort == Events && m.kind == EVENT then [SendEvent(m)]
    else if sort == Returns && m.kind == RETURN then [ReturnReceived(m.id, m.ret, Wire)]
    else []
  }

  function AllExpected(sort: Sort, ms: seq<Msg>): seq<Signal> {
    if ms == [] then []
    else
      var n := |ms| - 1;
      AllExpected(sort, ms[..n]) + Expected(sort, ms[n])
  }

  lemma {:induction false} OnlyConcat(sort: Sort, a: seq<Signal>, b: seq<Signal>)
    ensures Only(sort, a + b) == Only(sort, a) + Only(sort, b)
    decreases |b|
  {
    if b == [] {
      assert a + b == a;
    } else {
      var n := |b| - 1;
      assert a + b == (a + b[..n]) + [b[n]];
      OnlyConcat(sort, a, b[..n]);
      OnlyMore(sort, a + b[..n], b[n]);
    }
  }

  lemma {:induction false} OnlyOnly(sort: Sort, ss: seq<Signal>)
    requires sort != NotSent
    ensures Only(sort, Only(Raised, ss)) == Only(sort, ss)
    decreases |ss|
  {
    if ss != [] {
      var n := |ss| - 1;
      OnlyOnly(sort, ss[..n]);
      assert Only(Raised, ss[..n]) + [] == Only(Raised, ss[..n]) && Only(sort, ss[..n]) + [] == Only(sort, ss[..n]);
      if Of(Raised, ss[n]) {
        OnlyMore(sort, Only(Raised, ss[..n]), ss[n]);
      }
    }
  }

  lemma OnlyRaised(cfg: Config, sort: Sort, m: Msg)
    requires sort in {Callbacks, Events, Returns}
    ensures Only(sort, Raises(cfg, m)) == Expected(sort, m)
  {
    hide Trim, WELCOME, SET_VERSION, ERROR_MESSAGE, STATE_CHANGED, READY_MESSAGE, Only;
    if m.kind == FUNCTION {
      assert Raises(cfg, m) == [SendCallback(m)];
      OnlyThis(sort, SendCallback(m));
    } else if m.kind == EVENT {
      assert Raises(cfg, m) == [SendEvent(m)];
      OnlyThis(sort, SendEvent(m));
    } else if m.kind == RETURN {
      assert Raises(cfg, m) == [ReturnReceived(m.id, m.ret, Wire)];
      OnlyThis(sort, ReturnReceived(m.id, m.ret, Wire));
    } else {
      OnlyNone(sort, Raises(cfg, m));
    }
  }

  lemma OnlyThis(sort: Sort, s: Signal)
    ensures Only(sort, [s]) == if Of(sort, s) then [s] else []
  {
    OnlyMore(sort, [], s);
    assert [] + [s] == [s];
  }

  lemma {:induction false} OnlyNone(sort: Sort, ss: seq<Signal>)
    requires forall s <- ss :: !Of(sort, s)
    ensures Only(sort, ss) == []
    decreases |ss|
  {
    if ss != [] {
      OnlyNone(sort, ss[..|ss| - 1]);
    }
  }

  /** Every function received raises one sendCallback, every event one sendEvent, and every return
      is told once, with its id and value; in order, and nothing else raises any of these. */
  lemma {:induction false} EachOnce(cfg: Config, sort: Sort, ms: seq<Msg>)
    requires sort in {Callbacks, Events, Returns}
    ensures Only(sort, AllRaises(cfg, ms)) == AllExpected(sort, ms)
    decreases |ms|
  {
    if ms != [] {
      var n := |ms| - 1;
      EachOnce(cfg, sort, ms[..n]);
      OnlyConcat(sort, AllRaises(cfg, ms[..n]), Raises(cfg, ms[n]));
      OnlyRaised(cfg, sort, ms[n]);
    }
  }

  lemma SignalsInOrder(cfg: Config, sort: Sort, c: Client)
    requires Told(cfg, c) && sort in {Callbacks, Events, Returns}
    ensures Only(sort, c.signals) == AllExpected(sort, c.received)
  {
    OnlyOnly(sort, c.signals);
    EachOnce(cfg, sort, c.received);
  }

  /** A signal has its place among those of its sort. */
  lemma {:induction false} SignalAt(sort: Sort, ss: seq<Signal>, p: nat)
    requires p < |ss| && Of(sort, ss[p])
    ensures |Only(sort, ss[..p])| < |Only(sort, ss)| && Only(sort, ss)[|Only(sort, ss[..p])|] == ss[p]
    decreases |ss|
  {
    var n := |ss| - 1;
    if p < n {
      SignalAt(sort, ss[..n], p);
      assert ss[..n][..p] == ss[..p];
    }
  }

  /** Each signal is due for one message received. */
  lemma {:induction false} ExpectedFrom(sort: Sort, ms: seq<Msg>, q: nat) returns (k: nat)
    requires q < |AllExpected(sort, ms)|
    ensures k < |ms| && Expected(sort, ms[k]) == [AllExpected(sort, ms)[q]] && |AllExpected(sort, ms[..k])| == q
    decreases |ms|
  {
    var n := |ms| - 1;
    if q < |AllExpected(sort, ms[..n])| {
      k := ExpectedFrom(sort, ms[..n], q);
      assert ms[..n][..k] == ms[..k];
    } else {
      k := n;
    }
  }
}
