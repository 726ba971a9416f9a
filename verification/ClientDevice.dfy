/** lib/clientprotocoliodevice.cpp: the client's end of a connection. */
module ClientDevice {
  import opened QtTypes
  import opened QStrings
  import opened DataStream
  import opened ReturnValues
  import opened Signatures
  import opened Messages
  import opened Framing
  import opened MessageWire
  import opened Protocol

  /** For the record, why a return value is signalled: it came in a message, a service is ready, the
      version is agreed on, the server gave up, or a message could not be sent. */
  datatype Cause = Wire | Ready | Acknowledged | Fatal | Unsent

  /** The signals the device emits, and the calls of its protocolFunction hook. */
  datatype Signal =
    | SendCallback(msg: Msg)
    | SendEvent(msg: Msg)
    | ReturnReceived(id: UInt32, ret: ReturnValue, cause: Cause)
    | ProtocolFunction(msg: Msg)
    | Disconnected

  /** `onConnected` is what the transport's connected() writes. */
  datatype Config = Config(
    maxVersion: UInt32,
    connectId: UInt32,
    selectServiceId: UInt32,
    serviceName: QString,
    user: QString,
    password: QString,
    onConnected: seq<Msg>)

  /** For the record, a message the device or the application tried to write. */
  datatype Try = Try(msg: Msg, own: bool)

  /** `detached`: the device has cut its signals because the server speaks an unknown version. */
  datatype Client = Client(
    version: UInt32,
    connected: bool,
    detached: bool,
    sent: seq<Msg>,
    received: seq<Msg>,
    signals: seq<Signal>,
    tries: seq<Try>)

  const NEW_CLIENT := Client(0, true, false, [], [], [], [])

  const NO_CONNECT_ID: UInt32 := 0xFFFF_FFFF

  /** Arguments past the end read as null. */
  function Argument(args: Arguments, i: nat): QVariant {
    if i < |args| then args[i] else Null
  }

  // ---------------------------------------------------------- specification

  function Emit(c: Client, s: Signal): Client {
    c.(signals := c.signals + [s])
  }

  function NotConnected(): ReturnValue {
    FromError(1, Q("Not Connected"))
  }

  function Write(c: Client, m: Msg, own: bool): Client {
    var d := c.(tries := c.tries + [Try(m, own)]);
    if c.connected then d.(sent := c.sent + [m.(version := c.version)])
    else Emit(d, ReturnReceived(m.id, NotConnected(), Unsent))
  }

  function WriteAll(c: Client, ms: seq<Msg>): Client
    decreases |ms|
  {
    if ms == [] then c else WriteAll(Write(c, ms[0], true), ms[1..])
  }

  function Disconnect(c: Client): Client {
    if c.connected then Emit(c.(connected := false), Disconnected) else c
  }

  function SelectCall(cfg: Config): Msg {
    ProtocolCall(SELECT_SERVICE, [Str(cfg.serviceName), Str(cfg.user), Str(cfg.password)])
  }

  datatype Outcome = Outcome(client: Client, done: bool)

  function SwitchVersion(cfg: Config, c: Client, version: UInt32): Client {
    if version > cfg.maxVersion then c.(detached := true)
    else
      Emit(WriteAll(c.(version := version), cfg.onConnected),
           ReturnReceived(cfg.connectId, FromVariant(Bool(true)), Acknowledged))
  }

  function TakeError(cfg: Config, c: Client, args: Arguments): Client {
    if ToInt(Argument(args, 0)) != 2 then c
    else
      var text := ToText(Argument(args, 1));
      Disconnect(if cfg.connectId == NO_CONNECT_ID then c
                 else Emit(c, ReturnReceived(cfg.connectId, FromError(2, text), Fatal)))
  }

  function CheckProtocolFunction(cfg: Config, c: Client, m: Msg): Outcome {
    var name := Trim(m.func.name);
    if name == WELCOME.name then
      if m.args == [] then Outcome(WriteAll(c, cfg.onConnected), true)
      else Outcome(Write(c, VersionCall(Min(ToUInt(m.args[0]), cfg.maxVersion)), true), true)
    else if name == SET_VERSION.name then
      if m.args == [] then Outcome(c.(detached := true), true)
      else Outcome(SwitchVersion(cfg, c, ToUInt(m.args[0])), true)
    else if name == ERROR_MESSAGE.name then Outcome(TakeError(cfg, c, m.args), true)
    else if name == STATE_CHANGED.name then
      if ToInt(Argument(m.args, 0)) == SERVICE_STATE && cfg.serviceName != [] then
        Outcome(Write(c, SelectCall(cfg), true), true)
      else Outcome(c, true)
    else if name == READY_MESSAGE.name then
      Outcome(Emit(c, ReturnReceived(cfg.selectServiceId, FromVariant(Argument(m.args, 0)), Ready)), true)
    else Outcome(c, false)
  }

  function ParseMessage(cfg: Config, c: Client, m: Msg): Client {
    if m.kind == FUNCTION then Emit(c, SendCallback(m))
    else if m.kind == QTRPC then
      var checked := CheckProtocolFunction(cfg, c, m);
      if checked.done then checked.client else Emit(checked.client, ProtocolFunction(m))
    else if m.kind == RETURN then Emit(c, ReturnReceived(m.id, m.ret, Wire))
    else if m.kind == EVENT then Emit(c, SendEvent(m))
    else c
  }

  function Receive(cfg: Config, c: Client, payload: seq<Byte>): Client {
    var m := Decode(c.version, payload).value;
    ParseMessage(cfg, c, m).(received := c.received + [m])
  }

  function Drain(cfg: Config, c: Client, pending: seq<Byte>): Client
    decreases |pending|
  {
    if HasFrame(pending) then Drain(cfg, Receive(cfg, c, FirstFrame(pending)), AfterFrame(pending)) else c
  }

  /** Bytes may be dispatched as they come: what an earlier read left over counts with the next. */
  lemma {:induction false} DrainIncremental(cfg: Config, c: Client, pending: seq<Byte>, more: seq<Byte>)
    ensures Drain(cfg, c, pending + more) == Drain(cfg, Drain(cfg, c, pending), Residue(pending) + more)
    decreases |pending|
  {
    hide HasFrame, FirstFrame, AfterFrame, Receive;
    if HasFrame(pending) {
      FrameExtends(pending, more);
      DrainIncremental(cfg, Receive(cfg, c, FirstFrame(pending)), AfterFrame(pending), more);
    }
  }

  // ------------------------------------------------------------ what is written

  /** A message a client may write: one the server takes, and not a negotiation. */
  ghost predicate Takeable(m: Msg) {
    m.kind in {FUNCTION, QTRPC, RETURN} && !Negotiates(m)
  }

  /** Writable in whatever version is current. */
  ghost predicate AlwaysWritable(m: Msg) {
    forall v: UInt32 :: Writable(m.(version := v))
  }

  ghost predicate Sane(cfg: Config) {
    && (forall i :: 0 <= i < |cfg.onConnected| ==> Takeable(cfg.onConnected[i]) && AlwaysWritable(cfg.onConnected[i]))
    && AlwaysWritable(SelectCall(cfg))
  }

  ghost predicate Ordinary(ms: seq<Msg>, version: UInt32) {
    forall i :: 0 <= i < |ms| ==> Writable(ms[i]) && ms[i].version == version && Takeable(ms[i])
  }

  ghost predicate Appends(c: Client, d: Client) {
    && c.sent <= d.sent && Ordinary(d.sent[|c.sent|..], c.version)
    && d.version == c.version && d.detached == c.detached && d.received == c.received
  }

  lemma AppendsTransitive(c: Client, d: Client, e: Client)
    requires Appends(c, d) && Appends(d, e)
    ensures Appends(c, e)
  {
    hide Writable, Takeable;
    assert e.sent[|c.sent|..] == d.sent[|c.sent|..] + e.sent[|d.sent|..];
  }

  lemma WriteAppends(c: Client, m: Msg, own: bool)
    requires Writable(m.(version := c.version)) && Takeable(m)
    ensures Appends(c, Write(c, m, own))
  {
    hide Writable, Negotiates;
    assert Negotiates(m.(version := c.version)) == Negotiates(m) by {
      VersionApart(m, c.version);
    }
  }

  lemma VersionApart(m: Msg, version: UInt32)
    ensures Negotiates(m.(version := version)) == Negotiates(m)
  {
    hide FromString, ToString, Trim, WELCOME, SET_VERSION;
  }

  lemma {:induction false} WriteAllAppends(c: Client, ms: seq<Msg>)
    requires forall i :: 0 <= i < |ms| ==> Takeable(ms[i]) && AlwaysWritable(ms[i])
    ensures Appends(c, WriteAll(c, ms))
    decreases |ms|
  {
    hide Writable, Takeable, Write;
    if ms != [] {
      var d := Write(c, ms[0], true);
      WriteAppends(c, ms[0], true);
      WriteAllAppends(d, ms[1..]);
      AppendsTransitive(c, d, WriteAll(d, ms[1..]));
    }
  }

  lemma SwitchAppends(cfg: Config, c: Client, version: UInt32)
    requires Sane(cfg) && version <= cfg.maxVersion
    ensures Appends(c.(version := version), SwitchVersion(cfg, c, version))
  {
    hide AlwaysWritable, Takeable, Write;
    var d := c.(version := version);
    WriteAllAppends(d, cfg.onConnected);
  }

  lemma SelectTakeable(cfg: Config)
    ensures Takeable(SelectCall(cfg))
  {
    hide OrdinaryName, SELECT_SERVICE, WELCOME, SET_VERSION;
    OrdinaryNames();
    OrdinaryIsNot(SelectCall(cfg));
  }

  lemma ParseAppends(cfg: Config, c: Client, m: Msg)
    requires Sane(cfg) && !IsNegotiation(m.kind, m.func)
    ensures Appends(c, ParseMessage(cfg, c, m))
  {
    hide Writable, Takeable, Trim, WELCOME, SET_VERSION, ERROR_MESSAGE, STATE_CHANGED, READY_MESSAGE, SelectCall;
    SelectTakeable(cfg);
    WriteAppends(c, SelectCall(cfg), true);
  }

  // --------------------------------------------------------------- the class

  class ClientConnection {
    const cfg: Config
    var device: seq<Byte>      // received and not yet read
    var out: seq<Byte>         // all that was written to the device
    var totalSize: Int64
    var read: int
    var buffer: seq<Byte>
    var version: UInt32
    var connected: bool
    var detached: bool
    var sent: seq<Msg>
    var received: seq<Msg>
    var signals: seq<Signal>
    var tries: seq<Try>

    function Value(): Client
      reads this
    {
      Client(version, connected, detached, sent, received, signals, tries)
    }

    ghost predicate Valid()
      reads this
    {
      Sane(cfg) && AllWritable(sent) && out == Bytes(sent)
    }

    function Unread(): seq<Byte>
      reads this
    {
      Pending(totalSize, buffer, device)
    }

    constructor (cfg: Config)
      requires Sane(cfg)
      ensures Valid() && this.cfg == cfg && device == [] && Waiting(totalSize, read, buffer) && Unread() == []
      ensures Value() == NEW_CLIENT
    {
      hide Sane, Writable, Q;
      this.cfg := cfg;
      device, out, totalSize, read, buffer := [], [], 0, 0, [];
      version, connected, detached := 0, true, false;
      sent, received, signals, tries := [], [], [], [];
    }

    method WriteMessage(msg: Msg, own: bool)
      requires Valid() && Writable(msg.(version := version))
      modifies `out, `sent, `signals, `tries
      ensures Valid() && Value() == Write(old(Value()), msg, own)
    {
      hide Sane, Encode, FitsMsg, Bytes;
      tries := tries + [Try(msg, own)];
      if !connected {
        signals := signals + [ReturnReceived(msg.id, NotConnected(), Unsent)];
        return;
      }
      var m := new Message();
      m.data := msg;
      m.SetVersion(version);
      var size := m.Size();
      var frame := new Stream([]);
      frame.Write(PutI64(size));
      m.WriteTo(frame);
      BytesOne(m.data);
      BytesConcat(sent, [m.data]);
      assert [] + PutI64(size) + Encode(m.data) == Packet(m.data);
      out := out + frame.data;
      sent := sent + [m.data];
    }

    /** The transport's connected(). */
    method Connected()
      requires Valid()
      modifies `out, `sent, `signals, `tries
      ensures Valid() && Value() == WriteAll(old(Value()), cfg.onConnected)
    {
      hide Writable, Bytes, Write, Takeable;
      var ms := cfg.onConnected;
      for i := 0 to |ms|
        invariant Valid() && version == old(version)
        invariant WriteAll(Value(), ms[i..]) == WriteAll(old(Value()), ms)
      {
        KeepsVersion(Value(), ms[i]);
        assert ms[i..][1..] == ms[i + 1..];
        WriteMessage(ms[i], true);
      }
    }

    method ProtocolDisconnect()
      requires Valid()
      modifies `connected, `signals
      ensures Valid() && Value() == Disconnect(old(Value()))
    {
      hide Sane, Writable, Bytes;
      if connected {
        connected := false;
        signals := signals + [Disconnected];
      }
    }

    method CheckProtocol(msg: Msg) returns (done: bool)
      requires Valid()
      modifies `out, `sent, `signals, `tries, `version, `connected, `detached
      ensures Valid() && Outcome(Value(), done) == CheckProtocolFunction(cfg, old(Value()), msg)
    {
      hide Writable, Takeable, Bytes, Write, WriteAll, Trim, VersionCall, SelectCall;
      hide WELCOME, SET_VERSION, ERROR_MESSAGE, STATE_CHANGED, READY_MESSAGE;
      var name := Trim(msg.func.name);
      if name == WELCOME.name {
        if |msg.args| > 0 {
          var sversion := ToUInt(msg.args[0]);
          if sversion > cfg.maxVersion {
            sversion := cfg.maxVersion;
          }
          VersionWritable(sversion, version);
          WriteMessage(VersionCall(sversion), true);
        } else {
          Connected();
        }
        return true;
      } else if name == SET_VERSION.name {
        if |msg.args| > 0 {
          var sversion := ToUInt(msg.args[0]);
          if sversion > cfg.maxVersion {
            detached := true;
            return true;
          }
          version := sversion;
          Connected();
          signals := signals + [ReturnReceived(cfg.connectId, FromVariant(Bool(true)), Acknowledged)];
          return true;
        }
        detached := true;
        return true;
      } else if name == ERROR_MESSAGE.name {
        if ToInt(Argument(msg.args, 0)) == 2 {
          if cfg.connectId != NO_CONNECT_ID {
            signals :=
              signals + [ReturnReceived(cfg.connectId, FromError(2, ToText(Argument(msg.args, 1))), Fatal)];
          }
          ProtocolDisconnect();
        }
        return true;
      } else if name == STATE_CHANGED.name {
        if ToInt(Argument(msg.args, 0)) == SERVICE_STATE {
          if cfg.serviceName == [] {
            return true;
          }
          WriteMessage(SelectCall(cfg), true);
        }
        return true;
      } else if name == READY_MESSAGE.name {
        signals := signals + [ReturnReceived(cfg.selectServiceId, FromVariant(Argument(msg.args, 0)), Ready)];
        return true;
      }
      done := false;
    }

    method Parse(msg: Msg)
      requires Valid()
      modifies `out, `sent, `signals, `tries, `version, `connected, `detached
      ensures Valid() && Value() == ParseMessage(cfg, old(Value()), msg)
    {
      hide Bytes, Writable, CheckProtocolFunction;
      if msg.kind == FUNCTION {
        signals := signals + [SendCallback(msg)];
      } else if msg.kind == QTRPC {
        var done := CheckProtocol(msg);
        if !done {
          signals := signals + [ProtocolFunction(msg)];
        }
      } else if msg.kind == RETURN {
        signals := signals + [ReturnReceived(msg.id, msg.ret, Wire)];
      } else if msg.kind == EVENT {
        signals := signals + [SendEvent(msg)];
      }
    }

    method Dispatch()
      requires Valid()
      modifies `out, `sent, `signals, `tries, `version, `connected, `detached, `received
      ensures Valid() && Value() == Receive(cfg, old(Value()), buffer)
    {
      hide Sane, ParseMessage, DecodeInto, Bytes;
      var msg := new Message();
      msg.SetVersion(version);
      var stream := new Stream(buffer);
      msg.ReadFrom(stream);
      Parse(msg.data);
      received := received + [msg.data];
    }

    /** The reading loop, as on the server but with one reading per frame. */
    method ReadyRead()
      requires Valid() && Waiting(totalSize, read, buffer)
      modifies this
      ensures Valid() && Waiting(totalSize, read, buffer)
      ensures Value() == Drain(cfg, old(Value()), old(Unread()))
      ensures Unread() == Residue(old(Unread()))
    {
      hide Sane, Receive, HasFrame, FirstFrame, AfterFrame, PutI64, GetI64, Bytes;
      while device != []
        invariant Valid() && Waiting(totalSize, read, buffer)
        invariant Drain(cfg, Value(), Unread()) == Drain(cfg, old(Value()), old(Unread()))
        invariant Residue(Unread()) == Residue(old(Unread()))
        decreases |device|
      {
        ghost var pending := Unread();
        if totalSize == 0 {
          if |device| < HEADER {
            break;
          }
          HeaderRead(device);
          totalSize, device := GetI64(device[..HEADER]), device[HEADER..];
          read := 0;
          buffer := [];
        }
        assert pending == PutI64(totalSize) + buffer + device;
        var n := Take(device, totalSize - read);
        Assoc(PutI64(totalSize), buffer, device[..n]);
        Assoc(PutI64(totalSize) + buffer, device[..n], device[n..]);
        assert device == device[..n] + device[n..];
        buffer, device := buffer + device[..n], device[n..];
        read := read + n;
        if totalSize <= read {
          FrameInHand(totalSize, buffer, device);
          totalSize := 0;
          read := 0;
          Dispatch();
        }
      }
      NothingPending(totalSize, read, buffer, device);
    }
  }

  lemma KeepsVersion(c: Client, m: Msg)
    ensures Write(c, m, true).version == c.version
  {
  }
}
