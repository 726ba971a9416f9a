/** A client and a server over two reliable byte channels: every interleaving of sending,
    reading in fragments of any size, and switching the version in mid-stream. */
module Negotiation {
  import opened QtTypes
  import opened QStrings
  import opened DataStream
  import opened ReturnValues
  import opened Signatures
  import opened Messages
  import opened Framing
  import opened MessageWire
  import opened Protocol
  import S = ServerDevice
  import C = ClientDevice

  // --------------------------------------------- frames in the other's version

  /** Whether a server reading in `version` recovers an original-format frame with this id:
      the first word must not pass for the magic number, nor for a message type. */
  predicate LateSafe(version: UInt32, id: UInt32) {
    && (version == 1 ==> id !in {FUNCTION, QTRPC, RETURN})
    && (version == 2 ==> id != MAGIC)
  }

  lemma SameVersion(m: Msg)
    requires FitsMsg(m)
    ensures Decode(m.version, Encode(m)).value == OnWire(m)
  {
    hide Decode, Encode, FitsMsg, OnWire;
    CodecRoundTrip(m, []);
    assert Encode(m) + [] == Encode(m);
  }

  /** What the first reading of an original-format frame makes of its type. */
  lemma FirstWords(version: UInt32, m: Msg)
    requires FitsMsg(m) && m.version == 0
    ensures var d := Decode(version, Encode(m)).value;
      && (version == 1 ==> d.version == 1 && d.kind == if IsKnown(m.id) then m.id else INVALID)
      && (version == 2 ==> d.version == 2 && d.kind == if m.id == MAGIC && IsKnown(m.kind) then m.kind else INVALID)
      && (version !in {1, 2} ==> d == OnWire(m))
  {
    hide PutU32, GetU32, PutString, PutArguments, GetSig, GetArguments, GetReturn, ToString;
    hide FitsString, FitsStrings, FitsArguments, FitsReturn, ReturnFromArgs, ArgsFromReturn;
    if version !in {1, 2} {
      SameVersion(m);
    } else {
      var tail := PutString(ToString(m.func)) + PutArguments(m.args);
      U32RoundTrip(m.id, PutU32(m.kind) + tail);
      U32RoundTrip(m.kind, tail);
    }
  }

  /** An original-format frame that arrives after the switch is received as written
      exactly when its id is safe. */
  lemma LateFrameExactly(env: S.Layer, s: S.Server, m: Msg)
    requires FitsMsg(m) && m.version == 0 && m.kind in {FUNCTION, QTRPC, RETURN}
    ensures S.Receive(env, s, Encode(m)).received == s.received + [OnWire(m)] <==> LateSafe(s.version, m.id)
  {
    hide Decode, Encode, FitsMsg, S.ParseMessage;
    S.FallbackOnce(env, s, Encode(m));
    FirstWords(s.version, m);
    SameVersion(m);
    var d := Decode(s.version, Encode(m)).value;
    var r := S.Receive(env, s, Encode(m)).received;
    assert r[|r| - 1] == if d.kind in {FUNCTION, QTRPC, RETURN} then d else OnWire(m);
  }

  // ------------------------------------------------------------------ system

  datatype Sys = Sys(
    server: S.Server,
    serverPending: seq<Byte>,
    toServer: seq<Byte>,
    client: C.Client,
    clientPending: seq<Byte>,
    toClient: seq<Byte>)

  datatype Setup = Setup(env: S.Layer, cfg: C.Config)

  ghost predicate Sane(x: Setup) {
    S.Sane(x.env) && C.Sane(x.cfg)
  }

  /** The version both sides should end with. */
  function Agreed(x: Setup): UInt32 {
    Min(x.env.maxVersion, x.cfg.maxVersion)
  }

  ghost function Start(x: Setup): Sys
  {
    S.WelcomeBrief(x.env.maxVersion);
    var s := S.Write(S.Server(0, CONNECTING, [], [], [], false), ProtocolCall(WELCOME, [UInt(x.env.maxVersion)]));
    Sys(s, [], [], C.NEW_CLIENT, [], Packet(s.sent[0]))
  }

  /** The bytes of what one side has written since. */
  ghost function NewBytes(before: seq<Msg>, after: seq<Msg>): seq<Byte> {
    if before <= after && AllWritable(after[|before|..]) then Bytes(after[|before|..]) else []
  }

  ghost function WithServer(z: Sys, s: S.Server): Sys {
    z.(server := s, toClient := z.toClient + NewBytes(z.server.sent, s.sent))
  }

  ghost function WithClient(z: Sys, c: C.Client): Sys {
    z.(client := c, toServer := z.toServer + NewBytes(z.client.sent, c.sent))
  }

  ghost function ServerFrame(x: Setup, z: Sys): Sys
    requires HasFrame(z.serverPending)
  {
    WithServer(z, S.Receive(x.env, z.server, FirstFrame(z.serverPending))).(serverPending := AfterFrame(z.serverPending))
  }

  ghost function ClientFrame(x: Setup, z: Sys): Sys
    requires HasFrame(z.clientPending)
  {
    WithClient(z, C.Receive(x.cfg, z.client, FirstFrame(z.clientPending))).(clientPending := AfterFrame(z.clientPending))
  }

  /** readyRead: all complete frames. */
  ghost function ServerCatchUp(x: Setup, z: Sys): Sys
    decreases |z.serverPending|
  {
    if HasFrame(z.serverPending) then ServerCatchUp(x, ServerFrame(x, z)) else z
  }

  ghost function ClientCatchUp(x: Setup, z: Sys): Sys
    decreases |z.clientPending|
  {
    if HasFrame(z.clientPending) then ClientCatchUp(x, ClientFrame(x, z)) else z
  }

  datatype Step =
    | ServerReads(n: nat)
    | ClientReads(n: nat)
    | ServerSends(msg: Msg)
    | ClientSends(msg: Msg)
    | ServerMoves(state: nat)

  ghost predicate Enabled(z: Sys, step: Step) {
    match step
    case ServerReads(n) => n <= |z.toServer|
    case ClientReads(n) => n <= |z.toClient|
    case ServerSends(m) => Writable(m.(version := z.server.version)) && !Negotiates(m)
    case ClientSends(m) => Writable(m.(version := z.client.version)) && C.Takeable(m)
    case ServerMoves(state) => state <= READY
  }

  ghost function Next(x: Setup, z: Sys, step: Step): Sys
    requires Enabled(z, step)
  {
    match step
    case ServerReads(n) =>
      ServerCatchUp(x, z.(serverPending := z.serverPending + z.toServer[..n], toServer := z.toServer[n..]))
    case ClientReads(n) =>
      ClientCatchUp(x, z.(clientPending := z.clientPending + z.toClient[..n], toClient := z.toClient[n..]))
    case ServerSends(m) => WithServer(z, S.Volunteer(z.server, m))
    case ClientSends(m) => WithClient(z, C.Write(z.client, m, false))
    case ServerMoves(state) => WithServer(z, S.Move(z.server, state))
  }

  // --------------------------------------------------------------- invariant

  /** In flight is exactly what was written and not yet handled, and what was handled was
      received as written. */
  ghost predicate Delivered(z: Sys) {
    && AllWritable(z.client.sent) && AllWritable(z.server.sent)
    && |z.server.received| <= |z.client.sent| && |z.client.received| <= |z.server.sent|
    && z.serverPending + z.toServer == Bytes(z.client.sent[|z.server.received|..])
    && z.clientPending + z.toClient == Bytes(z.server.sent[|z.client.received|..])
    && (forall i {:trigger OnWire(z.client.sent[i])} :: 0 <= i < |z.server.received| ==>
          z.server.received[i] == OnWire(z.client.sent[i]))
    && (forall i {:trigger OnWire(z.server.sent[i])} :: 0 <= i < |z.client.received| ==>
          z.client.received[i] == OnWire(z.server.sent[i]))
  }

  function Welcome(x: Setup): Msg {
    ProtocolCall(WELCOME, [UInt(x.env.maxVersion)])
  }

  /** The client's messages: its request at `r`, or -1, and the version agreed on used only
      after it, and only once the acknowledgement has been read. */
  ghost predicate ClientLog(ms: seq<Msg>, n: UInt32, r: int, switched: bool) {
    && -1 <= r < |ms|
    && (r >= 0 ==> ms[r] == VersionCall(n))
    && (forall i {:trigger C.Takeable(ms[i])} :: 0 <= i < |ms| && i != r ==> C.Takeable(ms[i]))
    && (forall i :: 0 <= i < |ms| && ms[i].version != 0 ==> ms[i].version == n && switched && r < i)
  }

  /** The server's messages: the welcome first, its acknowledgement at `a`, or -1, and the
      version agreed on used exactly after it. */
  ghost predicate ServerLog(ms: seq<Msg>, welcome: Msg, n: UInt32, a: int) {
    && ms != [] && ms[0] == welcome
    && -1 <= a < |ms| && a != 0
    && (a > 0 ==> ms[a] == VersionCall(n))
    && (forall i {:trigger Negotiates(ms[i])} :: 0 < i < |ms| && i != a ==> !Negotiates(ms[i]))
    && (forall i :: 0 <= i < |ms| ==> ms[i].version == if 0 < a < i then n else 0)
  }

  ghost predicate Versions(x: Setup, z: Sys, r: int, a: int) {
    var handled, seen, n := |z.server.received|, |z.client.received|, Agreed(x);
    && ClientLog(z.client.sent, n, r, 0 < a < seen)
    && ServerLog(z.server.sent, Welcome(x), n, a)
    && (r == -1 <==> seen == 0)
    && (a == -1 <==> r == -1 || handled <= r)
    && z.server.version == (if a > 0 then n else 0)
    && z.client.version == (if 0 < a < seen then n else 0)
    && (seen == 0 ==> z.client.connected)
    && !z.client.detached && !z.server.hungUp
  }

  ghost predicate IsRequest(m: Msg) {
    m.kind == QTRPC && m.func.name == SET_VERSION.name
  }

  /** The one assumption on a run: an original-format message written after the request has a
      safe id for the version agreed on. For version 2, ids below the magic number suffice. */
  ghost predicate SafeIds(x: Setup, z: Sys) {
    forall i, j :: 0 <= i < j < |z.client.sent| && IsRequest(z.client.sent[i]) && z.client.sent[j].version == 0
      ==> LateSafe(Agreed(x), z.client.sent[j].id)
  }

  // ------------------------------------------------------------ sending

  lemma ServerWrote(x: Setup, z: Sys, s: S.Server, r: int, a: int)
    requires Delivered(z) && Versions(x, z, r, a) && S.Appends(z.server, s)
    ensures Delivered(WithServer(z, s)) && Versions(x, WithServer(z, s), r, a)
  {
    hide Writable, Negotiates, ClientLog, ServerLog, Delivered, Welcome, Agreed;
    var more := s.sent[|z.server.sent|..];
    ServerAppended(z, s, more);
    ServerLogMore(z.server.sent, more, Welcome(x), Agreed(x), a);
    assert s.sent == z.server.sent + more;
  }

  lemma ServerLogMore(ms: seq<Msg>, more: seq<Msg>, welcome: Msg, n: UInt32, a: int)
    requires ServerLog(ms, welcome, n, a) && S.Ordinary(more, if a > 0 then n else 0)
    ensures ServerLog(ms + more, welcome, n, a)
  {
    hide Writable, Negotiates, VersionCall;
    assert forall i :: |ms| <= i < |ms + more| ==> (ms + more)[i] == more[i - |ms|];
  }

  /** Bytes and history after the server appends any writable messages. */
  lemma ServerAppended(z: Sys, s: S.Server, more: seq<Msg>)
    requires Delivered(z) && AllWritable(more)
    requires s.sent == z.server.sent + more && s.received == z.server.received
    ensures Delivered(WithServer(z, s))
  {
    hide Writable, OnWire, Packet;
    var seen := |z.client.received|;
    assert s.sent[|z.server.sent|..] == more;
    assert s.sent[seen..] == z.server.sent[seen..] + more;
    BytesConcat(z.server.sent[seen..], more);
    Assoc(z.clientPending, z.toClient, Bytes(more));
  }

  lemma ClientWrote(x: Setup, z: Sys, c: C.Client, r: int, a: int)
    requires Delivered(z) && Versions(x, z, r, a) && C.Appends(z.client, c)
    requires c.connected == z.client.connected || |z.client.received| > 0
    ensures Delivered(WithClient(z, c)) && Versions(x, WithClient(z, c), r, a)
  {
    hide Writable, C.Takeable, ClientLog, ServerLog, Delivered, Welcome, Agreed;
    var more := c.sent[|z.client.sent|..];
    ClientAppended(z, c, more);
    ClientLogMore(z.client.sent, more, Agreed(x), r, 0 < a < |z.client.received|);
    assert c.sent == z.client.sent + more;
  }

  lemma ClientLogMore(ms: seq<Msg>, more: seq<Msg>, n: UInt32, r: int, switched: bool)
    requires ClientLog(ms, n, r, switched) && C.Ordinary(more, if switched then n else 0)
    ensures ClientLog(ms + more, n, r, switched)
  {
    hide Writable, C.Takeable, VersionCall;
    assert forall i :: |ms| <= i < |ms + more| ==> (ms + more)[i] == more[i - |ms|];
  }

  lemma ClientAppended(z: Sys, c: C.Client, more: seq<Msg>)
    requires Delivered(z) && AllWritable(more)
    requires c.sent == z.client.sent + more && c.received == z.client.received
    ensures Delivered(WithClient(z, c))
  {
    hide Writable, OnWire, Packet;
    var handled := |z.server.received|;
    assert c.sent[|z.client.sent|..] == more;
    assert c.sent[handled..] == z.client.sent[handled..] + more;
    BytesConcat(z.client.sent[handled..], more);
    Assoc(z.serverPending, z.toServer, Bytes(more));
  }

  // ------------------------------------------------- the server handles a frame

  lemma ServerReadsRight(env: S.Layer, s: S.Server, m: Msg)
    requires Writable(m) && m.kind in {FUNCTION, QTRPC, RETURN}
    requires m.version == s.version || (m.version == 0 && LateSafe(s.version, m.id))
    ensures S.Receive(env, s, Encode(m)) ==
            S.ParseMessage(env, s, OnWire(m)).server.(received := s.received + [OnWire(m)])
  {
    hide Decode, Encode, FitsMsg, S.ParseMessage;
    SameVersion(m);
    S.FallbackOnce(env, s, Encode(m));
    if m.version == 0 {
      FirstWords(s.version, m);
      LateFrameExactly(env, s, m);
    }
    SecondReading(env, s, m);
  }

  lemma SecondReading(env: S.Layer, s: S.Server, m: Msg)
    requires m.kind in {FUNCTION, QTRPC, RETURN}
    ensures OnWire(m).kind == m.kind && S.ParseMessage(env, s, OnWire(m)).done
  {
    hide S.CheckProtocolFunction, S.ChangeState;
  }

  lemma RequestHandled(env: S.Layer, s: S.Server, n: UInt32)
    requires s.version == 0 && n <= env.maxVersion
    ensures S.ParseMessage(env, s, OnWire(VersionCall(n))).server ==
            s.(sent := s.sent + [VersionCall(n)], version := n)
  {
    hide Q, ToString, FromString;
    NegotiationTexts();
  }

  /** A message that does not negotiate in either form does not once it is read. */
  lemma NoNewNegotiation(m: Msg)
    requires !Negotiates(m)
    ensures !IsNegotiation(OnWire(m).kind, OnWire(m).func) && !IsRequest(OnWire(m))
  {
    hide ToString, FromString, Q, Trim, ReturnFromArgs;
    NegotiationNames();
    hide WELCOME, SET_VERSION;
  }

  /** One more message of the client's is off the channel. */
  ghost function ServerTook(z: Sys, m: Msg, rest: seq<Byte>): Sys {
    z.(server := z.server.(received := z.server.received + [m]), serverPending := rest)
  }

  lemma ServerTookDelivered(z: Sys, rest: seq<Byte>)
    requires Delivered(z) && |z.server.received| < |z.client.sent|
    requires rest + z.toServer == Bytes(z.client.sent[|z.server.received| + 1..])
    ensures Delivered(ServerTook(z, OnWire(z.client.sent[|z.server.received|]), rest))
  {
    hide Writable, OnWire, Packet;
  }

  /** The next message from the client is one the server can read. */
  lemma NextIsReadable(x: Setup, z: Sys, r: int, a: int)
    requires Versions(x, z, r, a) && SafeIds(x, z) && |z.server.received| < |z.client.sent|
    ensures var m := z.client.sent[|z.server.received|];
      && m.kind in {FUNCTION, QTRPC, RETURN}
      && (m.version == z.server.version || (m.version == 0 && LateSafe(z.server.version, m.id)))
      && (if |z.server.received| == r then m == VersionCall(Agreed(x)) else !Negotiates(m))
  {
    hide Negotiates, SET_VERSION, ServerLog, LateSafe, Agreed;
    var k := |z.server.received|;
    var m := z.client.sent[k];
    if k != r {
      assert C.Takeable(m);
      if m.version == 0 && a > 0 {
        assert IsRequest(z.client.sent[r]);
      }
    }
  }

  lemma RequestTaken(x: Setup, z: Sys, u: S.Server, r: int, a: int, m: Msg, rest: seq<Byte>)
    requires Delivered(z) && Versions(x, z, r, a) && |z.server.received| == r
    requires |z.client.received| <= |z.server.sent|
    requires u == z.server.(sent := z.server.sent + [VersionCall(Agreed(x))], version := Agreed(x))
    ensures Delivered(WithServer(z, u))
    ensures Versions(x, ServerTook(WithServer(z, u), m, rest), r, |z.server.sent|)
  {
    hide Writable, VersionCall, Agreed, Negotiates, C.Takeable, OnWire, Welcome, Delivered;
    VersionWritable(Agreed(x), 0);
    AckVersion(Agreed(x));
    ServerAppended(z, u, [VersionCall(Agreed(x))]);
  }

  lemma AckVersion(n: UInt32)
    ensures VersionCall(n).version == 0 && VersionCall(n).(version := 0) == VersionCall(n)
  {
  }

  lemma OtherTaken(x: Setup, z: Sys, r: int, a: int, m: Msg, rest: seq<Byte>)
    requires Versions(x, z, r, a) && |z.server.received| != r
    ensures Versions(x, ServerTook(z, m, rest), r, a)
  {
    hide ClientLog, ServerLog;
  }

  lemma ServerTakes(x: Setup, z: Sys, rest: seq<Byte>, r: int, a: int) returns (a': int)
    requires Sane(x) && Delivered(z) && Versions(x, z, r, a) && SafeIds(x, z)
    requires |z.server.received| < |z.client.sent|
    ensures var m := z.client.sent[|z.server.received|];
      var u := S.ParseMessage(x.env, z.server, OnWire(m)).server;
      && m.kind in {FUNCTION, QTRPC, RETURN}
      && (m.version == z.server.version || (m.version == 0 && LateSafe(z.server.version, m.id)))
      && Delivered(WithServer(z, u))
      && Versions(x, ServerTook(WithServer(z, u), OnWire(m), rest), r, a')
      && z.server.sent <= u.sent && u.received == z.server.received
  {
    hide Writable, OnWire, S.ParseMessage, S.Sane, C.Sane, ClientLog, LateSafe;
    hide Negotiates, WELCOME, SET_VERSION, VersionCall, C.Takeable, SafeIds;
    var k := |z.server.received|;
    var m := z.client.sent[k];
    NextIsReadable(x, z, r, a);
    var u := S.ParseMessage(x.env, z.server, OnWire(m)).server;
    if k == r {
      a' := |z.server.sent|;
      RequestHandled(x.env, z.server, Agreed(x));
      RequestTaken(x, z, u, r, a, OnWire(m), rest);
    } else {
      a' := a;
      NoNewNegotiation(m);
      S.ParseAppends(x.env, z.server, OnWire(m));
      ServerWrote(x, z, u, r, a);
      OtherTaken(x, WithServer(z, u), r, a, OnWire(m), rest);
    }
  }

  lemma ServerHandles(x: Setup, z: Sys, r: int, a: int) returns (a': int)
    requires Sane(x) && Delivered(z) && Versions(x, z, r, a) && SafeIds(x, z)
    requires HasFrame(z.serverPending)
    ensures Delivered(ServerFrame(x, z)) && Versions(x, ServerFrame(x, z), r, a')
  {
    hide HasFrame, FirstFrame, AfterFrame, Writable, OnWire, S.ParseMessage, S.Receive, S.Sane, C.Sane;
    hide Versions, SafeIds, Encode, FitsMsg, Packet, LateSafe;
    var k := |z.server.received|;
    PrefixHead(z.serverPending, z.toServer, z.client.sent[k..]);
    var m, rest := z.client.sent[k], AfterFrame(z.serverPending);
    assert z.client.sent[k..][1..] == z.client.sent[k + 1..];
    a' := ServerTakes(x, z, rest, r, a);
    ServerReadsRight(x.env, z.server, m);
    var u := S.ParseMessage(x.env, z.server, OnWire(m)).server;
    ServerTookDelivered(WithServer(z, u), rest);
    assert ServerFrame(x, z) == ServerTook(WithServer(z, u), OnWire(m), rest);
  }

  // ------------------------------------------------- the client handles a frame

  lemma WelcomeHandled(cfg: C.Config, c: C.Client, maxVersion: UInt32)
    requires c.version == 0 && c.connected
    ensures C.ParseMessage(cfg, c, OnWire(ProtocolCall(WELCOME, [UInt(maxVersion)]))) ==
            c.(sent := c.sent + [VersionCall(Min(maxVersion, cfg.maxVersion))],
               tries := c.tries + [C.Try(VersionCall(Min(maxVersion, cfg.maxVersion)), true)])
  {
    hide Q, ToString, FromString, Trim;
    NegotiationTexts();
    NegotiationNames();
  }

  lemma AckHandled(cfg: C.Config, c: C.Client, n: UInt32)
    requires n <= cfg.maxVersion
    ensures C.ParseMessage(cfg, c, OnWire(VersionCall(n))) == C.SwitchVersion(cfg, c, n)
  {
    hide Q, ToString, FromString, Trim, C.SwitchVersion;
    NegotiationTexts();
    NegotiationNames();
  }

  ghost function ClientTook(z: Sys, m: Msg, rest: seq<Byte>): Sys {
    z.(client := z.client.(received := z.client.received + [m]), clientPending := rest)
  }

  lemma ClientTookDelivered(z: Sys, rest: seq<Byte>)
    requires Delivered(z) && |z.client.received| < |z.server.sent|
    requires rest + z.toClient == Bytes(z.server.sent[|z.client.received| + 1..])
    ensures Delivered(ClientTook(z, OnWire(z.server.sent[|z.client.received|]), rest))
  {
    hide Writable, OnWire, Packet;
  }

  lemma WelcomeTaken(x: Setup, z: Sys, d: C.Client, r: int, a: int, m: Msg, rest: seq<Byte>)
    requires Delivered(z) && Versions(x, z, r, a) && |z.client.received| == 0
    requires d == z.client.(sent := z.client.sent + [VersionCall(Agreed(x))], tries := d.tries)
    ensures Delivered(WithClient(z, d))
    ensures Versions(x, ClientTook(WithClient(z, d), m, rest), |z.client.sent|, a)
  {
    hide Writable, VersionCall, Agreed, Negotiates, C.Takeable, OnWire, ServerLog;
    VersionWritable(Agreed(x), 0);
    AckVersion(Agreed(x));
    ClientAppended(z, d, [VersionCall(Agreed(x))]);
  }

  lemma AckTaken(x: Setup, z: Sys, d: C.Client, r: int, a: int, m: Msg, rest: seq<Byte>)
    requires Delivered(z) && Versions(x, z, r, a) && |z.client.received| == a
    requires C.Appends(z.client.(version := Agreed(x)), d)
    ensures Delivered(WithClient(z, d))
    ensures Versions(x, ClientTook(WithClient(z, d), m, rest), r, a)
  {
    hide Writable, VersionCall, Negotiates, C.Takeable, OnWire, ServerLog, Agreed;
    var more := d.sent[|z.client.sent|..];
    ClientAppended(z, d, more);
    ClientLogMore(z.client.sent, more, Agreed(x), r, true);
    assert d.sent == z.client.sent + more;
  }

  lemma OtherSeen(x: Setup, z: Sys, r: int, a: int, m: Msg, rest: seq<Byte>)
    requires Versions(x, z, r, a) && |z.client.received| != 0 && |z.client.received| != a
    ensures Versions(x, ClientTook(z, m, rest), r, a)
  {
    hide ClientLog, ServerLog;
  }

  lemma ClientTakes(x: Setup, z: Sys, rest: seq<Byte>, r: int, a: int) returns (r': int)
    requires Sane(x) && Delivered(z) && Versions(x, z, r, a) && |z.client.received| < |z.server.sent|
    ensures var m := z.server.sent[|z.client.received|];
      var d := C.ParseMessage(x.cfg, z.client, OnWire(m));
      && m.version == z.client.version
      && Delivered(WithClient(z, d))
      && Versions(x, ClientTook(WithClient(z, d), OnWire(m), rest), r', a)
      && z.client.sent <= d.sent && d.received == z.client.received
  {
    hide Writable, OnWire, C.ParseMessage, S.Sane, C.Sane, Delivered, ClientLog;
    hide Negotiates, WELCOME, SET_VERSION, VersionCall, C.Takeable, C.SwitchVersion;
    var k := |z.client.received|;
    var m := z.server.sent[k];
    var d := C.ParseMessage(x.cfg, z.client, OnWire(m));
    if k == 0 {
      r' := |z.client.sent|;
      WelcomeHandled(x.cfg, z.client, x.env.maxVersion);
      WelcomeTaken(x, z, d, r, a, OnWire(m), rest);
    } else if k == a {
      r' := r;
      AckHandled(x.cfg, z.client, Agreed(x));
      C.SwitchAppends(x.cfg, z.client, Agreed(x));
      AckTaken(x, z, d, r, a, OnWire(m), rest);
    } else {
      r' := r;
      NoNewNegotiation(m);
      C.ParseAppends(x.cfg, z.client, OnWire(m));
      ClientWrote(x, z, d, r, a);
      OtherSeen(x, WithClient(z, d), r, a, OnWire(m), rest);
    }
  }

  lemma ClientHandles(x: Setup, z: Sys, r: int, a: int) returns (r': int)
    requires Sane(x) && Delivered(z) && Versions(x, z, r, a)
    requires HasFrame(z.clientPending)
    ensures Delivered(ClientFrame(x, z)) && Versions(x, ClientFrame(x, z), r', a)
  {
    hide HasFrame, FirstFrame, AfterFrame, Writable, OnWire, C.ParseMessage, S.Sane, C.Sane;
    hide Versions, Encode, FitsMsg, Packet;
    var k := |z.client.received|;
    PrefixHead(z.clientPending, z.toClient, z.server.sent[k..]);
    var m, rest := z.server.sent[k], AfterFrame(z.clientPending);
    assert z.server.sent[k..][1..] == z.server.sent[k + 1..];
    r' := ClientTakes(x, z, rest, r, a);
    ReadInVersion(m);
    var d := C.ParseMessage(x.cfg, z.client, OnWire(m));
    ClientTookDelivered(WithClient(z, d), rest);
    assert ClientFrame(x, z) == ClientTook(WithClient(z, d), OnWire(m), rest);
  }

  lemma ReadInVersion(m: Msg)
    requires Writable(m)
    ensures Decode(m.version, Encode(m)).value == OnWire(m)
  {
    hide Decode, Encode, FitsMsg;
    SameVersion(m);
  }

  // ------------------------------------------------------------------- runs

  /** The readers of the system are the reading loops of the two device classes. */
  lemma {:induction false} ServerCatchUpIsDrain(x: Setup, z: Sys)
    ensures ServerCatchUp(x, z).server == S.Drain(x.env, z.server, z.serverPending)
    ensures ServerCatchUp(x, z).serverPending == Residue(z.serverPending)
    decreases |z.serverPending|
  {
    hide HasFrame, FirstFrame, AfterFrame, S.Receive;
    if HasFrame(z.serverPending) {
      ServerCatchUpIsDrain(x, ServerFrame(x, z));
    }
  }

  lemma {:induction false} ClientCatchUpIsDrain(x: Setup, z: Sys)
    ensures ClientCatchUp(x, z).client == C.Drain(x.cfg, z.client, z.clientPending)
    ensures ClientCatchUp(x, z).clientPending == Residue(z.clientPending)
    decreases |z.clientPending|
  {
    hide HasFrame, FirstFrame, AfterFrame, C.Receive;
    if HasFrame(z.clientPending) {
      ClientCatchUpIsDrain(x, ClientFrame(x, z));
    }
  }

  lemma {:induction false} ServerCatchesUp(x: Setup, z: Sys, r: int, a: int) returns (a': int)
    requires Sane(x) && Delivered(z) && Versions(x, z, r, a) && SafeIds(x, z)
    ensures var z' := ServerCatchUp(x, z);
      && Delivered(z') && Versions(x, z', r, a')
      && !HasFrame(z'.serverPending) && z'.clientPending == z.clientPending
    decreases |z.serverPending|
  {
    hide HasFrame, FirstFrame, AfterFrame, Sane, Delivered, Versions, S.Receive;
    if HasFrame(z.serverPending) {
      a' := ServerHandles(x, z, r, a);
      a' := ServerCatchesUp(x, ServerFrame(x, z), r, a');
    } else {
      a' := a;
    }
  }

  lemma {:induction false} ClientCatchesUp(x: Setup, z: Sys, r: int, a: int) returns (r': int)
    requires Sane(x) && Delivered(z) && Versions(x, z, r, a)
    ensures var z' := ClientCatchUp(x, z);
      && Delivered(z') && Versions(x, z', r', a)
      && !HasFrame(z'.clientPending) && z'.serverPending == z.serverPending
    decreases |z.clientPending|
  {
    hide HasFrame, FirstFrame, AfterFrame, Sane, Delivered, Versions, C.Receive;
    if HasFrame(z.clientPending) {
      r' := ClientHandles(x, z, r, a);
      r' := ClientCatchesUp(x, ClientFrame(x, z), r', a);
    } else {
      r' := r;
    }
  }

  ghost predicate Inv(x: Setup, z: Sys) {
    && Delivered(z)
    && !HasFrame(z.serverPending) && !HasFrame(z.clientPending)
    && exists r, a :: Versions(x, z, r, a)
  }

  lemma InvAtStart(x: Setup)
    ensures Inv(x, Start(x))
  {
    hide Encode, FitsMsg, Frame;
    var z := Start(x);
    S.WelcomeBrief(x.env.maxVersion);
    BytesOne(Welcome(x));
    assert z.server.sent[0..] == [Welcome(x)];
    assert [] + Packet(Welcome(x)) == Packet(Welcome(x));
    assert Versions(x, z, -1, -1);
  }

  lemma ServerReadsInv(x: Setup, z: Sys, n: nat)
    requires Sane(x) && Inv(x, z) && SafeIds(x, z) && n <= |z.toServer|
    ensures Inv(x, Next(x, z, ServerReads(n)))
  {
    hide Versions, Delivered, HasFrame, Sane, SafeIds, ServerFrame;
    var r, a :| Versions(x, z, r, a);
    var y := z.(serverPending := z.serverPending + z.toServer[..n], toServer := z.toServer[n..]);
    Rejoin(z.serverPending, z.toServer, n);
    OnlyChannels(x, z, y, r, a);
    SafeIdsKept(x, z, y);
    var a' := ServerCatchesUp(x, y, r, a);
  }

  lemma ClientReadsInv(x: Setup, z: Sys, n: nat)
    requires Sane(x) && Inv(x, z) && n <= |z.toClient|
    ensures Inv(x, Next(x, z, ClientReads(n)))
  {
    hide Versions, Delivered, HasFrame, Sane, ClientFrame;
    var r, a :| Versions(x, z, r, a);
    var y := z.(clientPending := z.clientPending + z.toClient[..n], toClient := z.toClient[n..]);
    Rejoin(z.clientPending, z.toClient, n);
    OnlyChannels(x, z, y, r, a);
    var r' := ClientCatchesUp(x, y, r, a);
  }

  lemma Rejoin(pending: seq<Byte>, channel: seq<Byte>, n: nat)
    requires n <= |channel|
    ensures pending + channel[..n] + channel[n..] == pending + channel
  {
    assert channel == channel[..n] + channel[n..];
  }

  lemma SafeIdsKept(x: Setup, z: Sys, y: Sys)
    requires SafeIds(x, z) && y.client == z.client
    ensures SafeIds(x, y)
  {
  }

  /** Moving bytes from a channel into its reader's buffer. */
  lemma OnlyChannels(x: Setup, z: Sys, y: Sys, r: int, a: int)
    requires Delivered(z) && Versions(x, z, r, a) && y.server == z.server && y.client == z.client
    requires y.serverPending + y.toServer == z.serverPending + z.toServer
    requires y.clientPending + y.toClient == z.clientPending + z.toClient
    ensures Delivered(y) && Versions(x, y, r, a)
  {
    hide ClientLog, ServerLog, Writable, OnWire;
  }

  lemma InvNext(x: Setup, z: Sys, step: Step)
    requires Sane(x) && Inv(x, z) && SafeIds(x, z) && Enabled(z, step)
    ensures Inv(x, Next(x, z, step))
  {
    hide Versions, Delivered, HasFrame, Negotiates, C.Takeable, Writable, S.ChangeState, Sane, SafeIds;
    hide ServerCatchUp, ClientCatchUp;
    match step
    case ServerReads(n) => ServerReadsInv(x, z, n);
    case ClientReads(n) => ClientReadsInv(x, z, n);
    case ServerSends(m) =>
      var r, a :| Versions(x, z, r, a);
      S.WriteAppends(S.Log(z.server, S.Volunteered(m)), m);
      S.LogAppends(z.server, S.Volunteered(m), S.Volunteer(z.server, m));
      ServerWrote(x, z, S.Volunteer(z.server, m), r, a);
    case ClientSends(m) =>
      var r, a :| Versions(x, z, r, a);
      C.WriteAppends(z.client, m, false);
      ClientWrote(x, z, C.Write(z.client, m, false), r, a);
    case ServerMoves(state) =>
      var r, a :| Versions(x, z, r, a);
      S.ChangeStateAppends(S.Log(z.server, S.Moved(state)), state);
      S.LogAppends(z.server, S.Moved(state), S.Move(z.server, state));
      ServerWrote(x, z, S.Move(z.server, state), r, a);
  }

  /** A run: its states, and the step between each and the next. */
  ghost predicate Behaviour(x: Setup, states: seq<Sys>, steps: seq<Step>) {
    && |states| == |steps| + 1 && states[0] == Start(x)
    && (forall i :: 0 <= i < |steps| ==>
        SafeIds(x, states[i]) && Enabled(states[i], steps[i]) && states[i + 1] == Next(x, states[i], steps[i]))
  }

  lemma {:induction false} InvAlways(x: Setup, states: seq<Sys>, steps: seq<Step>, i: nat)
    requires Sane(x) && Behaviour(x, states, steps) && i < |states|
    ensures Inv(x, states[i])
  {
    hide Inv, Sane, Next, Enabled, SafeIds;
    if i == 0 {
      InvAtStart(x);
    } else {
      InvAlways(x, states, steps, i - 1);
      InvNext(x, states[i - 1], steps[i - 1]);
    }
  }

  /** Every message handled by either side is the message written, in order, as its version
      carries it; the versions are the original one or the one agreed on, and neither side
      gives up. */
  lemma EveryFrameAsWritten(x: Setup, states: seq<Sys>, steps: seq<Step>, i: nat)
    requires Sane(x) && Behaviour(x, states, steps) && i < |states|
    ensures var z := states[i];
      && |z.server.received| <= |z.client.sent| && |z.client.received| <= |z.server.sent|
      && (forall k :: 0 <= k < |z.server.received| ==> z.server.received[k] == OnWire(z.client.sent[k]))
      && (forall k :: 0 <= k < |z.client.received| ==> z.client.received[k] == OnWire(z.server.sent[k]))
      && z.server.version in {0, Agreed(x)} && z.client.version in {0, z.server.version}
      && !z.client.detached && !z.server.hungUp
  {
    hide OnWire, Writable, Behaviour;
    InvAlways(x, states, steps, i);
  }

  /** The acknowledgement at `a` is the last message in the original format, or, with none
      yet, all messages are. */
  ghost predicate SwitchedAt(s: S.Server, n: UInt32, a: int) {
    && -1 <= a < |s.sent|
    && s.version == (if a == -1 then 0 else n)
    && (a >= 0 ==> IsRequest(s.sent[a]) && s.sent[a].args == [UInt(n)])
    && forall k :: 0 <= k < |s.sent| ==> s.sent[k].version == if 0 <= a < k then n else 0
  }

  /** The server's switch is exactly at its acknowledgement. */
  lemma SwitchExactlyAtAck(x: Setup, states: seq<Sys>, steps: seq<Step>, i: nat)
    requires Sane(x) && Behaviour(x, states, steps) && i < |states|
    ensures exists a :: SwitchedAt(states[i].server, Agreed(x), a)
  {
    hide OnWire, Writable, Behaviour, ClientLog, Negotiates, SET_VERSION;
    InvAlways(x, states, steps, i);
    var r, a :| Versions(x, states[i], r, a);
    assert SwitchedAt(states[i].server, Agreed(x), a);
  }

  /** Once the channels are empty nothing was lost, and both sides use the smaller maximum. */
  lemma QuietMeansAgreed(x: Setup, states: seq<Sys>, steps: seq<Step>, i: nat)
    requires Sane(x) && Behaviour(x, states, steps) && i < |states|
    requires states[i].toServer == [] && states[i].toClient == []
    ensures var z := states[i];
      && |z.server.received| == |z.client.sent| && |z.client.received| == |z.server.sent|
      && z.server.version == Agreed(x) && z.client.version == Agreed(x)
  {
    hide OnWire, Writable, Behaviour, HasFrame, FirstFrame, AfterFrame, Packet, ClientLog, Negotiates;
    InvAlways(x, states, steps, i);
    var z := states[i];
    assert z.serverPending + [] == z.serverPending && z.clientPending + [] == z.clientPending;
    NothingLeft(z.serverPending, z.client.sent[|z.server.received|..]);
    NothingLeft(z.clientPending, z.server.sent[|z.client.received|..]);
    var r, a :| Versions(x, z, r, a);
    RequestInLog(z.client.sent, Agreed(x), r, 0 < a < |z.client.received|);
  }

  lemma RequestInLog(ms: seq<Msg>, n: UInt32, r: int, switched: bool)
    requires ClientLog(ms, n, r, switched)
    ensures r < |ms|
  {
  }

  lemma NothingLeft(pending: seq<Byte>, ms: seq<Msg>)
    requires AllWritable(ms) && pending == Bytes(ms) && !HasFrame(pending)
    ensures ms == []
  {
    hide HasFrame, FirstFrame, AfterFrame, Writable, Packet, Encode;
    if ms != [] {
      BytesHead(ms);
    }
  }

  /** For version 2, and whenever the original version stays, the assumption on ids is only
      that no original-format message carries the magic number as its id. */
  lemma SafeWithoutMagic(x: Setup, z: Sys)
    requires Agreed(x) != 1
    requires forall m <- z.client.sent :: m.version == 0 ==> m.id != MAGIC
    ensures SafeIds(x, z)
  {
  }
}
