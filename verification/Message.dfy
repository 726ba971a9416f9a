/** lib/message.cpp: the message and its three wire formats. */
module Messages {
  import opened QtTypes
  import opened QStrings
  import opened DataStream
  import opened ReturnValues
  import opened Signatures

  // Message::Type. The original format casts any number to it, so a type may be any UInt32.
  const FUNCTION: UInt32 := 0
  const QTRPC: UInt32 := 1
  const EVENT: UInt32 := 2
  const RETURN: UInt32 := 3
  const INVALID: UInt32 := 4

  const MAGIC: UInt32 := 0x1234_abcd

  /** The fields of MessageData. */
  datatype Msg = Msg(
    id: UInt32,
    kind: UInt32,
    func: Sig,
    args: Arguments,
    ret: ReturnValue,
    version: UInt32,
    service: UInt32)

  const NEW_MSG: Msg := Msg(0, INVALID, EMPTY, [], DEFAULT_RETURN, 0, 0)

  /** A return value rebuilt from the arguments of the original format. */
  function ReturnFromArgs(args: Arguments): ReturnValue {
    if |args| > 1 then FromError(ToInt(args[0]), ToText(args[1]))
    else if |args| == 1 then FromVariant(args[0])
    else FromError(100, Q("Error: Failed to generate the ReturnValue"))
  }

  /** A return value as the arguments of the original format. */
  function ArgsFromReturn(ret: ReturnValue): Arguments {
    if ret.IsError() then [UInt(ret.number), Str(ret.text)] else [ret.value]
  }

  function SetArguments(m: Msg, args: Arguments): Msg {
    m.(args := args, ret := if m.kind == RETURN then ReturnFromArgs(args) else m.ret)
  }

  function SetReturnValue(m: Msg, ret: ReturnValue): Msg {
    m.(ret := ret, args := ArgsFromReturn(ret))
  }

  /** The constructor from an id, a type, a signature and arguments. */
  function Call(id: UInt32, kind: UInt32, func: Sig, args: Arguments, service: UInt32): Msg {
    SetArguments(NEW_MSG.(id := id, kind := kind, func := func, service := service), args)
  }

  /** The constructor from an id and a return value. */
  function Reply(id: UInt32, ret: ReturnValue): Msg {
    SetReturnValue(NEW_MSG.(id := id, kind := RETURN), ret)
  }

  // -------------------------------------------------------------------- wire

  ghost predicate FitsSig(sig: Sig) {
    FitsString(sig.name) && FitsStrings(sig.args) && FitsString(ToString(sig))
  }

  /** Every part of the message is within QDataStream's length fields. */
  ghost predicate FitsMsg(m: Msg) {
    FitsSig(m.func) && FitsArguments(m.args) && FitsReturn(m.ret)
  }

  function PutSig(sig: Sig): seq<Byte>
    requires FitsSig(sig)
  {
    PutString(sig.name) + PutStrings(sig.args)
  }

  function GetSig(s: seq<Byte>): (g: Got<Sig>)
    ensures |g.rest| <= |s|
  {
    var name := GetString(s);
    var args := GetStrings(name.rest);
    Got(Sig(name.value, args.value), args.rest)
  }

  predicate IsCall(kind: UInt32) {
    kind == FUNCTION || kind == EVENT
  }

  predicate IsKnown(kind: UInt32) {
    kind <= RETURN
  }

  /** What follows the message type in versions 1 and 2. */
  function PutBody(m: Msg): seq<Byte>
    requires FitsMsg(m)
  {
    if IsCall(m.kind) then PutU32(m.service) + (PutU32(m.id) + (PutSig(m.func) + PutArguments(m.args)))
    else if m.kind == QTRPC then PutU32(m.id) + (PutSig(m.func) + PutArguments(m.args))
    else if m.kind == RETURN then PutU32(m.id) + PutReturn(m.ret)
    else []
  }

  /** The original format. */
  function PutOriginal(m: Msg): seq<Byte>
    requires FitsMsg(m)
  {
    PutU32(m.id) + (PutU32(m.kind) + (PutString(ToString(m.func)) + PutArguments(m.args)))
  }

  function Encode(m: Msg): seq<Byte>
    requires FitsMsg(m)
  {
    if m.version == 2 then PutU32(MAGIC) + (PutU32(m.kind) + PutBody(m))
    else if m.version == 1 then PutU32(m.kind) + PutBody(m)
    else PutOriginal(m)
  }

  function GetCallBody(m: Msg, s: seq<Byte>): Got<Msg> {
    var id := GetU32(s);
    var func := GetSig(id.rest);
    var args := GetArguments(func.rest);
    Got(SetArguments(m.(id := id.value, func := func.value), args.value), args.rest)
  }

  function GetBody(m: Msg, s: seq<Byte>): Got<Msg> {
    var t := GetU32(s);
    var kind := if IsKnown(t.value) then t.value else INVALID;
    var typed := m.(kind := kind);
    if IsCall(kind) then
      var service := GetU32(t.rest);
      GetCallBody(typed.(service := service.value), service.rest)
    else if kind == QTRPC then GetCallBody(typed, t.rest)
    else if kind == RETURN then
      var id := GetU32(t.rest);
      var ret := GetReturn(id.rest);
      Got(SetReturnValue(typed.(id := id.value), ret.value), ret.rest)
    else Got(typed, t.rest)
  }

  function GetOriginal(s: seq<Byte>): Got<Msg> {
    var id := GetU32(s);
    var kind := GetU32(id.rest);
    var func := GetString(kind.rest);
    var args := GetArguments(func.rest);
    Got(Call(id.value, kind.value, FromString(func.value), args.value, 0).(service := 1), args.rest)
  }

  /** operator>> into a message whose version has been set. */
  function DecodeInto(m: Msg, s: seq<Byte>): Got<Msg> {
    if m.version == 2 then
      var magic := GetU32(s);
      if magic.value != MAGIC then Got(m.(kind := INVALID), magic.rest)
      else GetBody(m, magic.rest)
    else if m.version == 1 then GetBody(m, s)
    else GetOriginal(s)
  }

  function Decode(version: UInt32, s: seq<Byte>): Got<Msg> {
    DecodeInto(NEW_MSG.(version := version), s)
  }

  /** What the reader of a frame gets, from what its writer was given. */
  function OnWire(m: Msg): Msg {
    var d := NEW_MSG.(version := m.version, kind := m.kind);
    if m.version != 1 && m.version != 2 then
      Call(m.id, m.kind, FromString(ToString(m.func)), m.args, 0).(service := 1)
    else if IsCall(m.kind) then d.(id := m.id, func := m.func, args := m.args, service := m.service)
    else if m.kind == QTRPC then d.(id := m.id, func := m.func, args := m.args)
    else if m.kind == RETURN then SetReturnValue(d.(id := m.id), ReturnOnWire(m.ret))
    else d.(kind := INVALID)
  }

  // ------------------------------------------------------------- round trips

  lemma SigRoundTrip(sig: Sig, rest: seq<Byte>)
    requires FitsSig(sig)
    ensures GetSig(PutSig(sig) + rest) == Got(sig, rest)
  {
    hide GetString, PutString, GetStrings, PutStrings, FitsString, FitsStrings;
    Assoc(PutString(sig.name), PutStrings(sig.args), rest);
    StringRoundTrip(sig.name, PutStrings(sig.args) + rest);
    StringsRoundTrip(sig.args, rest);
  }

  lemma CallBodyRoundTrip(m: Msg, d: Msg, rest: seq<Byte>)
    requires FitsMsg(m) && d.kind != RETURN
    ensures GetCallBody(d, PutU32(m.id) + (PutSig(m.func) + PutArguments(m.args)) + rest) ==
            Got(d.(id := m.id, func := m.func, args := m.args), rest)
  {
    hide GetU32, PutU32, GetSig, PutSig, GetArguments, PutArguments, FitsSig, FitsArguments;
    TaggedRoundTrip(m.id, PutSig(m.func) + PutArguments(m.args), rest);
    Assoc(PutSig(m.func), PutArguments(m.args), rest);
    SigRoundTrip(m.func, PutArguments(m.args) + rest);
    ArgumentsRoundTrip(m.args, rest);
  }

  lemma BodyRoundTrip(m: Msg, rest: seq<Byte>)
    requires FitsMsg(m) && m.version in {1, 2}
    ensures GetBody(NEW_MSG.(version := m.version), PutU32(m.kind) + PutBody(m) + rest) == Got(OnWire(m), rest)
  {
    hide GetU32, PutU32, GetSig, PutSig, GetArguments, PutArguments, GetReturn, PutReturn, GetCallBody;
    hide FitsSig, FitsArguments, FitsReturn;
    var d := NEW_MSG.(version := m.version, kind := m.kind);
    TaggedRoundTrip(m.kind, PutBody(m), rest);
    if IsCall(m.kind) {
      var tail := PutU32(m.id) + (PutSig(m.func) + PutArguments(m.args));
      TaggedRoundTrip(m.service, tail, rest);
      CallBodyRoundTrip(m, d.(service := m.service), rest);
    } else if m.kind == QTRPC {
      CallBodyRoundTrip(m, d, rest);
    } else if m.kind == RETURN {
      TaggedRoundTrip(m.id, PutReturn(m.ret), rest);
      ReturnRoundTrip(m.ret, rest);
    } else {
      assert [] + rest == rest;
    }
  }

  lemma OriginalRoundTrip(m: Msg, rest: seq<Byte>)
    requires FitsMsg(m)
    ensures GetOriginal(PutOriginal(m) + rest) ==
            Got(Call(m.id, m.kind, FromString(ToString(m.func)), m.args, 0).(service := 1), rest)
  {
    hide GetU32, PutU32, GetString, PutString, GetArguments, PutArguments, FromString, ToString, Call;
    hide FitsArguments, FitsReturn, FitsString, FitsStrings;
    var text, args := PutString(ToString(m.func)), PutArguments(m.args);
    TaggedRoundTrip(m.id, PutU32(m.kind) + (text + args), rest);
    TaggedRoundTrip(m.kind, text + args, rest);
    Assoc(text, args, rest);
    StringRoundTrip(ToString(m.func), args + rest);
    ArgumentsRoundTrip(m.args, rest);
  }

  /** For every message and every version, whatever follows it: the reader gets exactly
      OnWire(m) and stops exactly at the end of the encoding. */
  lemma CodecRoundTrip(m: Msg, rest: seq<Byte>)
    requires FitsMsg(m)
    ensures Decode(m.version, Encode(m) + rest) == Got(OnWire(m), rest)
  {
    hide GetU32, PutU32, GetBody, PutBody, GetOriginal, PutOriginal, FitsMsg;
    if m.version == 2 {
      TaggedRoundTrip(MAGIC, PutU32(m.kind) + PutBody(m), rest);
      BodyRoundTrip(m, rest);
    } else if m.version == 1 {
      BodyRoundTrip(m, rest);
    } else {
      OriginalRoundTrip(m, rest);
    }
  }

  /** A call is read with the id, the type, the arguments and the service it was made with; the
      original format has one service only. */
  lemma CallRead(id: UInt32, kind: UInt32, func: Sig, args: Arguments, service: UInt32, version: UInt32)
    requires kind in {FUNCTION, EVENT} && FitsMsg(Call(id, kind, func, args, service))
    ensures var d := Decode(version, Encode(Call(id, kind, func, args, service).(version := version))).value;
      && d.id == id && d.kind == kind && d.args == args
      && (if version in {1, 2} then d.service == service && d.func == func
          else d.service == 1 && d.func == FromString(ToString(func)))
  {
    hide Decode, Encode, FitsMsg, FromString, ToString;
    var m := Call(id, kind, func, args, service).(version := version);
    assert FitsMsg(m) by { FitsApart(Call(id, kind, func, args, service), version); }
    CodecRoundTrip(m, []);
    assert Encode(m) + [] == Encode(m);
  }

  lemma FitsApart(m: Msg, version: UInt32)
    requires FitsMsg(m)
    ensures FitsMsg(m.(version := version))
  {
  }

  /** A reply is read with its id and, in the formats with types, with what its tag says it holds. */
  lemma ReplyRead(id: UInt32, ret: ReturnValue, version: UInt32)
    requires FitsMsg(Reply(id, ret))
    ensures var d := Decode(version, Encode(Reply(id, ret).(version := version))).value;
      && d.id == id && d.kind == RETURN
      && d.ret == if version in {1, 2} then ReturnOnWire(ret) else ReturnFromArgs(ArgsFromReturn(ret))
  {
    hide Decode, Encode, FitsMsg, FromString, ToString, ReturnFromArgs, ArgsFromReturn, ReturnOnWire;
    var m := Reply(id, ret).(version := version);
    assert FitsMsg(m) by { FitsApart(Reply(id, ret), version); }
    CodecRoundTrip(m, []);
    assert Encode(m) + [] == Encode(m);
  }

  /** The bytes of one call, `f()` of service 7 under the id 5, in each format. */
  lemma ExampleBytes()
    ensures var m := Call(5, FUNCTION, Sig([102], []), [], 7);
      && FitsMsg(m)
      && Encode(m.(version := 2)) == [0x12, 0x34, 0xAB, 0xCD] + ([0, 0, 0, 0] + EXAMPLE_BODY)
      && Encode(m.(version := 1)) == [0, 0, 0, 0] + EXAMPLE_BODY
      && Encode(m.(version := 0)) == [0, 0, 0, 5, 0, 0, 0, 0, 0, 0, 0, 6, 0, 102, 0, 40, 0, 41, 0, 0, 0, 0]
  {
    hide PutU32, PutString, PutStrings, ToString, PutUnits, Encode, FitsMsg, PutBody, PutOriginal, EXAMPLE_BODY;
    var m := Call(5, FUNCTION, Sig([102], []), [], 7);
    ExampleFits();
    ExampleBody(m);
    ExampleOriginal(m);
    SmallNumbers();
    TypedBytes(m.(version := 1));
    TypedBytes(m.(version := 2));
  }

  lemma TypedBytes(m: Msg)
    requires FitsMsg(m)
    ensures m.version == 2 ==> Encode(m) == PutU32(MAGIC) + (PutU32(m.kind) + PutBody(m))
    ensures m.version == 1 ==> Encode(m) == PutU32(m.kind) + PutBody(m)
    ensures m.version == 0 ==> Encode(m) == PutOriginal(m)
  {
  }

  lemma ExampleFits()
    ensures forall v: UInt32 :: FitsMsg(Call(5, FUNCTION, Sig([102], []), [], 7).(version := v))
  {
    ExampleText();
    hide ToString;
  }

  const EXAMPLE_BODY: seq<Byte> := [0, 0, 0, 7, 0, 0, 0, 5, 0, 0, 0, 2, 0, 102, 0, 0, 0, 0, 0, 0, 0, 0]

  lemma ExampleBody(m: Msg)
    requires m == Call(5, FUNCTION, Sig([102], []), [], 7)
    ensures forall v: UInt32 :: FitsMsg(m.(version := v))
    ensures forall v: UInt32 :: PutBody(m.(version := v)) == EXAMPLE_BODY
  {
    ExampleFits();
    SmallNumbers();
    ExampleStrings();
    hide PutU32, PutString, PutStrings, ToString, FitsMsg;
  }

  lemma ExampleOriginal(m: Msg)
    requires m == Call(5, FUNCTION, Sig([102], []), [], 7)
    ensures FitsMsg(m.(version := 0)) && Encode(m.(version := 0)) ==
      [0, 0, 0, 5] + ([0, 0, 0, 0] + ([0, 0, 0, 6, 0, 102, 0, 40, 0, 41] + [0, 0, 0, 0]))
  {
    ExampleFits();
    ExampleText();
    SmallNumbers();
    ExampleStrings();
    hide PutU32, PutString, PutStrings, ToString;
  }

  lemma SmallNumbers()
    ensures PutU32(0) == [0, 0, 0, 0] && PutU32(2) == [0, 0, 0, 2] && PutU32(5) == [0, 0, 0, 5]
    ensures PutU32(6) == [0, 0, 0, 6] && PutU32(7) == [0, 0, 0, 7] && PutU32(MAGIC) == [0x12, 0x34, 0xAB, 0xCD]
  {
    hide PutU32;
    FourBytes(0);
    FourBytes(2);
    FourBytes(5);
    FourBytes(6);
    FourBytes(7);
    FourBytes(MAGIC);
  }

  lemma FourBytes(x: UInt32)
    ensures PutU32(x) == [x / 0x100_0000 % 0x100, x / 0x1_0000 % 0x100, x / 0x100 % 0x100, x % 0x100]
  {
    var y := x / 0x100;
    assert y / 0x100 == x / 0x1_0000 && y / 0x100 / 0x100 == x / 0x100_0000;
    assert Shifted(y / 0x100, 1) == y / 0x100 / 0x100 && Shifted(y, 1) == y / 0x100;
    assert Shifted(y, 2) == y / 0x100 / 0x100 && Shifted(x, 1) == y;
    MostSignificantFirst(4, x, 0);
    MostSignificantFirst(4, x, 1);
    MostSignificantFirst(4, x, 2);
    MostSignificantFirst(4, x, 3);
    hide BigEndian, Shifted;
  }

  lemma ExampleText()
    ensures ToString(Sig([102], [])) == [102, 40, 41]
  {
    NoMarkers([102]);
    Printed(Sig([102], []));
    hide ToString, Pieces;
  }

  lemma ExampleStrings()
    ensures FitsString([102]) && PutString([102]) == [0, 0, 0, 2, 0, 102]
    ensures FitsString([102, 40, 41]) && PutString([102, 40, 41]) == [0, 0, 0, 6, 0, 102, 0, 40, 0, 41]
    ensures FitsStrings([]) && PutStrings([]) == [0, 0, 0, 0]
  {
    SmallNumbers();
    hide PutU32;
    forall x: QChar | x < 0x100 ensures BigEndian(2, x) == [0, x] {
      assert BigEndian(1, x / 0x100) == BigEndian(0, 0) + [0];
    }
    hide BigEndian;
    assert [102, 40, 41][1..] == [40, 41] && [40, 41][1..] == [41];
    assert PutUnits([102, 40, 41]) == [0, 102] + ([0, 40] + ([0, 41] + PutUnits([])));
    assert PutUnits([102]) == [0, 102] + PutUnits([]);
  }

  /** A return value that holds nothing but what its tag calls for. */
  ghost predicate OwnFieldsOnly(r: ReturnValue) {
    && (r.kind != ERROR ==> r.number == 0 && r.text == [])
    && (r.kind != SERVICE ==> r.serviceId == 0xFFFF_FFFF)
    && (r.kind == ERROR || r.kind == SERVICE ==> r.value == Null)
  }

  /** The fields a type does not use are as a new message has them, and a return's arguments
      are those of its return value. */
  ghost predicate WellBuilt(m: Msg) {
    && (m.kind == RETURN ==> OwnFieldsOnly(m.ret) && m.args == ArgsFromReturn(m.ret))
    && (m.kind != RETURN ==> m.ret == DEFAULT_RETURN)
    && (m.kind != FUNCTION && m.kind != EVENT ==> m.service == 0)
    && (m.kind != FUNCTION && m.kind != EVENT && m.kind != QTRPC ==> m.func == EMPTY)
    && (!IsKnown(m.kind) ==> m.kind == INVALID && m.id == 0 && m.args == [])
  }

  /** The typed formats carry a message unchanged exactly when it is well built. */
  lemma TypedFormatsExactly(m: Msg)
    requires m.version in {1, 2}
    ensures OnWire(m) == m <==> WellBuilt(m)
  {
  }

  /** The original format carries a reply exactly when it is a value or an error; a service
      and an asyncronous marker come out as plain values. */
  lemma OriginalReplyExactly(id: UInt32, ret: ReturnValue)
    ensures OnWire(Reply(id, ret)).ret == ReturnOnWire(ret) <==> ret.kind == VARIANT || ret.kind == ERROR
    ensures OnWire(Reply(id, ret)).id == id && OnWire(Reply(id, ret)).kind == RETURN
  {
    ReadBackName(EMPTY);
    hide ToString, FromString, PrintedName;
    if ret.kind == ERROR {
      assert ToUInt32(ToInt32(ret.number)) == ret.number;
    }
  }

  /** The original format carries a call exactly when its signature has a text form. */
  lemma OriginalCallExactly(m: Msg)
    requires m.version == 0 && m.kind != RETURN
    ensures OnWire(m) == Call(m.id, m.kind, m.func, m.args, 0).(service := 1)
       <==> m.func == EMPTY || Canonical(m.func)
  {
    RoundTripExactly(m.func);
    ReadBackName(m.func);
    hide ToString, Accepts, Parsed, PrintedName, Canonical;
    if m.func != EMPTY && Canonical(m.func) {
      KeepsText(m.func);
    }
  }

  // --------------------------------------------------------------- the class

  class Message {
    var data: Msg

    constructor ()
      ensures data == NEW_MSG
    {
      data := NEW_MSG;
    }

    constructor FromCall(id: UInt32, kind: UInt32, func: Sig, args: Arguments, service: UInt32)
      ensures data == Call(id, kind, func, args, service)
    {
      data := NEW_MSG.(id := id, kind := kind, func := func, service := service);
      new;
      SetArgs(args);
    }

    constructor FromReturn(id: UInt32, ret: ReturnValue)
      ensures data == Reply(id, ret)
    {
      data := NEW_MSG.(id := id, kind := RETURN);
      new;
      SetReturn(ret);
    }

    method SetVersion(version: UInt32)
      modifies this
      ensures data == old(data).(version := version)
    {
      data := data.(version := version);
    }

    method SetArgs(args: Arguments)
      modifies this
      ensures data == SetArguments(old(data), args)
    {
      hide Q;
      data := data.(args := args);
      if data.kind == RETURN {
        if |data.args| > 1 {
          data := data.(ret := FromError(ToInt(data.args[0]), ToText(data.args[1])));
        } else if |data.args| == 1 {
          data := data.(ret := FromVariant(data.args[0]));
        } else {
          data := data.(ret := FromError(100, Q("Error: Failed to generate the ReturnValue")));
        }
      }
    }

    method SetReturn(ret: ReturnValue)
      modifies this
      ensures data == SetReturnValue(old(data), ret)
    {
      data := data.(ret := ret, args := []);
      if ret.IsError() {
        data := data.(args := data.args + [UInt(ret.number)]);
        data := data.(args := data.args + [Str(ret.text)]);
      } else {
        data := data.(args := data.args + [ret.value]);
      }
    }

    /** operator<<; the format is the message's own version. */
    method WriteTo(s: Stream)
      requires FitsMsg(data)
      modifies s
      ensures s.data == old(s.data) + Encode(data)
    {
      hide PutU32, PutOriginal, PutBody, FitsMsg;
      ghost var start := s.data;
      if data.version == 2 {
        s.Write(PutU32(MAGIC));
        WriteTyped(s);
        Assoc(start, PutU32(MAGIC), PutU32(data.kind) + PutBody(data));
      } else if data.version == 1 {
        WriteTyped(s);
      } else {
        WriteOriginal(s);
      }
    }

    method WriteTyped(s: Stream)
      requires FitsMsg(data)
      modifies s
      ensures s.data == old(s.data) + (PutU32(data.kind) + PutBody(data))
    {
      hide PutU32, PutSig, PutArguments, PutReturn, FitsSig, FitsArguments, FitsReturn;
      ghost var start := s.data;
      s.Write(PutU32(data.kind));
      ghost var kinded := s.data;
      if IsCall(data.kind) {
        s.Write(PutU32(data.service));
      }
      ghost var served := s.data;
      if IsCall(data.kind) || data.kind == QTRPC {
        s.Write(PutU32(data.id));
        s.Write(PutSig(data.func));
        s.Write(PutArguments(data.args));
        Assoc(served + PutU32(data.id), PutSig(data.func), PutArguments(data.args));
        Assoc(served, PutU32(data.id), PutSig(data.func) + PutArguments(data.args));
        Assoc(kinded, PutU32(data.service), PutU32(data.id) + (PutSig(data.func) + PutArguments(data.args)));
      } else if data.kind == RETURN {
        s.Write(PutU32(data.id));
        s.Write(PutReturn(data.ret));
        Assoc(served, PutU32(data.id), PutReturn(data.ret));
      }
      assert s.data == kinded + PutBody(data);
      Assoc(start, PutU32(data.kind), PutBody(data));
    }

    method WriteOriginal(s: Stream)
      requires FitsMsg(data)
      modifies s
      ensures s.data == old(s.data) + PutOriginal(data)
    {
      hide PutU32, PutString, PutArguments, ToString, FitsString, FitsStrings, FitsArguments, FitsReturn;
      var text := ToString(data.func);
      ghost var start, args := s.data, PutArguments(data.args);
      s.Write(PutU32(data.id));
      s.Write(PutU32(data.kind));
      s.Write(PutString(text));
      s.Write(PutArguments(data.args));
      Assoc(start + PutU32(data.id) + PutU32(data.kind), PutString(text), args);
      Assoc(start + PutU32(data.id), PutU32(data.kind), PutString(text) + args);
      Assoc(start, PutU32(data.id), PutU32(data.kind) + (PutString(text) + args));
    }

    /** The number of bytes the next write takes, found by writing to a scratch array. */
    method Size() returns (n: nat)
      requires FitsMsg(data)
      ensures n == |Encode(data)|
    {
      var ba := new Stream([]);
      WriteTo(ba);
      assert [] + Encode(data) == Encode(data);
      n := |ba.data|;
    }

    method ReadSig(s: Stream) returns (sig: Sig)
      modifies s
      ensures Got(sig, s.data) == GetSig(old(s.data))
    {
      var name := s.ReadString();
      var args := s.ReadStrings();
      sig := Sig(name, args);
    }

    /** operator>>; the format is the version set beforehand. */
    method ReadFrom(s: Stream)
      modifies this, s
      ensures Got(data, s.data) == DecodeInto(old(data), old(s.data))
    {
      hide GetU32, GetString, GetStrings, GetArguments, GetReturn, GetSig, FromString;
      if data.version == 2 {
        var i := s.ReadU32();
        if i != MAGIC {
          data := data.(kind := INVALID);
          return;
        }
      }
      if data.version == 2 || data.version == 1 {
        var t := s.ReadU32();
        var kind := if IsKnown(t) then t else INVALID;
        data := data.(kind := kind);
        if IsCall(kind) {
          var service := s.ReadU32();
          data := data.(service := service);
        }
        if IsCall(kind) || kind == QTRPC {
          var id := s.ReadU32();
          var func := ReadSig(s);
          var args := s.ReadArguments();
          data := data.(id := id, func := func);
          SetArgs(args);
        } else if kind == RETURN {
          var id := s.ReadU32();
          var ret := ReadReturn(s);
          data := data.(id := id);
          SetReturn(ret);
        }
      } else {
        var id := s.ReadU32();
        var kind := s.ReadU32();
        var func := s.ReadString();
        var args := s.ReadArguments();
        data := NEW_MSG.(id := id, kind := kind, func := FromString(func));
        SetArgs(args);
        data := data.(service := 1);
      }
    }
  }
}
