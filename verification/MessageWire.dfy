/** Messages as framed bytes, and the size of the messages the devices write on their own. */
module MessageWire {
  import opened QtTypes
  import opened QStrings
  import opened DataStream
  import opened ReturnValues
  import opened Signatures
  import opened Messages
  import opened Framing

  /** The message can be written: its parts and its size are within the length fields. */
  ghost predicate Writable(m: Msg) {
    FitsMsg(m) && FitsFrame(Encode(m))
  }

  ghost predicate AllWritable(ms: seq<Msg>) {
    forall i :: 0 <= i < |ms| ==> Writable(ms[i])
  }

  ghost function Packet(m: Msg): seq<Byte>
    requires Writable(m)
  {
    Frame(Encode(m))
  }

  /** The bytes of some messages, each framed. */
  ghost function Bytes(ms: seq<Msg>): seq<Byte>
    requires AllWritable(ms)
  {
    if ms == [] then [] else Packet(ms[0]) + Bytes(ms[1..])
  }

  lemma {:induction false} BytesConcat(ms: seq<Msg>, more: seq<Msg>)
    requires AllWritable(ms) && AllWritable(more)
    ensures Bytes(ms + more) == Bytes(ms) + Bytes(more)
  {
    hide Writable, Packet;
    if ms == [] {
      assert ms + more == more;
    } else {
      assert (ms + more)[1..] == ms[1..] + more;
      BytesConcat(ms[1..], more);
      Assoc(Packet(ms[0]), Bytes(ms[1..]), Bytes(more));
    }
  }

  lemma BytesOne(m: Msg)
    requires Writable(m)
    ensures Bytes([m]) == Packet(m)
  {
    hide Writable, Packet;
    assert [m][1..] == [];
    assert Packet(m) + [] == Packet(m);
  }

  /** The head of the stream is the first message; what follows is the other messages. */
  lemma BytesHead(ms: seq<Msg>)
    requires ms != [] && AllWritable(ms)
    ensures HasFrame(Bytes(ms))
    ensures FirstFrame(Bytes(ms)) == Encode(ms[0]) && AfterFrame(Bytes(ms)) == Bytes(ms[1..])
  {
    hide HasFrame, FirstFrame, AfterFrame, Frame, Encode, FitsMsg;
    FrameFirst(Encode(ms[0]), Bytes(ms[1..]));
  }

  /** A prefix of the stream that holds a complete frame holds the whole first message. */
  lemma PrefixHead(s: seq<Byte>, rest: seq<Byte>, ms: seq<Msg>)
    requires AllWritable(ms)
    requires HasFrame(s) && s + rest == Bytes(ms)
    ensures ms != [] && FirstFrame(s) == Encode(ms[0])
    ensures AfterFrame(s) + rest == Bytes(ms[1..])
  {
    hide FirstFrame, AfterFrame, Packet, Announced, Writable, Encode;
    FrameExtends(s, rest);
    if ms != [] {
      BytesHead(ms);
    }
  }

  // ------------------------------------------------- messages of bounded size

  predicate BriefVariant(v: QVariant) {
    !v.List? && (v.Str? ==> |v.s| <= 200)
  }

  /** Few arguments, short texts, no lists. */
  ghost predicate Brief(m: Msg) {
    && |m.func.name| <= 50 && PERCENT !in m.func.name && |m.func.args| <= 3 && (forall i :: 0 <= i < |m.func.args| ==> |m.func.args[i]| <= 50)
    && |m.args| <= 3 && (forall i :: 0 <= i < |m.args| ==> BriefVariant(m.args[i]))
    && BriefVariant(m.ret.value) && |m.ret.text| <= 200
  }

  lemma {:induction false} StringsSize(ss: seq<QString>)
    requires forall i :: 0 <= i < |ss| ==> |ss[i]| <= 50
    ensures forall s <- ss :: FitsString(s)
    ensures |Join(ss)| <= |ss| * 51
    ensures |PutEachString(ss)| <= |ss| * 104
  {
    hide PutU32, PutUnits;
    if ss != [] {
      StringsSize(ss[1..]);
    }
  }

  lemma BriefVariantSize(v: QVariant)
    requires BriefVariant(v)
    ensures FitsVariant(v) && |PutVariant(v)| <= 408
  {
    hide PutU32, PutUnits;
  }

  lemma {:induction false} EachVariantSize(vs: Arguments)
    requires forall i :: 0 <= i < |vs| ==> BriefVariant(vs[i])
    ensures forall v <- vs :: FitsVariant(v)
    ensures |PutEachVariant(vs)| <= |vs| * 408
  {
    hide PutVariant, FitsVariant, BriefVariant;
    forall v | v in vs
      ensures FitsVariant(v)
    {
      BriefVariantSize(v);
    }
    if vs != [] {
      BriefVariantSize(vs[0]);
      EachVariantSize(vs[1..]);
    }
  }

  lemma BriefParts(m: Msg)
    requires Brief(m)
    ensures FitsMsg(m)
    ensures |PutSig(m.func)| <= 420 && |PutString(ToString(m.func))| <= 420
    ensures |PutArguments(m.args)| <= 1228 && |PutReturn(m.ret)| <= 412
  {
    hide PutU32, PutUnits, PutEachString, PutEachVariant, PutVariant, Join, ToString, Pieces, Fill;
    StringsSize(m.func.args);
    NoMarkers(m.func.name);
    Printed(m.func);
    EachVariantSize(m.args);
    BriefVariantSize(m.ret.value);
  }

  /** So the messages the devices write on their own can always be written. */
  lemma BriefWritable(m: Msg)
    requires Brief(m)
    ensures Writable(m)
  {
    hide PutU32, PutSig, PutString, PutArguments, PutReturn, ToString, Brief;
    BriefParts(m);
  }

  /** Parts of moderate size make a writable message. */
  lemma PartsWritable(m: Msg)
    requires FitsMsg(m)
    requires |PutSig(m.func)| < 0x1000_0000_0000_0000 && |PutString(ToString(m.func))| < 0x1000_0000_0000_0000
    requires |PutArguments(m.args)| < 0x1000_0000_0000_0000 && |PutReturn(m.ret)| < 0x1000_0000_0000_0000
    ensures Writable(m)
  {
    hide PutU32, PutSig, PutString, PutArguments, PutReturn, ToString, FitsMsg;
  }

  /** A value a peer may send back: within the length fields, and not enormous. */
  ghost predicate Sendable(v: QVariant, text: QString) {
    FitsVariant(v) && FitsString(text) && |PutVariant(v)| < 0x100_0000_0000_0000
  }

  /** A message with one sendable value or text in it can be written. */
  lemma ValueWritable(m: Msg, v: QVariant, text: QString)
    requires Sendable(v, text)
    requires |m.func.name| <= 50 && PERCENT !in m.func.name && |m.func.args| <= 3
    requires forall i :: 0 <= i < |m.func.args| ==> |m.func.args[i]| <= 50
    requires m.args in [[v], [UInt(m.ret.number), Str(text)], [Int(1), Str(text)], [Int(2), Str(text)]]
    requires m.ret.value in [v, Null] && m.ret.text in [text, []]
    ensures Writable(m)
  {
    hide PutU32, PutUnits, PutEachString, ToString, Join;
    var blank := m.(args := [], ret := DEFAULT_RETURN);
    BriefParts(blank);
    assert FitsArguments(m.args);
    assert |PutVariant(Str(text))| == 8 + 2 * |text|;
    if |m.args| == 2 {
      assert m.args[1..] == [m.args[1]] && m.args[1..][1..] == [];
      assert PutEachVariant(m.args[1..]) == PutVariant(m.args[1]) + [];
      assert |PutVariant(m.args[0])| == 8;
    } else {
      assert m.args[1..] == [];
      assert PutEachVariant(m.args) == PutVariant(v) + [];
    }
    PartsWritable(m);
  }
}
