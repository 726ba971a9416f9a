/** The part of QDataStream the protocol relies on: big-endian integers, length-prefixed
    strings and lists, and a small recursive QVariant. `Put` functions give the bytes an
    `operator<<` appends; `Get` functions give the value an `operator>>` reads and the bytes
    it leaves. Reads are total: a read past the end yields zero and drains the stream. */
module DataStream {
  import opened QtTypes

  datatype Got<+T> = Got(value: T, rest: seq<Byte>)

  function Prepend<T>(xs: seq<T>, g: Got<seq<T>>): Got<seq<T>> {
    Got(xs + g.value, g.rest)
  }

  lemma Prepending<T>(xs: seq<T>, ys: seq<T>, g: Got<seq<T>>)
    ensures Prepend(xs, Prepend(ys, g)) == Prepend(xs + ys, g)
    ensures Prepend([], g) == g
    ensures Prepend(xs, Got([], g.rest)) == Got(xs, g.rest)
  {
    assert xs + (ys + g.value) == xs + ys + g.value;
    assert [] + g.value == g.value && xs + [] == xs;
  }

  lemma Assoc(a: seq<Byte>, b: seq<Byte>, c: seq<Byte>)
    ensures a + b + c == a + (b + c)
  {
  }

  // ---------------------------------------------------------------- integers

  /** A number as n bytes, the most significant first, and back. */
  function BigEndian(n: nat, x: nat): (b: seq<Byte>)
    ensures |b| == n
    decreases n, x
  {
    if n == 0 then [] else BigEndian(n - 1, x / 0x100) + [x % 0x100]
  }

  function Number(b: seq<Byte>): nat
    decreases |b|
  {
    if b == [] then 0 else Number(b[..|b| - 1]) * 0x100 + b[|b| - 1]
  }

  /** How many numbers fit n bytes. */
  function Range(n: nat): nat {
    if n == 0 then 1 else Range(n - 1) * 0x100
  }

  lemma Ranges()
    ensures Range(2) == 0x1_0000 && Range(4) == 0x1_0000_0000 && Range(8) == 0x1_0000_0000_0000_0000
  {
    assert Range(4) == 0x1_0000_0000;
    assert Range(6) == 0x1_0000_0000_0000;
  }

  lemma {:induction false} NumberFits(b: seq<Byte>)
    ensures Number(b) < Range(|b|)
    decreases |b|
  {
    if b != [] {
      NumberFits(b[..|b| - 1]);
    }
  }

  lemma {:induction false} NumberRoundTrip(n: nat, x: nat)
    requires x < Range(n)
    ensures Number(BigEndian(n, x)) == x
  {
    if n > 0 {
      NumberRoundTrip(n - 1, x / 0x100);
      var b := BigEndian(n, x);
      assert b[..n - 1] == BigEndian(n - 1, x / 0x100);
    }
  }

  lemma {:induction false} NumberOnto(b: seq<Byte>)
    ensures BigEndian(|b|, Number(b)) == b
    decreases |b|
  {
    if b != [] {
      NumberOnto(b[..|b| - 1]);
      assert b == b[..|b| - 1] + [b[|b| - 1]];
    }
  }

  /** The number without its last k bytes. */
  function Shifted(x: nat, k: nat): nat {
    if k == 0 then x else Shifted(x / 0x100, k - 1)
  }

  /** The bytes go from the most significant to the least. */
  lemma {:induction false} MostSignificantFirst(n: nat, x: nat, i: nat)
    requires i < n
    ensures BigEndian(n, x)[i] == Shifted(x, n - 1 - i) % 0x100
  {
    if i < n - 1 {
      MostSignificantFirst(n - 1, x / 0x100, i);
    }
  }

  function PutU32(x: UInt32): (b: seq<Byte>)
    ensures |b| == 4
  {
    BigEndian(4, x)
  }

  function U32(b: seq<Byte>): UInt32
    requires |b| == 4
  {
    NumberFits(b);
    Ranges();
    Number(b)
  }

  function GetU32(s: seq<Byte>): (g: Got<UInt32>)
    ensures |g.rest| <= |s|
    ensures s != [] ==> |g.rest| < |s|
  {
    if |s| < 4 then Got(0, [])
    else Got(U32(s[..4]), s[4..])
  }

  lemma U32RoundTrip(x: UInt32, rest: seq<Byte>)
    ensures GetU32(PutU32(x) + rest) == Got(x, rest)
  {
    Ranges();
    NumberRoundTrip(4, x);
    hide BigEndian, Number;
    assert (PutU32(x) + rest)[..4] == PutU32(x) && (PutU32(x) + rest)[4..] == rest;
  }

  /** A qint64 in two's complement; the frame header is one. */
  function PutI64(x: Int64): (b: seq<Byte>)
    ensures |b| == 8
  {
    BigEndian(8, if x < 0 then x + 0x1_0000_0000_0000_0000 else x)
  }

  function GetI64(b: seq<Byte>): Int64
    requires |b| == 8
  {
    NumberFits(b);
    Ranges();
    if Number(b) < 0x8000_0000_0000_0000 then Number(b) else Number(b) - 0x1_0000_0000_0000_0000
  }

  lemma I64RoundTrip(x: Int64)
    ensures GetI64(PutI64(x)) == x
  {
    Ranges();
    NumberRoundTrip(8, if x < 0 then x + 0x1_0000_0000_0000_0000 else x);
  }

  /** Reading the header and writing it again gives the same bytes, so the
      eight bytes already consumed can be recovered from `totalSize`. */
  lemma I64Onto(b: seq<Byte>)
    requires |b| == 8
    ensures PutI64(GetI64(b)) == b
  {
    Ranges();
    NumberFits(b);
    NumberOnto(b);
  }

  // ----------------------------------------------------------------- strings

  /** QDataStream marks a null string with this length. */
  const NULL_LENGTH: UInt32 := 0xFFFF_FFFF

  ghost predicate FitsString(s: QString) {
    2 * |s| < NULL_LENGTH
  }

  function PutUnits(s: QString): (b: seq<Byte>)
    ensures |b| == 2 * |s|
  {
    if s == [] then [] else BigEndian(2, s[0]) + PutUnits(s[1..])
  }

  function Unit(b: seq<Byte>): QChar
    requires |b| == 2
  {
    NumberFits(b);
    Ranges();
    Number(b)
  }

  function GetUnits(b: seq<Byte>): QString {
    if |b| < 2 then [] else [Unit(b[..2])] + GetUnits(b[2..])
  }

  lemma {:induction false} UnitsRoundTrip(s: QString)
    ensures GetUnits(PutUnits(s)) == s
  {
    if s != [] {
      Ranges();
      NumberRoundTrip(2, s[0]);
      UnitsRoundTrip(s[1..]);
      hide BigEndian, Number;
      var b := PutUnits(s);
      assert b[..2] == BigEndian(2, s[0]) && b[2..] == PutUnits(s[1..]);
    }
  }

  function PutString(s: QString): (b: seq<Byte>)
    requires FitsString(s)
    ensures |b| == 4 + 2 * |s|
  {
    PutU32(2 * |s|) + PutUnits(s)
  }

  function GetString(s: seq<Byte>): (g: Got<QString>)
    ensures |g.rest| <= |s|
    ensures s != [] ==> |g.rest| < |s|
  {
    var n := GetU32(s);
    if n.value == NULL_LENGTH then Got([], n.rest)
    else if n.value % 2 == 1 then Got([], n.rest)
    else if n.value > |n.rest| then Got([], [])
    else Got(GetUnits(n.rest[..n.value]), n.rest[n.value..])
  }

  lemma StringRoundTrip(s: QString, rest: seq<Byte>)
    requires FitsString(s)
    ensures GetString(PutString(s) + rest) == Got(s, rest)
  {
    var body := PutUnits(s) + rest;
    assert PutString(s) + rest == PutU32(2 * |s|) + body;
    U32RoundTrip(2 * |s|, body);
    assert body[..2 * |s|] == PutUnits(s) && body[2 * |s|..] == rest;
    UnitsRoundTrip(s);
  }

  ghost predicate FitsStrings(ss: seq<QString>) {
    |ss| < 0x1_0000_0000 && forall s <- ss :: FitsString(s)
  }

  function PutEachString(ss: seq<QString>): seq<Byte>
    requires forall s <- ss :: FitsString(s)
  {
    if ss == [] then [] else PutString(ss[0]) + PutEachString(ss[1..])
  }

  function GetEachString(n: nat, s: seq<Byte>): (g: Got<seq<QString>>)
    ensures |g.rest| <= |s| && |g.value| == n
  {
    if n == 0 then Got([], s)
    else
      var first := GetString(s);
      var others := GetEachString(n - 1, first.rest);
      Prepend([first.value], others)
  }

  /** A QVector of strings: its count, then each one. */
  function PutStrings(ss: seq<QString>): seq<Byte>
    requires FitsStrings(ss)
  {
    PutU32(|ss|) + PutEachString(ss)
  }

  function GetStrings(s: seq<Byte>): (g: Got<seq<QString>>)
    ensures |g.rest| <= |s|
  {
    var n := GetU32(s);
    GetEachString(n.value, n.rest)
  }

  lemma {:induction false} EachStringRoundTrip(ss: seq<QString>, rest: seq<Byte>)
    requires forall s <- ss :: FitsString(s)
    ensures GetEachString(|ss|, PutEachString(ss) + rest) == Got(ss, rest)
  {
    hide PutString, GetString, FitsString;
    if ss == [] {
      assert PutEachString(ss) + rest == rest;
    } else {
      var others := PutEachString(ss[1..]) + rest;
      Assoc(PutString(ss[0]), PutEachString(ss[1..]), rest);
      StringRoundTrip(ss[0], others);
      EachStringRoundTrip(ss[1..], rest);
      assert ss == [ss[0]] + ss[1..];
    }
  }

  lemma StringsRoundTrip(ss: seq<QString>, rest: seq<Byte>)
    requires FitsStrings(ss)
    ensures GetStrings(PutStrings(ss) + rest) == Got(ss, rest)
  {
    assert PutStrings(ss) + rest == PutU32(|ss|) + (PutEachString(ss) + rest);
    U32RoundTrip(|ss|, PutEachString(ss) + rest);
    EachStringRoundTrip(ss, rest);
  }

  // ---------------------------------------------------------------- variants

  datatype QVariant =
    | Null
    | Bool(b: bool)
    | Int(i: Int32)
    | UInt(u: UInt32)
    | List(items: seq<QVariant>)
    | Str(s: QString)

  type Arguments = seq<QVariant>

  // The QVariant::Type numbers.
  const TYPE_NULL: UInt32 := 0
  const TYPE_BOOL: UInt32 := 1
  const TYPE_INT: UInt32 := 2
  const TYPE_UINT: UInt32 := 3
  const TYPE_LIST: UInt32 := 9
  const TYPE_STRING: UInt32 := 10

  ghost predicate FitsVariant(v: QVariant) {
    match v
    case List(items) => |items| < 0x1_0000_0000 && forall x <- items :: FitsVariant(x)
    case Str(s) => FitsString(s)
    case _ => true
  }

  ghost predicate FitsArguments(vs: Arguments) {
    |vs| < 0x1_0000_0000 && forall v <- vs :: FitsVariant(v)
  }

  function PutVariant(v: QVariant): (b: seq<Byte>)
    requires FitsVariant(v)
    ensures |b| >= 4
    decreases v, 1
  {
    match v
    case Null => PutU32(TYPE_NULL)
    case Bool(b) => PutU32(TYPE_BOOL) + PutU32(if b then 1 else 0)
    case Int(i) => PutU32(TYPE_INT) + PutU32(ToUInt32(i))
    case UInt(u) => PutU32(TYPE_UINT) + PutU32(u)
    case List(items) => PutU32(TYPE_LIST) + PutU32(|items|) + PutEachVariant(items)
    case Str(s) => PutU32(TYPE_STRING) + PutString(s)
  }

  function PutEachVariant(vs: seq<QVariant>): (b: seq<Byte>)
    requires forall v <- vs :: FitsVariant(v)
    ensures vs != [] ==> b != []
    decreases vs, 0
  {
    if vs == [] then [] else PutVariant(vs[0]) + PutEachVariant(vs[1..])
  }

  function GetVariant(s: seq<Byte>): (g: Got<QVariant>)
    ensures |g.rest| <= |s|
    ensures s != [] ==> |g.rest| < |s|
    decreases |s|, 0
  {
    var t := GetU32(s);
    if t.value == TYPE_BOOL then
      var x := GetU32(t.rest);
      Got(Bool(x.value != 0), x.rest)
    else if t.value == TYPE_INT then
      var x := GetU32(t.rest);
      Got(Int(ToInt32(x.value)), x.rest)
    else if t.value == TYPE_UINT then
      var x := GetU32(t.rest);
      Got(UInt(x.value), x.rest)
    else if t.value == TYPE_LIST then
      var n := GetU32(t.rest);
      var x := GetEachVariant(n.value, n.rest);
      Got(List(x.value), x.rest)
    else if t.value == TYPE_STRING then
      var x := GetString(t.rest);
      Got(Str(x.value), x.rest)
    else
      Got(Null, t.rest)
  }

  /** The loop of QList's operator>>: it stops early once the stream is at its end. */
  function GetEachVariant(n: nat, s: seq<Byte>): (g: Got<seq<QVariant>>)
    ensures |g.rest| <= |s|
    decreases |s|, 1
  {
    if n == 0 then Got([], s)
    else
      var first := GetVariant(s);
      if first.rest == [] then Got([first.value], [])
      else
        var others := GetEachVariant(n - 1, first.rest);
        Prepend([first.value], others)
  }

  function PutArguments(vs: Arguments): seq<Byte>
    requires FitsArguments(vs)
  {
    PutU32(|vs|) + PutEachVariant(vs)
  }

  function GetArguments(s: seq<Byte>): (g: Got<Arguments>)
    ensures |g.rest| <= |s|
  {
    var n := GetU32(s);
    GetEachVariant(n.value, n.rest)
  }

  lemma {:induction false} VariantRoundTrip(v: QVariant, rest: seq<Byte>)
    requires FitsVariant(v)
    ensures GetVariant(PutVariant(v) + rest) == Got(v, rest)
    decreases v, 1
  {
    hide PutU32, GetU32, PutString, GetString, PutEachVariant, GetEachVariant;
    match v
    case Null =>
      U32RoundTrip(TYPE_NULL, rest);
    case Bool(b) =>
      TaggedRoundTrip(TYPE_BOOL, PutU32(if b then 1 else 0), rest);
      U32RoundTrip(if b then 1 else 0, rest);
    case Int(i) =>
      TaggedRoundTrip(TYPE_INT, PutU32(ToUInt32(i)), rest);
      U32RoundTrip(ToUInt32(i), rest);
    case UInt(u) =>
      TaggedRoundTrip(TYPE_UINT, PutU32(u), rest);
      U32RoundTrip(u, rest);
    case List(items) =>
      TaggedRoundTrip(TYPE_LIST, PutU32(|items|) + PutEachVariant(items), rest);
      assert PutVariant(v) == PutU32(TYPE_LIST) + (PutU32(|items|) + PutEachVariant(items));
      TaggedRoundTrip(|items|, PutEachVariant(items), rest);
      EachVariantRoundTrip(items, rest);
    case Str(s) =>
      TaggedRoundTrip(TYPE_STRING, PutString(s), rest);
      StringRoundTrip(s, rest);
  }

  lemma TaggedRoundTrip(tag: UInt32, body: seq<Byte>, rest: seq<Byte>)
    ensures GetU32(PutU32(tag) + body + rest) == Got(tag, body + rest)
  {
    assert PutU32(tag) + body + rest == PutU32(tag) + (body + rest);
    U32RoundTrip(tag, body + rest);
  }

  lemma {:induction false} EachVariantRoundTrip(vs: seq<QVariant>, rest: seq<Byte>)
    requires forall v <- vs :: FitsVariant(v)
    ensures GetEachVariant(|vs|, PutEachVariant(vs) + rest) == Got(vs, rest)
    decreases vs, 0
  {
    hide PutVariant, GetVariant;
    if vs == [] {
      assert PutEachVariant(vs) + rest == rest;
    } else {
      var others := PutEachVariant(vs[1..]) + rest;
      Assoc(PutVariant(vs[0]), PutEachVariant(vs[1..]), rest);
      VariantRoundTrip(vs[0], others);
      EachVariantRoundTrip(vs[1..], rest);
      assert vs == [vs[0]] + vs[1..];
      if others == [] {
        assert vs[1..] == [] && rest == [];
        assert vs == [vs[0]];
      }
    }
  }

  lemma ArgumentsRoundTrip(vs: Arguments, rest: seq<Byte>)
    requires FitsArguments(vs)
    ensures GetArguments(PutArguments(vs) + rest) == Got(vs, rest)
  {
    TaggedRoundTrip(|vs|, PutEachVariant(vs), rest);
    EachVariantRoundTrip(vs, rest);
  }

  // ------------------------------------------------------ variant conversions

  /** QVariant::toInt, for the kinds modelled; text is not parsed. */
  function ToInt(v: QVariant): Int32 {
    match v
    case Bool(b) => if b then 1 else 0
    case Int(i) => i
    case UInt(u) => ToInt32(u)
    case _ => 0
  }

  /** QVariant::toUInt, likewise. */
  function ToUInt(v: QVariant): UInt32 {
    match v
    case Bool(b) => if b then 1 else 0
    case Int(i) => ToUInt32(i)
    case UInt(u) => u
    case _ => 0
  }

  /** QVariant::toString, for text; other kinds are not rendered. */
  function ToText(v: QVariant): QString {
    match v
    case Str(s) => s
    case _ => []
  }

  // ------------------------------------------------------------------ stream

  /** A QDataStream over a byte array: writes append, reads take from the front. */
  class Stream {
    var data: seq<Byte>

    constructor (data: seq<Byte>)
      ensures this.data == data
    {
      this.data := data;
    }

    method Write(b: seq<Byte>)
      modifies this
      ensures data == old(data) + b
    {
      data := data + b;
    }

    method ReadU32() returns (x: UInt32)
      modifies this
      ensures Got(x, data) == GetU32(old(data))
    {
      var g := GetU32(data);
      x, data := g.value, g.rest;
    }

    method ReadString() returns (s: QString)
      modifies this
      ensures Got(s, data) == GetString(old(data))
    {
      var n := ReadU32();
      if n == NULL_LENGTH || n % 2 == 1 {
        return [];
      }
      if n > |data| {
        data := [];
        return [];
      }
      s, data := GetUnits(data[..n]), data[n..];
    }

    method ReadVariant() returns (v: QVariant)
      modifies this
      ensures Got(v, data) == GetVariant(old(data))
    {
      var g := GetVariant(data);
      v, data := g.value, g.rest;
    }

    /** QVector's operator>>. */
    method ReadStrings() returns (ss: seq<QString>)
      modifies this
      ensures Got(ss, data) == GetStrings(old(data))
    {
      var n := ReadU32();
      ss := [];
      ghost var from := data;
      Prepending([], ss, GetEachString(n, from));
      for i := 0 to n
        invariant GetEachString(n, from) == Prepend(ss, GetEachString(n - i, data))
      {
        hide GetString, Prepend;
        var s := ReadString();
        Prepending(ss, [s], GetEachString(n - i - 1, data));
        ss := ss + [s];
      }
      Prepending(ss, [], Got([], data));
    }

    /** QList's operator>>. */
    method ReadArguments() returns (vs: Arguments)
      modifies this
      ensures Got(vs, data) == GetArguments(old(data))
    {
      var n := ReadU32();
      vs := [];
      ghost var from := data;
      Prepending([], vs, GetEachVariant(n, from));
      for i := 0 to n
        invariant GetEachVariant(n, from) == Prepend(vs, GetEachVariant(n - i, data))
      {
        hide GetVariant, Prepend;
        var v := ReadVariant();
        Prepending(vs, [v], GetEachVariant(n - i - 1, data));
        Prepending(vs, [v], Got([], data));
        vs := vs + [v];
        if data == [] {
          return;
        }
      }
      Prepending(vs, [], Got([], data));
    }
  }
}
