/** The QString operations the protocol relies on. */
module QStrings {
  import opened QtTypes

  const OPEN: QChar := 40
  const CLOSE: QChar := 41
  const COMMA: QChar := 44

  function Count(s: QString, c: QChar): nat {
    if s == [] then 0 else (if s[0] == c then 1 else 0) + Count(s[1..], c)
  }

  /** The first position of `c`, or -1. */
  function IndexOf(s: QString, c: QChar): (i: int)
    ensures -1 <= i < |s|
    ensures i == -1 ==> c !in s
    ensures i != -1 ==> s[i] == c && c !in s[..i]
  {
    if s == [] then -1
    else if s[0] == c then 0
    else
      var i := IndexOf(s[1..], c);
      assert s == [s[0]] + s[1..];
      if i == -1 then -1
      else
        assert s[..i + 1] == [s[0]] + s[1..][..i];
        i + 1
  }

  /** QChar::isSpace: white space and Unicode's separators. */
  predicate IsSpace(c: QChar) {
    || c == 0x20 || 0x09 <= c <= 0x0D || c == 0x85 || c == 0xA0
    || c == 0x1680 || 0x2000 <= c <= 0x200A || c == 0x2028 || c == 0x2029 || c == 0x202F || c == 0x205F || c == 0x3000
  }

  function TrimLeft(s: QString): QString {
    if s == [] || !IsSpace(s[0]) then s else TrimLeft(s[1..])
  }

  function TrimRight(s: QString): QString {
    if s == [] || !IsSpace(s[|s| - 1]) then s else TrimRight(s[..|s| - 1])
  }

  lemma {:induction false} TrimLeftShape(s: QString)
    ensures var t := TrimLeft(s);
      && |t| <= |s| && t == s[|s| - |t|..]
      && (t == [] || !IsSpace(t[0]))
  {
    if s != [] && IsSpace(s[0]) {
      TrimLeftShape(s[1..]);
    }
  }

  lemma {:induction false} TrimRightShape(s: QString)
    ensures var t := TrimRight(s);
      && |t| <= |s| && t == s[..|t|]
      && (t == [] || !IsSpace(t[|t| - 1]))
  {
    if s != [] && IsSpace(s[|s| - 1]) {
      TrimRightShape(s[..|s| - 1]);
    }
  }

  /** QString::trimmed. */
  function Trim(s: QString): QString {
    TrimRight(TrimLeft(s))
  }

  lemma TrimKeeps(s: QString, c: QChar)
    requires c in Trim(s)
    ensures c in s
  {
    TrimLeftShape(s);
    TrimRightShape(TrimLeft(s));
  }

  lemma TrimIdempotent(s: QString)
    ensures Trim(Trim(s)) == Trim(s)
  {
    var l := TrimLeft(s);
    var t := TrimRight(l);
    TrimLeftShape(s);
    TrimRightShape(l);
    if t != [] {
      assert t[0] == l[0];
    }
  }

  /** The pieces between the commas; an empty text has one empty piece. */
  function Split(s: QString): (pieces: seq<QString>)
    ensures pieces != []
  {
    if s == [] then [[]]
    else
      var pieces := Split(s[1..]);
      if s[0] == COMMA then [[]] + pieces
      else [[s[0]] + pieces[0]] + pieces[1..]
  }

  function Join(pieces: seq<QString>): QString {
    if pieces == [] then []
    else if |pieces| == 1 then pieces[0]
    else pieces[0] + [COMMA] + Join(pieces[1..])
  }

  lemma {:induction false} CountConcat(s: QString, t: QString, c: QChar)
    ensures Count(s + t, c) == Count(s, c) + Count(t, c)
  {
    if s == [] {
      assert s + t == t;
    } else {
      assert (s + t)[1..] == s[1..] + t;
      CountConcat(s[1..], t, c);
    }
  }

  lemma {:induction false} CountZero(s: QString, c: QChar)
    ensures Count(s, c) == 0 <==> c !in s
  {
    if s != [] {
      assert s == [s[0]] + s[1..];
      CountZero(s[1..], c);
    }
  }

  /** The only occurrence of `c` has none after it. */
  lemma AfterUnique(s: QString, i: nat, c: QChar)
    requires i < |s| && s[i] == c && Count(s, c) == 1
    ensures c !in s[i + 1..]
  {
    assert s == s[..i] + (s[i..i + 1] + s[i + 1..]);
    CountConcat(s[..i], s[i..i + 1] + s[i + 1..], c);
    CountConcat(s[i..i + 1], s[i + 1..], c);
    CountZero(s[i + 1..], c);
  }

  lemma {:induction false} SplitPiece(p: QString)
    requires COMMA !in p
    ensures Split(p) == [p]
  {
    if p != [] {
      assert p == [p[0]] + p[1..];
      SplitPiece(p[1..]);
    }
  }

  lemma {:induction false} SplitAfter(p: QString, s: QString)
    requires COMMA !in p
    ensures Split(p + [COMMA] + s) == [p] + Split(s)
  {
    var whole := p + [COMMA] + s;
    if p == [] {
      assert whole[1..] == s;
    } else {
      assert p == [p[0]] + p[1..];
      assert whole[1..] == p[1..] + [COMMA] + s;
      SplitAfter(p[1..], s);
    }
  }

  lemma {:induction false} SplitJoin(pieces: seq<QString>)
    requires pieces != []
    requires forall p <- pieces :: COMMA !in p
    ensures Split(Join(pieces)) == pieces
  {
    assert pieces == [pieces[0]] + pieces[1..];
    if |pieces| == 1 {
      SplitPiece(pieces[0]);
    } else {
      SplitAfter(pieces[0], Join(pieces[1..]));
      SplitJoin(pieces[1..]);
    }
  }

  lemma {:induction false} SplitPieces(s: QString)
    ensures forall p <- Split(s) :: COMMA !in p && forall c :: c in p ==> c in s
  {
    if s != [] {
      assert s == [s[0]] + s[1..];
      SplitPieces(s[1..]);
    }
  }

  lemma {:induction false} JoinPlain(pieces: seq<QString>, c: QChar)
    requires c != COMMA
    ensures c !in Join(pieces) <==> forall p <- pieces :: c !in p
  {
    if |pieces| == 1 {
      assert pieces == [pieces[0]];
    } else if pieces != [] {
      assert pieces == [pieces[0]] + pieces[1..];
      JoinPlain(pieces[1..], c);
    }
  }

  lemma JoinEmpty(pieces: seq<QString>)
    ensures Join(pieces) == [] <==> pieces == [] || pieces == [[]]
  {
    if |pieces| == 1 {
      assert pieces == [pieces[0]];
    }
  }

  // ------------------------------------------------------------ QString::arg

  const PERCENT: QChar := 37
  const LOCALE: QChar := 76

  /** The value of a digit, or -1. */
  function Digit(c: QChar): int {
    if 48 <= c <= 57 then c - 48 else -1
  }

  /** A place marker and its number, or one other character, numbered -1. */
  datatype Piece = Piece(text: QString, number: int)

  /** A place marker is a percent sign, perhaps an L, and one or two digits. */
  function FirstPiece(s: QString): (p: Piece)
    requires s != []
    ensures 1 <= |p.text| <= |s| && p.text == s[..|p.text|] && -1 <= p.number <= 99
  {
    var d := if |s| > 1 && s[1] == LOCALE then 2 else 1;
    if s[0] != PERCENT || |s| <= d || Digit(s[d]) == -1 then Piece(s[..1], -1)
    else if |s| > d + 1 && Digit(s[d + 1]) != -1 then Piece(s[..d + 2], 10 * Digit(s[d]) + Digit(s[d + 1]))
    else Piece(s[..d + 1], Digit(s[d]))
  }

  function Pieces(s: QString): (ps: seq<Piece>)
    ensures forall i :: 0 <= i < |ps| ==> -1 <= ps[i].number <= 99
    decreases |s|
  {
    if s == [] then [] else [FirstPiece(s)] + Pieces(s[|FirstPiece(s).text|..])
  }

  /** The lowest number of a place marker, or 100. */
  function Lowest(ps: seq<Piece>): (n: nat)
    ensures n <= 100
    ensures n < 100 ==> exists i :: 0 <= i < |ps| && ps[i].number == n
    ensures forall i :: 0 <= i < |ps| ==> !(0 <= ps[i].number < n)
  {
    if ps == [] then 100
    else if 0 <= ps[0].number < Lowest(ps[1..]) then ps[0].number
    else Lowest(ps[1..])
  }

  function Fill(ps: seq<Piece>, n: nat, text: QString): QString {
    if ps == [] then []
    else (if ps[0].number == n then text else ps[0].text) + Fill(ps[1..], n, text)
  }

  /** QString::arg: every place marker with the lowest number is replaced. */
  function Arg(s: QString, text: QString): QString {
    var ps := Pieces(s);
    if Lowest(ps) == 100 then s else Fill(ps, Lowest(ps), text)
  }

  /** Every place marker with this number reads like the text. */
  ghost predicate Reads(ps: seq<Piece>, n: nat, text: QString) {
    forall i :: 0 <= i < |ps| && ps[i].number == n ==> ps[i].text == text
  }

  lemma {:induction false} FillSame(s: QString, n: nat, text: QString)
    requires Reads(Pieces(s), n, text)
    ensures Fill(Pieces(s), n, text) == s
    decreases |s|
  {
    if s != [] {
      var p, ps := FirstPiece(s), Pieces(s);
      var rest := s[|p.text|..];
      assert ps[1..] == Pieces(rest) && ps[0] == p;
      FillSame(rest, n, text);
    }
  }

  /** No place marker reaches over an opening parenthesis. */
  lemma FirstConcat(a: QString, b: QString)
    requires a != [] && b != [] && b[0] == OPEN
    ensures FirstPiece(a + b) == FirstPiece(a)
  {
  }

  lemma DropConcat(a: QString, b: QString, k: nat)
    requires k <= |a|
    ensures (a + b)[k..] == a[k..] + b
  {
  }

  lemma {:induction false} PiecesConcat(a: QString, b: QString)
    requires b != [] && b[0] == OPEN
    ensures Pieces(a + b) == Pieces(a) + Pieces(b)
    decreases |a|
  {
    hide FirstPiece;
    if a == [] {
      assert a + b == b;
    } else {
      var p := FirstPiece(a);
      var k := |p.text|;
      FirstConcat(a, b);
      DropConcat(a, b, k);
      PiecesConcat(a[k..], b);
      assert [p] + (Pieces(a[k..]) + Pieces(b)) == [p] + Pieces(a[k..]) + Pieces(b);
    }
  }

  lemma {:induction false} FillConcat(a: seq<Piece>, b: seq<Piece>, n: nat, text: QString)
    ensures Fill(a + b, n, text) == Fill(a, n, text) + Fill(b, n, text)
  {
    if a == [] {
      assert a + b == b;
    } else {
      assert (a + b)[1..] == a[1..] + b;
      FillConcat(a[1..], b, n, text);
    }
  }

  lemma {:induction false} LowestConcat(a: seq<Piece>, b: seq<Piece>)
    ensures Lowest(a + b) == if Lowest(a) < Lowest(b) then Lowest(a) else Lowest(b)
  {
    if a == [] {
      assert a + b == b;
    } else {
      assert (a + b)[1..] == a[1..] + b;
      LowestConcat(a[1..], b);
    }
  }

  /** Without a percent sign there is no place marker. */
  lemma {:induction false} NoMarkers(s: QString)
    requires PERCENT !in s
    ensures Lowest(Pieces(s)) == 100
    decreases |s|
  {
    if s != [] {
      var p := FirstPiece(s);
      assert PERCENT !in s[|p.text|..];
      NoMarkers(s[|p.text|..]);
    }
  }

  // A text that filling in leaves as it was had the filling in every place already: the
  // places are all of one length, since all hold as many Ls and zeros as the filling.

  /** A number that adds up over the parts of a text. */
  ghost predicate Additive(w: QString -> nat) {
    forall a: QString, b: QString :: w(a + b) == w(a) + w(b)
  }

  ghost function Weight(ps: seq<Piece>, n: nat, w: QString -> nat): nat {
    if ps == [] then 0 else (if ps[0].number == n then w(ps[0].text) else 0) + Weight(ps[1..], n, w)
  }

  lemma {:induction false} FillWeight(s: QString, n: nat, text: QString, w: QString -> nat)
    requires Additive(w)
    ensures w(Fill(Pieces(s), n, text)) + Weight(Pieces(s), n, w) == w(s) + Weight(Pieces(s), n, _ => w(text))
    decreases |s|
  {
    if s != [] {
      var p, ps := FirstPiece(s), Pieces(s);
      var rest := s[|p.text|..];
      var first := if p.number == n then text else p.text;
      assert ps[1..] == Pieces(rest) && ps[0] == p && s == p.text + rest;
      FillWeight(rest, n, text, w);
      assert w(p.text + rest) == w(p.text) + w(rest);
      assert w(first + Fill(ps[1..], n, text)) == w(first) + w(Fill(ps[1..], n, text));
    }
  }

  /** Weights on one side of a number that add up to as many times the number are that number. */
  lemma {:induction false} Squeeze(ps: seq<Piece>, n: nat, w: QString -> nat, x: nat)
    ensures (forall i :: 0 <= i < |ps| && ps[i].number == n ==> w(ps[i].text) <= x) ==>
              && Weight(ps, n, w) <= Weight(ps, n, _ => x)
              && (Weight(ps, n, w) == Weight(ps, n, _ => x) ==>
                    forall i :: 0 <= i < |ps| && ps[i].number == n ==> w(ps[i].text) == x)
    ensures (forall i :: 0 <= i < |ps| && ps[i].number == n ==> w(ps[i].text) >= x) ==>
              && Weight(ps, n, w) >= Weight(ps, n, _ => x)
              && (Weight(ps, n, w) == Weight(ps, n, _ => x) ==>
                    forall i :: 0 <= i < |ps| && ps[i].number == n ==> w(ps[i].text) == x)
  {
    if ps != [] {
      Squeeze(ps[1..], n, w, x);
      assert forall i :: 0 < i < |ps| ==> ps[i] == ps[1..][i - 1];
      assert forall i :: 0 <= i < |ps| - 1 ==> ps[1..][i] == ps[i + 1];
    }
  }

  const ZERO: QChar := 48

  function Leading(n: nat): nat {
    if n == 0 then 1 else 0
  }

  /** What a place marker with a small number looks like. */
  ghost predicate MarkerShape(t: QString, n: nat) {
    && Count(t, LOCALE) <= 1
    && Leading(n) <= Count(t, ZERO) <= Leading(n) + 1
    && |t| == 2 + Count(t, LOCALE) + Count(t, ZERO) - Leading(n)
  }

  lemma CountText(t: QString, c: QChar)
    requires 2 <= |t| <= 4
    ensures Count(t, c) == (if t[0] == c then 1 else 0) + (if t[1] == c then 1 else 0)
              + (if |t| > 2 && t[2] == c then 1 else 0) + (if |t| > 3 && t[3] == c then 1 else 0)
  {
    CountRest(t, 0, c);
    CountRest(t, 1, c);
    if |t| > 2 {
      CountRest(t, 2, c);
    }
    if |t| > 3 {
      CountRest(t, 3, c);
    }
  }

  lemma CountRest(t: QString, i: nat, c: QChar)
    requires i < |t|
    ensures Count(t[i..], c) == (if t[i] == c then 1 else 0) + Count(t[i + 1..], c)
    ensures t[0..] == t && t[|t|..] == []
  {
    assert t[i..][0] == t[i] && t[i..][1..] == t[i + 1..];
  }

  lemma FirstShape(s: QString)
    requires s != [] && 0 <= FirstPiece(s).number < 10
    ensures MarkerShape(FirstPiece(s).text, FirstPiece(s).number)
  {
    var t := FirstPiece(s).text;
    CountText(t, LOCALE);
    CountText(t, ZERO);
    hide Count;
  }

  lemma {:induction false} Shapes(s: QString, n: nat)
    requires n < 10
    ensures var ps := Pieces(s);
      forall i :: 0 <= i < |ps| && ps[i].number == n ==> MarkerShape(ps[i].text, n)
    decreases |s|
  {
    if s != [] {
      hide MarkerShape, FirstPiece;
      var rest := s[|FirstPiece(s).text|..];
      Shapes(rest, n);
      if FirstPiece(s).number == n {
        FirstShape(s);
      }
      var ps := Pieces(s);
      assert forall i :: 1 <= i < |ps| ==> ps[i] == Pieces(rest)[i - 1];
    }
  }

  lemma {:induction false} FillAligned(s: QString, n: nat, text: QString)
    requires Fill(Pieces(s), n, text) == s
    requires forall i :: 0 <= i < |Pieces(s)| && Pieces(s)[i].number == n ==> |Pieces(s)[i].text| == |text|
    ensures Reads(Pieces(s), n, text)
    decreases |s|
  {
    if s != [] {
      var p, ps := FirstPiece(s), Pieces(s);
      var rest, k := s[|p.text|..], |p.text|;
      var first := if p.number == n then text else p.text;
      assert ps[0] == p && ps[1..] == Pieces(rest);
      assert forall i :: 0 <= i < |Pieces(rest)| ==> Pieces(rest)[i] == ps[i + 1];
      assert s == first + Fill(Pieces(rest), n, text);
      assert s[..k] == first && s[k..] == Fill(Pieces(rest), n, text);
      FillAligned(rest, n, text);
    }
  }

  /** Filling in changes nothing exactly when it was there in every place. */
  lemma FillFixedExactly(s: QString, n: nat, text: QString)
    requires n < 10
    ensures Fill(Pieces(s), n, text) == s <==> Reads(Pieces(s), n, text)
  {
    hide Fill, Pieces, Count;
    if Reads(Pieces(s), n, text) {
      FillSame(s, n, text);
    }
    if Fill(Pieces(s), n, text) == s {
      SameLength(s, n, text);
      FillAligned(s, n, text);
    }
  }

  lemma SameLength(s: QString, n: nat, text: QString)
    requires n < 10 && Fill(Pieces(s), n, text) == s
    ensures forall i :: 0 <= i < |Pieces(s)| && Pieces(s)[i].number == n ==> |Pieces(s)[i].text| == |text|
  {
    hide Fill, Pieces, Count;
    var ps := Pieces(s);
    Shapes(s, n);
    SameCount(s, n, text, LOCALE, 0);
    SameCount(s, n, text, ZERO, Leading(n));
    var length := 2 + Count(text, LOCALE) + Count(text, ZERO) - Leading(n);
    assert forall i :: 0 <= i < |ps| && ps[i].number == n ==> |ps[i].text| == length;
    var size := (t: QString) => |t|;
    assert Additive(size);
    FillWeight(s, n, text, size);
    Squeeze(ps, n, size, |text|);
  }

  lemma SameCount(s: QString, n: nat, text: QString, c: QChar, low: nat)
    requires Fill(Pieces(s), n, text) == s
    requires forall i :: 0 <= i < |Pieces(s)| && Pieces(s)[i].number == n ==> low <= Count(Pieces(s)[i].text, c) <= low + 1
    ensures forall i :: 0 <= i < |Pieces(s)| && Pieces(s)[i].number == n ==> Count(Pieces(s)[i].text, c) == Count(text, c)
  {
    var ps := Pieces(s);
    var count := (t: QString) => Count(t, c);
    forall a: QString, b: QString ensures count(a + b) == count(a) + count(b) {
      CountConcat(a, b, c);
    }
    hide Pieces, Fill, Count;
    FillWeight(s, n, text, count);
    Squeeze(ps, n, count, Count(text, c));
  }
}
