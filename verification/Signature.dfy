/** lib/signature.cpp: a function signature, its text and the parser of that text. */
module Signatures {
  import opened QtTypes
  import opened QStrings

  datatype Sig = Sig(name: QString, args: seq<QString>)

  const EMPTY: Sig := Sig([], [])

  // -------------------------------------------------------- text of a signature

  /** "%1(%2)" with the name filled in, and then the arguments: if the name has place markers of
      its own, the second filling may go there. */
  function ToString(sig: Sig): QString {
    Arg(sig.name + TAIL, Join(sig.args))
  }

  const ONE: QChar := 49
  const TWO: QChar := 50
  const TEMPLATE: QString := [PERCENT, ONE, OPEN, PERCENT, TWO, CLOSE]
  const TAIL: QString := [OPEN, PERCENT, TWO, CLOSE]

  predicate Accepts(s: QString) {
    && Count(s, OPEN) == 1
    && Count(s, CLOSE) == 1
    && 1 <= IndexOf(s, OPEN)
    && IndexOf(s, CLOSE) == |s| - 1
  }

  function TrimEach(pieces: seq<QString>): (t: seq<QString>)
    ensures |t| == |pieces|
    ensures forall i :: 0 <= i < |t| ==> t[i] == Trim(pieces[i])
  {
    seq(|pieces|, i requires 0 <= i < |pieces| => Trim(pieces[i]))
  }

  function ParseArgs(text: QString): seq<QString> {
    if text == [] then [] else TrimEach(Split(text))
  }

  function Parsed(s: QString): Sig
    requires Accepts(s)
  {
    AcceptedShape(s);
    var i := IndexOf(s, OPEN);
    Sig(s[..i], ParseArgs(s[i + 1..|s| - 1]))
  }

  /** The constructor from a string: a refused text leaves the signature empty. */
  function FromString(s: QString): Sig {
    if Accepts(s) then Parsed(s) else EMPTY
  }

  /** No place marker of the name takes the arguments, unless it reads just like them. */
  ghost predicate Unmarked(sig: Sig) {
    var ps := Pieces(sig.name);
    Lowest(ps) > 2 || (Lowest(ps) == 2 && Reads(ps, 2, Join(sig.args)))
  }

  /** The signatures the text form can carry. */
  ghost predicate Canonical(sig: Sig) {
    && sig.name != [] && OPEN !in sig.name && CLOSE !in sig.name
    && sig.args != [[]]
    && (forall a <- sig.args :: PlainArg(a))
    && Unmarked(sig)
  }

  ghost predicate PlainArg(a: QString) {
    Trim(a) == a && COMMA !in a && OPEN !in a && CLOSE !in a
  }

  // ------------------------------------------------------------------- proofs

  /** An accepted text is a name, the arguments in one pair of parentheses, and nothing else. */
  lemma AcceptedShape(s: QString)
    requires Accepts(s)
    ensures var i := IndexOf(s, OPEN);
      && 1 <= i < |s| - 1
      && s == s[..i] + [OPEN] + s[i + 1..|s| - 1] + [CLOSE]
      && OPEN !in s[..i] && CLOSE !in s[..i]
      && OPEN !in s[i + 1..|s| - 1] && CLOSE !in s[i + 1..|s| - 1]
  {
    var i, last := IndexOf(s, OPEN), |s| - 1;
    AcceptedEnds(s);
    hide Accepts, IndexOf, Count;
    Decompose(s, i, last);
    Within(s, 0, i, 0, last, CLOSE);
    Within(s, i + 1, last, 0, last, CLOSE);
    Within(s, i + 1, last, i + 1, |s|, OPEN);
    assert s[..i] == s[0..i] && s[..last] == s[0..last] && s[..last + 1] == s;
  }

  lemma AcceptedEnds(s: QString)
    requires Accepts(s)
    ensures var i, last := IndexOf(s, OPEN), |s| - 1;
      && 1 <= i < last && s[i] == OPEN && s[last] == CLOSE
      && OPEN !in s[..i] && CLOSE !in s[..last] && OPEN !in s[i + 1..]
  {
    AfterUnique(s, IndexOf(s, OPEN), OPEN);
    hide Count;
    assert s[IndexOf(s, OPEN)] == OPEN;
  }

  lemma Decompose(s: QString, i: nat, last: nat)
    requires i < last < |s|
    ensures s[..last + 1] == s[..i] + [s[i]] + s[i + 1..last] + [s[last]]
  {
  }

  lemma Within(s: QString, a: nat, b: nat, lo: nat, hi: nat, c: QChar)
    requires lo <= a <= b <= hi <= |s|
    ensures c in s[a..b] ==> c in s[lo..hi]
  {
    if c in s[a..b] {
      var k :| 0 <= k < b - a && s[a..b][k] == c;
      assert s[lo..hi][a + k - lo] == c;
    }
  }

  lemma ShapeAccepted(name: QString, text: QString)
    requires name != [] && OPEN !in name && CLOSE !in name
    requires OPEN !in text && CLOSE !in text
    ensures var s := name + [OPEN] + text + [CLOSE];
      Accepts(s) && Parsed(s) == Sig(name, ParseArgs(text))
  {
    var s := name + [OPEN] + text + [CLOSE];
    forall c | c == OPEN || c == CLOSE
      ensures Count(s, c) == 1
    {
      CountConcat(name + [OPEN] + text, [CLOSE], c);
      CountConcat(name + [OPEN], text, c);
      CountConcat(name, [OPEN], c);
      CountZero(name, c);
      CountZero(text, c);
    }
    var i := IndexOf(s, OPEN);
    assert s[|name|] == OPEN && forall k :: 0 <= k < |name| ==> s[k] == name[k];
    assert i == |name|;
    var j := IndexOf(s, CLOSE);
    var body := name + [OPEN] + text;
    assert forall k :: 0 <= k < |body| ==> s[k] == body[k];
    assert j == |s| - 1;
    assert s[..i] == name && s[i + 1..|s| - 1] == text;
  }

  /** Arguments read back from a text without parentheses are plain. */
  lemma ParsedArgsPlain(text: QString)
    requires OPEN !in text && CLOSE !in text
    ensures forall a <- ParseArgs(text) :: PlainArg(a)
  {
    if text != [] {
      SplitPieces(text);
      var pieces := Split(text);
      forall a | a in ParseArgs(text)
        ensures PlainArg(a)
      {
        var i :| 0 <= i < |pieces| && a == Trim(pieces[i]);
        assert pieces[i] in pieces;
        TrimIdempotent(pieces[i]);
        forall c | c in a ensures c in pieces[i] {
          TrimKeeps(pieces[i], c);
        }
      }
    }
  }

  lemma CanonicalArgs(args: seq<QString>)
    requires args != [[]] && forall a <- args :: PlainArg(a)
    ensures ParseArgs(Join(args)) == args
  {
    hide Join, Split, Trim;
    JoinEmpty(args);
    if args != [] {
      SplitJoin(args);
      assert forall i :: 0 <= i < |args| ==> PlainArg(args[i]);
      assert TrimEach(args) == args;
    }
  }

  /** The name as it is printed. */
  function PrintedName(sig: Sig): QString {
    var ps := Pieces(sig.name);
    if Lowest(ps) > 2 then sig.name else Fill(ps, Lowest(ps), Join(sig.args))
  }

  lemma TailPieces()
    ensures Pieces(TAIL) == [Piece([OPEN], -1), Piece([PERCENT, TWO], 2), Piece([CLOSE], -1)]
    ensures Lowest(Pieces(TAIL)) == 2
  {
    assert TAIL[1..] == [PERCENT, TWO, CLOSE] && TAIL[1..][2..] == [CLOSE];
    assert FirstPiece(TAIL) == Piece([OPEN], -1);
    assert FirstPiece(TAIL[1..]) == Piece([PERCENT, TWO], 2);
    assert FirstPiece([CLOSE]) == Piece([CLOSE], -1) && [CLOSE][1..] == [];
    assert Pieces([CLOSE]) == [Piece([CLOSE], -1)];
    assert Pieces(TAIL[1..]) == [Piece([PERCENT, TWO], 2)] + Pieces([CLOSE]);
  }

  lemma TailFilled(n: nat, text: QString)
    ensures Fill(Pieces(TAIL), n, text) == if n == 2 then [OPEN] + text + [CLOSE] else TAIL
  {
    TailPieces();
    var ps := Pieces(TAIL);
    assert ps[1..] == [Piece([PERCENT, TWO], 2), Piece([CLOSE], -1)] && ps[1..][1..] == [Piece([CLOSE], -1)];
    assert ps[1..][1..][1..] == [];
    hide Pieces;
    assert Fill(ps[1..][1..], n, text) == [CLOSE];
  }

  lemma TemplateFilled(name: QString)
    ensures Arg(TEMPLATE, name) == name + TAIL
  {
    var mark := Piece([PERCENT, ONE], 1);
    assert FirstPiece(TEMPLATE) == mark && TEMPLATE[2..] == TAIL;
    assert Pieces(TEMPLATE) == [mark] + Pieces(TAIL);
    TailPieces();
    TailFilled(1, name);
    hide Pieces;
    assert ([mark] + Pieces(TAIL))[1..] == Pieces(TAIL);
  }

  /** Both fillings, as they are made. */
  lemma TwoFillings(sig: Sig)
    ensures ToString(sig) == Arg(Arg(TEMPLATE, sig.name), Join(sig.args))
  {
    TemplateFilled(sig.name);
    hide Arg;
  }

  /** What printing gives: the arguments go into the lowest place markers, wherever they are. */
  lemma Printed(sig: Sig)
    ensures ToString(sig) == PrintedName(sig) +
      if Lowest(Pieces(sig.name)) < 2 then TAIL else [OPEN] + Join(sig.args) + [CLOSE]
  {
    var ps, join := Pieces(sig.name), Join(sig.args);
    PiecesConcat(sig.name, TAIL);
    TailPieces();
    hide Pieces, TAIL, Arg;
    LowestConcat(ps, Pieces(TAIL));
    var n := Lowest(ps + Pieces(TAIL));
    assert Arg(sig.name + TAIL, join) == Fill(ps + Pieces(TAIL), n, join) by {
      ArgFills(sig.name + TAIL, join);
    }
    FillConcat(ps, Pieces(TAIL), n, join);
    TailFilled(n, join);
    if n < Lowest(ps) {
      FillSame(sig.name, n, join);
    }
  }

  lemma ArgFills(s: QString, text: QString)
    ensures Lowest(Pieces(s)) < 100 ==> Arg(s, text) == Fill(Pieces(s), Lowest(Pieces(s)), text)
  {
  }

  /** The round trip through text holds exactly for the canonical signatures. */
  lemma RoundTripExactly(sig: Sig)
    ensures Accepts(ToString(sig)) && Parsed(ToString(sig)) == sig <==> Canonical(sig)
  {
    Printed(sig);
    if Canonical(sig) {
      CanonicalSurvives(sig);
    }
    if Accepts(ToString(sig)) && Parsed(ToString(sig)) == sig {
      SurvivorCanonical(sig);
    }
  }

  lemma CanonicalSurvives(sig: Sig)
    requires Canonical(sig)
    ensures Accepts(ToString(sig)) && Parsed(ToString(sig)) == sig
  {
    CanonicalPrinted(sig);
    PlainJoin(sig.args);
    CanonicalArgs(sig.args);
    hide ToString, Accepts, Parsed, ParseArgs, Join, Unmarked;
    ShapeAccepted(sig.name, Join(sig.args));
  }

  lemma CanonicalPrinted(sig: Sig)
    requires Unmarked(sig)
    ensures ToString(sig) == sig.name + [OPEN] + Join(sig.args) + [CLOSE]
  {
    hide ToString, Pieces, Fill, Join;
    Printed(sig);
    if Lowest(Pieces(sig.name)) == 2 {
      FillFixedExactly(sig.name, 2, Join(sig.args));
    }
    assert sig.name + ([OPEN] + Join(sig.args) + [CLOSE]) == sig.name + [OPEN] + Join(sig.args) + [CLOSE];
  }

  lemma PlainJoin(args: seq<QString>)
    requires forall a <- args :: PlainArg(a)
    ensures OPEN !in Join(args) && CLOSE !in Join(args)
  {
    hide Join, Trim;
    JoinPlain(args, OPEN);
    JoinPlain(args, CLOSE);
  }

  /** A printed text that is accepted is taken apart where it was put together. */
  lemma TakenApart(name: QString, text: QString)
    requires Accepts(name + [OPEN] + text + [CLOSE])
    ensures Parsed(name + [OPEN] + text + [CLOSE]) == Sig(name, ParseArgs(text))
    ensures name != [] && OPEN !in name && CLOSE !in name && OPEN !in text && CLOSE !in text
  {
    hide Count, ParseArgs;
    var s := name + [OPEN] + text + [CLOSE];
    AcceptedShape(s);
    var i := IndexOf(s, OPEN);
    AfterUnique(s, i, OPEN);
    assert s[|name|] == OPEN;
    assert forall k :: i < k < |s| ==> s[k] in s[i + 1..];
    assert s[..i] == name && s[i + 1..|s| - 1] == text;
  }

  lemma SurvivorCanonical(sig: Sig)
    requires Accepts(ToString(sig)) && Parsed(ToString(sig)) == sig
    ensures Canonical(sig)
  {
    hide ToString, Pieces, Fill, Accepts, Parsed, Join, Split, Trim;
    var n, name := Lowest(Pieces(sig.name)), PrintedName(sig);
    var text := if n < 2 then [PERCENT, TWO] else Join(sig.args);
    Printed(sig);
    assert ToString(sig) == name + [OPEN] + text + [CLOSE];
    TakenApart(name, text);
    ParsedArgsPlain(text);
    JoinEmpty(sig.args);
    if n <= 2 {
      FillFixedExactly(sig.name, n, Join(sig.args));
      if n < 2 {
        TailText();
        LowMarkerIsNot(sig.name, n);
      }
    }
  }

  lemma TailText()
    ensures ParseArgs([PERCENT, TWO]) == [[PERCENT, TWO]]
    ensures Join([[PERCENT, TWO]]) == [PERCENT, TWO]
  {
    SplitPiece([PERCENT, TWO]);
    assert TrimEach([[PERCENT, TWO]]) == [[PERCENT, TWO]];
  }

  lemma {:induction false} LowMarkerIsNot(name: QString, n: nat)
    requires n < 2 && Reads(Pieces(name), n, [PERCENT, TWO])
    ensures Lowest(Pieces(name)) != n
  {
    forall i | 0 <= i < |Pieces(name)| && Pieces(name)[i].text == [PERCENT, TWO] ensures Pieces(name)[i].number == 2 {
      NumberTwo(name, i);
    }
  }

  lemma {:induction false} NumberTwo(s: QString, i: nat)
    requires i < |Pieces(s)| && Pieces(s)[i].text == [PERCENT, TWO]
    ensures Pieces(s)[i].number == 2
    decreases |s|
  {
    var p := FirstPiece(s);
    if i == 0 {
      assert s[..2] == [PERCENT, TWO];
      assert s[0] == PERCENT && s[1] == TWO;
    } else {
      NumberTwo(s[|p.text|..], i - 1);
    }
  }

  lemma KeepsText(sig: Sig)
    requires Canonical(sig)
    ensures FromString(ToString(sig)) == sig
  {
    RoundTripExactly(sig);
  }

  /** Parsing, printing and parsing again changes nothing exactly when the text did not hold a
      single blank argument, which printing loses, and no place marker of the name takes the
      arguments. */
  lemma ReparseExactly(s: QString)
    requires Accepts(s)
    ensures var p := Parsed(s);
      && (Accepts(ToString(p)) && Parsed(ToString(p)) == p <==> p.args != [[]] && Unmarked(p))
      && (p.args == [[]] && Lowest(Pieces(p.name)) > 2 ==> FromString(ToString(p)) == p.(args := []))
  {
    hide ToString, Pieces, Unmarked;
    var p := Parsed(s);
    AcceptedShape(s);
    var i := IndexOf(s, OPEN);
    ParsedArgsPlain(s[i + 1..|s| - 1]);
    RoundTripExactly(p);
    if p.args == [[]] && Lowest(Pieces(p.name)) > 2 {
      Printed(p);
      ShapeAccepted(p.name, []);
      assert p.name + ([OPEN] + [] + [CLOSE]) == p.name + [OPEN] + [] + [CLOSE];
    }
  }

  /** Even for a signature that does not survive, the name read back is the name as it was
      printed, or nothing; and a name is printed as it is unless a place marker takes the
      arguments. */
  lemma ReadBackName(sig: Sig)
    ensures FromString(ToString(sig)).name in [PrintedName(sig), []]
    ensures Lowest(Pieces(sig.name)) > 2 ==> PrintedName(sig) == sig.name
    ensures sig == EMPTY ==> FromString(ToString(sig)) == EMPTY
  {
    hide ToString, Pieces, Accepts, Parsed;
    Printed(sig);
    var low := Lowest(Pieces(sig.name)) < 2;
    var name, text := PrintedName(sig), if low then [PERCENT, TWO] else Join(sig.args);
    assert ToString(sig) == name + [OPEN] + text + [CLOSE];
    if Accepts(ToString(sig)) {
      TakenApart(name, text);
      assert sig != EMPTY by { EmptyPrinted(); }
    }
  }

  lemma EmptyPrinted()
    ensures PrintedName(EMPTY) == []
  {
  }

  /** The input on which the name does change: printing gives it the argument's text. */
  lemma PlaceMarkerTakesArgument(a: QString)
    requires a != [] && PlainArg(a)
    ensures FromString(ToString(Sig([PERCENT, TWO], [a]))) == Sig(a, [a])
  {
    hide ToString, Join, Trim, Split, Accepts, Parsed;
    var sig := Sig([PERCENT, TWO], [a]);
    MarkPieces();
    JoinOne(a);
    Printed(sig);
    hide Pieces, Fill;
    SplitPiece(a);
    ShapeAccepted(a, a);
    assert TrimEach([a]) == [a];
    assert a + ([OPEN] + a + [CLOSE]) == a + [OPEN] + a + [CLOSE];
  }

  lemma MarkPieces()
    ensures Lowest(Pieces([PERCENT, TWO])) == 2
    ensures forall text :: Fill(Pieces([PERCENT, TWO]), 2, text) == text
  {
    var mark := Piece([PERCENT, TWO], 2);
    assert FirstPiece([PERCENT, TWO]) == mark && [PERCENT, TWO][2..] == [];
    assert Pieces([PERCENT, TWO]) == [mark] && [mark][1..] == [];
    forall text ensures Fill([mark], 2, text) == text {
      assert text + [] == text;
    }
  }

  lemma JoinOne(a: QString)
    ensures Join([a]) == a
  {
  }

  // -------------------------------------------------------- the class

  class Signature {
    var name: QString
    var args: seq<QString>

    function Value(): Sig
      reads this
    {
      Sig(name, args)
    }

    constructor ()
      ensures Value() == EMPTY
    {
      name, args := [], [];
    }

    constructor FromText(sig: QString)
      ensures Value() == FromString(sig)
    {
      name, args := [], [];
      new;
      var _ := Parse(sig);
    }

    /** A refused text still clears the arguments; the name stays. */
    method Parse(sig: QString) returns (ok: bool)
      modifies this
      ensures ok <==> Accepts(sig)
      ensures ok ==> Value() == Parsed(sig)
      ensures !ok ==> Value() == Sig(old(name), [])
    {
      hide Count, Trim, Split;
      args := [];
      if Count(sig, OPEN) != 1 {
        return false;
      }
      if Count(sig, CLOSE) != 1 {
        return false;
      }
      var index := IndexOf(sig, OPEN);
      var index2 := IndexOf(sig, CLOSE);
      if index < 1 || index2 != |sig| - 1 {
        return false;
      }
      AcceptedShape(sig);
      name := sig[..index];
      var text := sig[index + 1..index2];
      if text == [] {
        return true;
      }
      var tmp := Split(text);
      for i := 0 to |tmp|
        invariant name == sig[..index]
        invariant args == TrimEach(tmp)[..i]
      {
        args := args + [Trim(tmp[i])];
      }
      return true;
    }
  }
}
