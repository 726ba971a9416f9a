/** The names and texts of the messages the two devices exchange between themselves. */
module Protocol {
  import opened QtTypes
  import opened QStrings
  import opened DataStream
  import opened ReturnValues
  import opened Signatures
  import opened Messages
  import opened MessageWire

  const WELCOME := Sig(Q("welcome"), [Q("quint32")])
  const SET_VERSION := Sig(Q("setProtocolVersion"), [Q("quint32")])
  const ERROR_MESSAGE := Sig(Q("error"), [Q("int"), Q("QString")])
  const STATE_CHANGED := Sig(Q("stateChanged"), [Q("int")])
  const READY_MESSAGE := Sig(Q("ready"), [Q("QVariant")])
  const SELECT_SERVICE := Sig(Q("selectService"), [Q("QString"), Q("QString"), Q("QString")])

  // Server states.
  const CONNECTING := 0
  const SERVICE_STATE := 1
  const READY := 2

  /** A message of the protocol itself, as callProtocolFunction sends it. */
  function ProtocolCall(func: Sig, args: Arguments): Msg {
    Call(0, QTRPC, func, args, 0)
  }

  function ErrorCall(level: Int32, text: QString): Msg {
    ProtocolCall(ERROR_MESSAGE, [Int(level), Str(text)])
  }

  function VersionCall(version: UInt32): Msg {
    ProtocolCall(SET_VERSION, [UInt(version)])
  }

  function Min(a: UInt32, b: UInt32): UInt32 {
    if b < a then b else a
  }

  /** The messages that negotiate the version; the client trims the name, the server does not. */
  predicate IsNegotiation(kind: UInt32, func: Sig) {
    kind == QTRPC && (Trim(func.name) == WELCOME.name || Trim(func.name) == SET_VERSION.name)
  }

  /** A message that negotiates, as it is or as the original format prints it. */
  predicate Negotiates(m: Msg) {
    IsNegotiation(m.kind, m.func) || IsNegotiation(m.kind, FromString(ToString(m.func)))
  }

  predicate NamesStateChange(func: Sig) {
    Trim(func.name) == STATE_CHANGED.name
  }

  /** A message the client takes for a change of state, as it is or as the original format prints it. */
  predicate IsStateChange(m: Msg) {
    m.kind == QTRPC && m.args != [] && (NamesStateChange(m.func) || NamesStateChange(FromString(ToString(m.func))))
  }

  /** Neither trimmed away nor mistaken for a negotiation message. */
  ghost predicate OrdinaryName(name: QString) {
    Trim(name) == name && |name| != |WELCOME.name| && |name| != |SET_VERSION.name| && PERCENT !in name
  }

  /** A name without place markers is read back as it is or as nothing. */
  lemma PlainNameKept(m: Msg)
    requires Lowest(Pieces(m.func.name)) > 2
    ensures Negotiates(m) <==> IsNegotiation(m.kind, m.func)
  {
    hide ToString, FromString, Pieces, Trim;
    ReadBackName(m.func);
    NegotiationNames();
    assert Trim([]) == [] by { EmptyTrim(); }
  }

  lemma EmptyTrim()
    ensures Trim([]) == []
  {
  }

  lemma OrdinaryIsNot(m: Msg)
    requires OrdinaryName(m.func.name)
    ensures !Negotiates(m)
  {
    NegotiationNames();
    NoMarkers(m.func.name);
    hide Pieces, WELCOME, SET_VERSION;
    PlainNameKept(m);
  }

  /** With a place marker for a name, a message can become a request for a version on the way:
      the condition on what is sent is about the printed name too. */
  lemma DisguisedRequest(id: UInt32, args: Arguments)
    ensures var m := Call(id, QTRPC, Sig([PERCENT, TWO], [SET_VERSION.name]), args, 0);
      && !IsNegotiation(m.kind, m.func)
      && OnWire(m).func == Sig(SET_VERSION.name, [SET_VERSION.name]) && IsNegotiation(QTRPC, OnWire(m).func)
  {
    var sig := Sig([PERCENT, TWO], [SET_VERSION.name]);
    NegotiationNames();
    UntrimmedName(sig.name);
    NameIsPlain();
    hide ToString, FromString, Trim, PlainArg, SET_VERSION, WELCOME;
    PlaceMarkerTakesArgument(SET_VERSION.name);
    assert OnWire(Call(id, QTRPC, sig, args, 0)).func == FromString(ToString(sig));
  }

  lemma NameIsPlain()
    ensures PlainArg(SET_VERSION.name)
  {
    hide Trim, Q;
    UntrimmedName(SET_VERSION.name);
  }

  lemma UntrimmedName(s: QString)
    requires s != [] && !IsSpace(s[0]) && !IsSpace(s[|s| - 1])
    ensures Trim(s) == s
  {
  }

  lemma NegotiationNames()
    ensures Trim(WELCOME.name) == WELCOME.name && |WELCOME.name| == 7 && PERCENT !in WELCOME.name
    ensures Trim(SET_VERSION.name) == SET_VERSION.name && |SET_VERSION.name| == 18 && PERCENT !in SET_VERSION.name
  {
    hide Trim, Q;
    UntrimmedName(WELCOME.name);
    UntrimmedName(SET_VERSION.name);
  }

  lemma OrdinaryNames()
    ensures OrdinaryName(ERROR_MESSAGE.name) && |ERROR_MESSAGE.name| == 5
    ensures OrdinaryName(STATE_CHANGED.name) && |STATE_CHANGED.name| == 12
    ensures OrdinaryName(READY_MESSAGE.name) && |READY_MESSAGE.name| == 5
    ensures OrdinaryName(SELECT_SERVICE.name) && |SELECT_SERVICE.name| == 13
  {
    hide Trim, Q;
    UntrimmedName(ERROR_MESSAGE.name);
    UntrimmedName(STATE_CHANGED.name);
    UntrimmedName(READY_MESSAGE.name);
    UntrimmedName(SELECT_SERVICE.name);
  }

  lemma VersionWritable(v: UInt32, version: UInt32)
    ensures Writable(VersionCall(v).(version := version))
  {
    hide Writable;
    BriefWritable(VersionCall(v).(version := version));
  }

  /** The two negotiation messages keep their signatures in the original format. */
  lemma NegotiationTexts()
    ensures FromString(ToString(WELCOME)) == WELCOME
    ensures FromString(ToString(SET_VERSION)) == SET_VERSION
  {
    hide ToString, FromString, Trim, Pieces, Canonical;
    NegotiationCanonical(WELCOME);
    NegotiationCanonical(SET_VERSION);
    KeepsText(WELCOME);
    KeepsText(SET_VERSION);
  }

  lemma NegotiationCanonical(sig: Sig)
    requires sig == WELCOME || sig == SET_VERSION
    ensures Canonical(sig)
  {
    hide Trim, Pieces, Q, WELCOME, SET_VERSION;
    NegotiationNames();
    NoMarkers(sig.name);
    NegotiationArgument();
    NoParentheses();
    assert sig.args == [Q("quint32")] by { NegotiationShapes(); }
  }

  lemma NegotiationShapes()
    ensures WELCOME.args == [Q("quint32")] && SET_VERSION.args == [Q("quint32")]
  {
    hide Q;
  }

  lemma NoParentheses()
    ensures OPEN !in WELCOME.name && CLOSE !in WELCOME.name
    ensures OPEN !in SET_VERSION.name && CLOSE !in SET_VERSION.name
  {
  }

  lemma NegotiationArgument()
    ensures PlainArg(Q("quint32")) && Q("quint32") != []
  {
    hide Trim;
    UntrimmedName(Q("quint32"));
  }
}
