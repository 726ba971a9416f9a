/** From a call to its answer and back: what a caller is told is what the service layer answered to
    its own call, over both devices and the bytes between them. */
module EndToEnd {
  import opened QtTypes
  import opened ReturnValues
  import opened Signatures
  import opened Messages
  import opened Framing
  import opened MessageWire
  import opened Protocol
  import opened Negotiation
  import opened ServerAnswers
  import opened ClientSignals
  import S = ServerDevice
  import C = ClientDevice
  import B = MessageBus

  // ------------------------------------------------------------------- runs

  lemma {:induction false} DrainAccounts(env: S.Layer, s: S.Server, pending: seq<Byte>)
    requires Accounted(env, s)
    ensures Accounted(env, S.Drain(env, s, pending))
    decreases |pending|
  {
    hide HasFrame, FirstFrame, AfterFrame, S.Receive, Accounted;
    if HasFrame(pending) {
      ReceiveAccounts(env, s, FirstFrame(pending));
      DrainAccounts(env, S.Receive(env, s, FirstFrame(pending)), AfterFrame(pending));
    }
  }

  lemma {:induction false} DrainTells(cfg: C.Config, c: C.Client, pending: seq<Byte>)
    requires Told(cfg, c)
    ensures Told(cfg, C.Drain(cfg, c, pending))
    decreases |pending|
  {
    hide HasFrame, FirstFrame, AfterFrame, C.Receive, Told;
    if HasFrame(pending) {
      ReceiveTells(cfg, c, FirstFrame(pending));
      DrainTells(cfg, C.Receive(cfg, c, FirstFrame(pending)), AfterFrame(pending));
    }
  }

  ghost predicate BothTell(x: Setup, z: Sys) {
    Accounted(x.env, z.server) && Told(x.cfg, z.client)
  }

  lemma NextTells(x: Setup, z: Sys, step: Step)
    requires BothTell(x, z) && Enabled(z, step)
    ensures BothTell(x, Next(x, z, step))
  {
    hide Accounted, Told, S.Drain, C.Drain, ServerCatchUp, ClientCatchUp, S.Volunteer, S.Move, C.Write, NewBytes;
    match step
    case ServerReads(n) =>
      var y := z.(serverPending := z.serverPending + z.toServer[..n], toServer := z.toServer[n..]);
      ServerCatchUpIsDrain(x, y);
      CatchUpsApart(x, y);
      DrainAccounts(x.env, z.server, y.serverPending);
    case ClientReads(n) =>
      var y := z.(clientPending := z.clientPending + z.toClient[..n], toClient := z.toClient[n..]);
      ClientCatchUpIsDrain(x, y);
      CatchUpsApart(x, y);
      DrainTells(x.cfg, z.client, y.clientPending);
    case ServerSends(m) => VolunteerAccounts(x.env, z.server, m);
    case ClientSends(m) => WriteTells(x.cfg, z.client, m);
    case ServerMoves(state) => MoveAccounts(x.env, z.server, state);
  }

  lemma CatchUpsApart(x: Setup, z: Sys)
    ensures ServerCatchUp(x, z).client == z.client && ClientCatchUp(x, z).server == z.server
  {
    ServerAlone(x, z);
    ClientAlone(x, z);
  }

  lemma {:induction false} ServerAlone(x: Setup, z: Sys)
    ensures ServerCatchUp(x, z).client == z.client
    decreases |z.serverPending|
  {
    hide HasFrame, FirstFrame, AfterFrame, S.Receive;
    if HasFrame(z.serverPending) {
      ServerAlone(x, ServerFrame(x, z));
    }
  }

  lemma {:induction false} ClientAlone(x: Setup, z: Sys)
    ensures ClientCatchUp(x, z).server == z.server
    decreases |z.clientPending|
  {
    hide HasFrame, FirstFrame, AfterFrame, C.Receive;
    if HasFrame(z.clientPending) {
      ClientAlone(x, ClientFrame(x, z));
    }
  }

  /** In every interleaving: the server has answered what it received, as told in its log, and the
      client has signalled and written what it received called for. */
  lemma {:induction false} BothTellAlways(x: Setup, states: seq<Sys>, steps: seq<Step>, i: nat)
    requires Behaviour(x, states, steps) && i < |states|
    ensures BothTell(x, states[i])
  {
    hide BothTell, Next, Enabled, SafeIds;
    if i == 0 {
      StartTellsBoth(x);
    } else {
      BothTellAlways(x, states, steps, i - 1);
      NextTells(x, states[i - 1], steps[i - 1]);
    }
  }

  lemma StartTellsBoth(x: Setup)
    ensures BothTell(x, Start(x))
  {
    hide Accounted, Told, Packet;
    StartAccounts(x.env);
    StartTells(x.cfg);
  }

  // ------------------------------------------------------------- call and answer

  /** Received as written, on both sides. */
  ghost predicate AsWritten(z: Sys) {
    && |z.server.received| <= |z.client.sent| && |z.client.received| <= |z.server.sent|
    && (forall k :: 0 <= k < |z.server.received| ==> z.server.received[k] == OnWire(z.client.sent[k]))
    && (forall k :: 0 <= k < |z.client.received| ==> z.client.received[k] == OnWire(z.server.sent[k]))
  }

  predicate IsReturn(z: Sys, p: nat) {
    p < |z.client.signals| && Of(Returns, z.client.signals[p])
  }

  /** The signal at `p` is for the server's message at `k`, which is the one due for action `a`. */
  ghost predicate Traced(x: Setup, z: Sys, p: nat, k: nat, a: nat) {
    && IsReturn(z, p) && k < |z.server.sent| && a < |z.server.log| && k < |z.client.received|
    && z.server.sent[k].kind == RETURN
    && z.client.signals[p] == C.ReturnReceived(z.server.sent[k].id, OnWire(z.server.sent[k]).ret, C.Wire)
    && Due(x.env, z.server.log[..a], z.server.log[a]) == [z.server.sent[k].(version := 0)]
  }

  /** The action is for the client's message at `j`. */
  ghost predicate ForCall(z: Sys, a: nat, j: nat) {
    && a < |z.server.log| && j < |z.server.received| <= |z.client.sent|
    && Asks(z.server.received[j]) && z.server.received[j] == OnWire(z.client.sent[j])
    && z.server.log[a] != S.Volunteered(z.server.received[j])
    && Fulfils(z.server.log[a]) == [Answer(z.server.received[j])]
  }

  /** The places of signal, message, action and call, each among its like. */
  ghost predicate Placed(x: Setup, z: Sys, p: nat, k: nat, a: nat)
    requires Traced(x, z, p, k, a)
  {
    && |AllExpected(Returns, z.client.received[..k])| == |Only(Returns, z.client.signals[..p])|
    && |AllDue(x.env, z.server.log[..a])| == |Answers(z.server.sent[..k])|
  }

  lemma TraceBack(x: Setup, z: Sys, p: nat) returns (k: nat, a: nat)
    requires BothTell(x, z) && AsWritten(z) && IsReturn(z, p)
    ensures Traced(x, z, p, k, a) && Placed(x, z, p, k, a)
  {
    hide Only, AllExpected, AllDue, Due, Fulfilled, AllDuties, Answers, Highest, OnWire;
    hide AllRaises, Own, AllOwnWrites, OutOrTold, IsFatal;
    SignalsInOrder(x.cfg, Returns, z.client);
    SignalAt(Returns, z.client.signals, p);
    k := ExpectedFrom(Returns, z.client.received, |Only(Returns, z.client.signals[..p])|);
    var m := z.server.sent[k];
    KindAndId(m);
    AnswerAt(z.server.sent, k);
    a := DueFrom(x.env, z.server.log, |Answers(z.server.sent[..k])|);
  }

  lemma KindAndId(m: Msg)
    ensures OnWire(m).kind == RETURN ==> m.kind == RETURN
    ensures m.kind in {FUNCTION, QTRPC, RETURN} ==> OnWire(m).id == m.id && OnWire(m).kind == m.kind
    ensures OnWire(m).kind in {FUNCTION, QTRPC} ==> m.kind == OnWire(m).kind
  {
  }

  /** What is due for a message is for one that asked, and has its id. */
  lemma DueToAsker(env: S.Layer, before: seq<S.Action>, a: S.Action, m: Msg)
    requires Due(env, before, a) == [m] && m.kind == RETURN && !a.Volunteered?
    ensures !a.Moved? && Fulfils(a) == [Answer(a.msg)] && m.id == a.msg.id
  {
    hide Q;
  }

  lemma CallTraced(x: Setup, z: Sys, p: nat, k: nat, a: nat) returns (j: nat)
    requires BothTell(x, z) && AsWritten(z) && Traced(x, z, p, k, a) && !z.server.log[a].Volunteered?
    ensures ForCall(z, a, j) && z.client.sent[j].id == z.server.sent[k].id
    ensures |AllDuties(z.server.received[..j])| == |Fulfilled(z.server.log[..a])|
  {
    hide Only, AllDue, Due, Fulfilled, AllDuties, Answers, Highest, OnWire, Told, AsksByName, Fulfils;
    var action := z.server.log[a];
    DueToAsker(x.env, z.server.log[..a], action, z.server.sent[k].(version := 0));
    j := AnswersArrived(z.server.log, z.server.received, a, action.msg);
    KindAndId(z.client.sent[j]);
  }

  /** Every return signalled to the client's bus is the message of the server's that one action
      called for: one of the client's own calls, with its id and the answer to it; or the
      application's own, as when an asynchronous call ends. */
  lemma ReturnsAnswerCalls(x: Setup, states: seq<Sys>, steps: seq<Step>, i: nat, p: nat) returns (k: nat, a: nat, j: nat)
    requires Sane(x) && Behaviour(x, states, steps) && i < |states| && IsReturn(states[i], p)
    ensures var z := states[i];
      && Traced(x, z, p, k, a)
      && (z.server.log[a].Volunteered? || (ForCall(z, a, j) && z.client.sent[j].id == z.client.signals[p].id))
  {
    var z := states[i];
    hide Behaviour, BothTell, AsWritten, Traced, ForCall, Sane;
    BothTellAlways(x, states, steps, i);
    WrittenAlways(x, states, steps, i);
    k, a := TraceBack(x, z, p);
    j := 0;
    if !z.server.log[a].Volunteered? {
      j := CallTraced(x, z, p, k, a);
    }
  }

  lemma WrittenAlways(x: Setup, states: seq<Sys>, steps: seq<Step>, i: nat)
    requires Sane(x) && Behaviour(x, states, steps) && i < |states|
    ensures AsWritten(states[i])
  {
    hide Behaviour, Sane, OnWire;
    EveryFrameAsWritten(x, states, steps, i);
  }

  // ------------------------------------------------------------ order, and once

  lemma {:induction false} ExpectedGrows(sort: Sort, ms: seq<Msg>, k: nat, l: nat)
    requires k <= l <= |ms|
    ensures |AllExpected(sort, ms[..k])| <= |AllExpected(sort, ms[..l])|
  {
    if k < l {
      ExpectedGrows(sort, ms, k, l - 1);
      assert ms[..l][..l - 1] == ms[..l - 1];
    }
  }

  lemma {:induction false} DueGrows(env: S.Layer, log: seq<S.Action>, k: nat, l: nat)
    requires k <= l <= |log|
    ensures |AllDue(env, log[..k])| <= |AllDue(env, log[..l])|
  {
    hide Due;
    if k < l {
      DueGrows(env, log, k, l - 1);
      assert log[..l][..l - 1] == log[..l - 1];
    }
  }

  lemma {:induction false} DutiesGrow(ms: seq<Msg>, k: nat, l: nat)
    requires k <= l <= |ms|
    ensures |AllDuties(ms[..k])| <= |AllDuties(ms[..l])|
  {
    hide Asks, HandsOn;
    if k < l {
      DutiesGrow(ms, k, l - 1);
      assert ms[..l][..l - 1] == ms[..l - 1];
    }
  }

  /** Two signals in this order are for two messages, two actions and two calls in this order. */
  lemma TracesInOrder(x: Setup, z: Sys, p: nat, q: nat, k: nat, l: nat, a: nat, b: nat)
    requires p < q && Traced(x, z, p, k, a) && Traced(x, z, q, l, b) && Placed(x, z, p, k, a) && Placed(x, z, q, l, b)
    ensures k < l && a < b
  {
    hide Only, AllExpected, AllDue, Due, Answers, OnWire, IsAnswer;
    var ss := z.client.signals;
    SignalAt(Returns, ss[..q], p);
    assert ss[..q][..p] == ss[..p];
    if l <= k {
      ExpectedGrows(Returns, z.client.received, l, k);
    }
    assert IsAnswer(z.server.sent[k]) by { ReturnIsAnswer(z.server.sent[k]); }
    Apart(x.env, z.server.sent, z.server.log, k, l);
    if b <= a {
      DueGrows(x.env, z.server.log, b, a);
    }
  }

  lemma ReturnIsAnswer(m: Msg)
    requires m.kind == RETURN
    ensures IsAnswer(m)
  {
  }

  lemma CallsInOrder(z: Sys, a: nat, b: nat, j: nat, h: nat)
    requires a < b < |z.server.log| && Fulfils(z.server.log[a]) != []
    requires j <= |z.server.received| && h <= |z.server.received|
    requires |AllDuties(z.server.received[..j])| == |Fulfilled(z.server.log[..a])|
    requires |AllDuties(z.server.received[..h])| == |Fulfilled(z.server.log[..b])|
    ensures j < h
  {
    hide AllDuties, Fulfilled, Fulfils;
    ActionsApart(z.server.log, a, b);
    if h <= j {
      DutiesGrow(z.server.received, h, j);
    }
  }

  lemma ActionsApart(log: seq<S.Action>, a: nat, b: nat)
    requires a < b <= |log| && Fulfils(log[a]) != []
    ensures |Fulfilled(log[..a])| < |Fulfilled(log[..b])|
  {
    hide Fulfils;
    FulfilledAt(log[..b], a);
    assert log[..b][..a] == log[..a];
  }

  /** Answers reach the client's bus in the order of its calls, and none for a call twice. */
  lemma AnswersInCallOrder(x: Setup, states: seq<Sys>, steps: seq<Step>, i: nat, p: nat, q: nat)
    returns (k: nat, a: nat, j: nat, l: nat, b: nat, h: nat)
    requires Sane(x) && Behaviour(x, states, steps) && i < |states|
    requires p < q && IsReturn(states[i], p) && IsReturn(states[i], q)
    ensures var z := states[i];
      && Traced(x, z, p, k, a) && Traced(x, z, q, l, b) && a < b
      && (!z.server.log[a].Volunteered? ==> ForCall(z, a, j) && z.client.sent[j].id == z.client.signals[p].id)
      && (!z.server.log[b].Volunteered? ==> ForCall(z, b, h) && z.client.sent[h].id == z.client.signals[q].id)
      && (!z.server.log[a].Volunteered? && !z.server.log[b].Volunteered? ==> j < h)
  {
    var z := states[i];
    hide Behaviour, BothTell, AsWritten, Traced, ForCall, Sane, Placed, AllDuties, Fulfilled;
    BothTellAlways(x, states, steps, i);
    WrittenAlways(x, states, steps, i);
    k, a := TraceBack(x, z, p);
    l, b := TraceBack(x, z, q);
    TracesInOrder(x, z, p, q, k, l, a, b);
    j, h := 0, 0;
    if !z.server.log[a].Volunteered? {
      j := CallTraced(x, z, p, k, a);
    }
    if !z.server.log[b].Volunteered? {
      h := CallTraced(x, z, q, l, b);
    }
    if !z.server.log[a].Volunteered? && !z.server.log[b].Volunteered? {
      ForCallFulfils(z, a, j);
      ForCallFulfils(z, b, h);
      CallsInOrder(z, a, b, j, h);
    }
  }

  lemma ForCallFulfils(z: Sys, a: nat, j: nat)
    requires ForCall(z, a, j)
    ensures a < |z.server.log| && Fulfils(z.server.log[a]) != [] && j < |z.server.received|
  {
    hide Asks, OnWire, Fulfils;
  }

  // ----------------------------------------------------------------- the caller

  /** The value is what the service layer answered to the client's call `j`, as carried by the version
      it was written in; or what the application itself sent under this id. */
  ghost predicate AnsweredBy(x: Setup, z: Sys, id: UInt32, value: ReturnValue, k: nat, a: nat, j: nat) {
    && k < |z.server.sent| && a < |z.server.log|
    && z.server.sent[k].kind == RETURN && z.server.sent[k].id == id && value == OnWire(z.server.sent[k]).ret
    && Due(x.env, z.server.log[..a], z.server.log[a]) == [z.server.sent[k].(version := 0)]
    && (z.server.log[a].Volunteered? || (ForCall(z, a, j) && z.client.sent[j].id == id))
  }

  /** The bus hears what the device signals, and the end of the connection. */
  ghost predicate Hears(t: B.State, signals: seq<C.Signal>) {
    forall e <- t.history :: e.Reply? ==> e.value == B.DISCONNECTED || Signalled(signals, e.id, e.value)
  }

  ghost predicate Signalled(signals: seq<C.Signal>, id: UInt32, value: ReturnValue) {
    exists p :: 0 <= p < |signals| && signals[p].ReturnReceived? && signals[p].id == id && signals[p].ret == value
  }

  /** What a caller, or the object of an asynchronous call, is told of its call is the answer to
      that very call, or an error: that it could not be sent, or that the connection ended. */
  lemma CallerGetsItsAnswer(x: Setup, states: seq<Sys>, steps: seq<Step>, i: nat, t: B.State, id: UInt32, value: ReturnValue)
    returns (k: nat, a: nat, j: nat)
    requires Sane(x) && Behaviour(x, states, steps) && i < |states|
    requires B.Reachable(t) && Hears(t, states[i].client.signals)
    requires (id in t.callers && t.callers[id] == B.Returned(value)) || value in B.PostedFor(t.posts, id)
    requires id != x.cfg.connectId && id != x.cfg.selectServiceId
    ensures (value in {B.DISCONNECTED, C.NotConnected()} && value.IsError())
            || AnsweredBy(x, states[i], id, value, k, a, j)
  {
    hide Behaviour, BothTell, Sane, B.Reachable, Traced, ForCall, B.PostedFor;
    k, a, j := 0, 0, 0;
    B.FirstReplyOnly(t, id, value);
    var f, g :| B.FirstReplyAt(t.history, id, id in t.callers, value, f, g);
    assert t.history[g] == B.Reply(id, value) && t.history[g] in t.history;
    if value != B.DISCONNECTED {
      var z := states[i];
      assert Signalled(z.client.signals, id, value);
      var p :| 0 <= p < |z.client.signals| && z.client.signals[p].ReturnReceived?
               && z.client.signals[p].id == id && z.client.signals[p].ret == value;
      BothTellAlways(x, states, steps, i);
      OtherCauses(x, z, p);
      if z.client.signals[p].cause == C.Wire {
        k, a, j := ReturnsAnswerCalls(x, states, steps, i, p);
        FromTrace(x, z, p, k, a, j);
      }
    }
  }

  lemma FromTrace(x: Setup, z: Sys, p: nat, k: nat, a: nat, j: nat)
    requires Traced(x, z, p, k, a)
    requires z.server.log[a].Volunteered? || (ForCall(z, a, j) && z.client.sent[j].id == z.client.signals[p].id)
    ensures AnsweredBy(x, z, z.client.signals[p].id, z.client.signals[p].ret, k, a, j)
  {
    hide Due, OnWire, ForCall;
  }

  /** What else is signalled is for the connection, for the selection of a service, or an error. */
  lemma OtherCauses(x: Setup, z: Sys, p: nat)
    requires BothTell(x, z) && p < |z.client.signals| && z.client.signals[p].ReturnReceived?
    ensures var s := z.client.signals[p];
      || s.cause == C.Wire || (s.cause == C.Unsent && s.ret == C.NotConnected() && s.ret.IsError())
      || s.id in {x.cfg.connectId, x.cfg.selectServiceId}
  {
    hide Accounted, Only, AllRaises, Refusals, Own, AllOwnWrites, IsFatal;
    var ss := z.client.signals;
    if ss[p].cause == C.Unsent {
      SignalAt(NotSent, ss, p);
      RefusalsSay(z.client.tries[|z.client.sent|..], |Only(NotSent, ss[..p])|);
    } else {
      SignalAt(Raised, ss, p);
      RaisedFor(x.cfg, z.client.received, |Only(Raised, ss[..p])|);
    }
  }

  lemma {:induction false} RefusalsSay(tries: seq<C.Try>, q: nat)
    requires q < |Refusals(tries)|
    ensures |Refusals(tries)| == |tries|
    ensures Refusals(tries)[q] == C.ReturnReceived(tries[q].msg.id, C.NotConnected(), C.Unsent)
  {
    if tries != [] {
      var n := |tries| - 1;
      RefusalsCount(tries);
      if q < n {
        RefusalsSay(tries[..n], q);
      }
    }
  }

  lemma {:induction false} RefusalsCount(tries: seq<C.Try>)
    ensures |Refusals(tries)| == |tries|
  {
    if tries != [] {
      RefusalsCount(tries[..|tries| - 1]);
    }
  }

  lemma {:induction false} RaisedFor(cfg: C.Config, ms: seq<Msg>, q: nat)
    requires q < |AllRaises(cfg, ms)| && AllRaises(cfg, ms)[q].ReturnReceived?
    ensures var s := AllRaises(cfg, ms)[q]; s.cause == C.Wire || s.id in {cfg.connectId, cfg.selectServiceId}
    decreases |ms|
  {
    hide Raises;
    var n := |ms| - 1;
    if q < |AllRaises(cfg, ms[..n])| {
      RaisedFor(cfg, ms[..n], q);
    } else {
      RaisesFor(cfg, ms[n], q - |AllRaises(cfg, ms[..n])|);
    }
  }

  lemma RaisesFor(cfg: C.Config, m: Msg, q: nat)
    requires q < |Raises(cfg, m)| && Raises(cfg, m)[q].ReturnReceived?
    ensures var s := Raises(cfg, m)[q]; s.cause == C.Wire || s.id in {cfg.connectId, cfg.selectServiceId}
  {
    hide Named, IsFatal, Agrees, ForDevice;
  }
}
