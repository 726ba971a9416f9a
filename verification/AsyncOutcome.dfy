/** What the asynchronous requests leave behind, in every run: what the proxy has taken over, and
    the state of its connection. */
module AsyncOutcome {
  import opened QtTypes
  import opened DataStream
  import opened ReturnValues
  import opened AsyncRequests
  import opened AsyncInvariant
  import opened AsyncSteps

  // ------------------------------------------------------------ what is taken over

  /** What the proxy takes over when it is told this: the service a selectService got, or the one
      service of the original protocol once the server has selected it. */
  function Takes(p: Post): Option<Taken> {
    if p.layer == SelectService && p.news.ret.IsService() then Some(Service(p.news.ret.serviceId))
    else if p.layer == GetService && p.news.Told? && p.news.remote.SelectOriginal? && !p.news.ret.IsError() then
      Some(Original)
    else None
  }

  /** The events handled in a run. */
  ghost function HandledIn(s: State, events: seq<Event>, t: State): seq<Post>
    requires Reaches(s, events, t)
    decreases |events|
  {
    if events == [] then []
    else
      (if events[0].Handled? then [s.traffic.queue[0]] else []) + HandledIn(Step(s, events[0]), events[1..], t)
  }

  function LastTaken(posts: seq<Post>, before: Option<Taken>): Option<Taken> {
    if posts == [] then before
    else LastTaken(posts[1..], if Takes(posts[0]).Some? then Takes(posts[0]) else before)
  }

  lemma HandledTakes(s: State)
    requires Inv(s) && Enabled(s, Handled)
    ensures var p := s.traffic.queue[0]; Step(s, Handled).taken == if Takes(p).Some? then Takes(p) else s.taken
  {
    hide Holding, Finish, Proceed, Fits, GetLaw, GetChain;
    Pop(s);
    var p, t := s.traffic.queue[0], Popped(s);
    match p.layer
    case GetService =>
      EntryLaw(t, p.id);
      OriginalTold(t.entries.get[p.id], t.status, p.news);
      TakenKept(t, GetService, p.id, p.news);
    case SelectService => TakenKept(t, SelectService, p.id, p.news);
    case Connect => ConnectTakes(t, p.id, p.news);
  }

  /** The reply in question is the one to the selection, in version 0. */
  lemma OriginalTold(to: ObjectSlot, statuses: map<nat, Status>, news: Exchange)
    requires GetLaw(to, statuses) && Fits(to, GetService, news)
    ensures var status := statuses[to.origin.id];
      news.Told? && (news.remote.SelectOriginal? <==> status.step == 2 && status.version == 0)
  {
    hide GetChain;
  }

  lemma TakenKept(s: State, layer: Layer, id: nat, news: Exchange)
    requires id in s.entries.At(layer)
    ensures forall ret, taken :: Finish(s.(taken := taken), layer, id, news, ret).taken == taken
    ensures layer == GetService ==> forall status, remote :: Proceed(s, id, news, status, remote).taken == s.taken
  {
  }

  lemma ConnectTakes(s: State, id: nat, news: Exchange)
    requires id in s.entries.connect
    ensures ConnectCompleted(s, id, news).taken == s.taken
  {
  }

  lemma StepTakes(s: State, e: Event)
    requires Inv(s) && Proper(s, e)
    ensures Step(s, e).taken ==
      if e.Handled? && Takes(s.traffic.queue[0]).Some? then Takes(s.traffic.queue[0]) else s.taken
  {
    if e.Handled? {
      HandledTakes(s);
    }
    hide Handle;
  }

  /** In every run the proxy has what the last selection that succeeded was given, and nothing else
      that happens changes it. */
  lemma {:induction false} TakenLast(s: State, events: seq<Event>, t: State)
    requires Inv(s) && Reaches(s, events, t)
    ensures t.taken == LastTaken(HandledIn(s, events, t), s.taken)
    decreases |events|
  {
    hide Inv, Enabled, Step, Takes;
    if events != [] {
      var e, rest := events[0], events[1..];
      var u := Step(s, e);
      StepTakes(s, e);
      StepKeeps(s, e);
      TakenLast(u, rest, t);
      if e.Handled? {
        HasEvent(s);
        var p := s.traffic.queue[0];
        assert ([p] + HandledIn(u, rest, t))[1..] == HandledIn(u, rest, t);
      } else {
        assert [] + HandledIn(u, rest, t) == HandledIn(u, rest, t);
      }
    }
  }

  // --------------------------------------------------------------- what is told

  /** What handling one event tells a user: nothing, or the end of the request the event is for. */
  ghost predicate TellsOnly(s: State, t: State, p: Post) {
    || (t.log.completions == s.log.completions && (p.layer == Connect ==> t.link.state == s.link.state))
    || (|t.log.completions| == |s.log.completions| + 1
        && t.log.completions[..|s.log.completions|] == s.log.completions
        && EndsWith(t, p))
  }

  /** The last completion is for this event: a selectService ends with what it was told, and a
      connect leaves the connection connected, or, with an error, disconnected. */
  ghost predicate EndsWith(t: State, p: Post) {
    t.log.completions != [] &&
    var c := t.log.completions[|t.log.completions| - 1];
      && c.layer == p.layer && (p.layer == SelectService ==> c.ret == p.news.ret)
      && (p.layer == Connect ==> t.link.state == if c.ret.IsError() then Disconnected else Connected)
  }

  lemma FinishTells(s: State, layer: Layer, id: nat, news: Exchange, ret: ReturnValue)
    requires id in s.entries.At(layer)
    ensures var t := Finish(s, layer, id, news, ret);
      && t.link == s.link
      && if s.entries.At(layer)[id].target.Slot? then t.log == s.log
         else |t.log.completions| == |s.log.completions| + 1
              && t.log.completions[..|s.log.completions|] == s.log.completions
              && t.log.completions[|s.log.completions|].layer == layer && t.log.completions[|s.log.completions|].ret == ret
  {
  }

  lemma HandledTells(s: State)
    requires Inv(s) && Enabled(s, Handled)
    ensures TellsOnly(s, Step(s, Handled), s.traffic.queue[0])
    ensures s.traffic.queue[0].layer != Connect ==> Step(s, Handled).link.state == s.link.state
  {
    hide Holding, Finish, Proceed, Fits, TellsOnly;
    Pop(s);
    var p, t := s.traffic.queue[0], Popped(s);
    match p.layer {
      case GetService => GetTells(t, p);
      case SelectService => SelectTells(t, p);
      case Connect =>
        ConnectIsUsers(t, p.id);
        ConnectTells(t, p);
    }
    PoppedTells(s, Step(s, Handled), p);
  }

  lemma PoppedTells(s: State, t: State, p: Post)
    requires s.traffic.queue != [] && TellsOnly(Popped(s), t, p)
    ensures TellsOnly(s, t, p)
  {
    hide EndsWith;
  }

  lemma GetTells(s: State, p: Post)
    requires p.layer == GetService && Known(s, p.id) && Selects(s, p.id, p.news.ret)
    ensures var t := GetServiceCompleted(s, p.id, p.news); TellsOnly(s, t, p) && t.link.state == s.link.state
  {
    hide Finish;
    FinishTells(s, GetService, p.id, p.news, p.news.ret);
    FinishTells(s, GetService, p.id, p.news, NOT_CONNECTED);
    FinishTells(s, GetService, p.id, p.news, UNKNOWN_STEP);
    FinishTells(s, GetService, p.id, p.news, s.status[s.entries.get[p.id].origin.id].result);
    FinishTells(s.(taken := Some(Original)), GetService, p.id, p.news, p.news.ret);
  }

  lemma SelectTells(s: State, p: Post)
    requires p.layer == SelectService && p.id in s.entries.select
    ensures var t := SelectServiceCompleted(s, p.id, p.news); TellsOnly(s, t, p) && t.link.state == s.link.state
  {
    hide Finish;
    FinishTells(s, SelectService, p.id, p.news, p.news.ret);
    FinishTells(s.(taken := Some(Service(p.news.ret.serviceId))), SelectService, p.id, p.news, p.news.ret);
  }

  lemma ConnectIsUsers(s: State, id: nat)
    requires Holding(s, Some(Key(Connect, id))) && id in s.entries.connect
    ensures s.entries.connect[id].target.User?
  {
    hide Holding;
    AllParts(s, Some(Key(Connect, id)));
    SlotAt(s.entries, Connect, id, s.link.bus, s.link.next);
  }

  lemma ConnectTells(s: State, p: Post)
    requires p.layer == Connect && p.id in s.entries.connect && s.entries.connect[p.id].target.User?
    ensures TellsOnly(s, ConnectCompleted(s, p.id, p.news), p)
  {
    hide Finish;
    var up := s.(link := s.link.(state := Connected));
    FinishTells(GiveUp(s), Connect, p.id, p.news, p.news.ret);
    FinishTells(GiveUp(s), Connect, p.id, p.news, NOT_CONNECTED);
    FinishTells(up, Connect, p.id, p.news, p.news.ret);
  }

  /** Handling events is all that completes requests. */
  lemma OthersTellNothing(s: State, e: Event)
    requires Enabled(s, e) && !e.Handled?
    ensures Step(s, e).log.completions == s.log.completions
  {
  }

  lemma HasEvent(s: State)
    requires Enabled(s, Handled)
    ensures s.traffic.queue != []
  {
  }

  /** A selectService that is completed with a service leaves the proxy with that service. */
  lemma SelectedIsTaken(s: State, e: Event)
    requires Inv(s) && Proper(s, e) && |Step(s, e).log.completions| > |s.log.completions|
    requires var c := Step(s, e).log.completions[|s.log.completions|]; c.layer == SelectService && c.ret.IsService()
    ensures Step(s, e).taken == Some(Service(Step(s, e).log.completions[|s.log.completions|].ret.serviceId))
  {
    hide Inv, Step, Enabled;
    if !e.Handled? {
      OthersTellNothing(s, e);
    } else {
      HandledTells(s);
      StepTakes(s, e);
    }
  }

  // ------------------------------------------------------------ the connection's state

  /** What a step makes of the state of the connection, if anything: a connect begins, or ends; the
      bus is lost; or others do that. */
  ghost function Turn(s: State, e: Event): seq<ConnectionState>
    requires Enabled(s, e)
  {
    match e
    case ConnectTo(_, _, _, _) => [Connecting]
    case Lost => [Disconnected]
    case Assigned(link) => [link.state]
    case Elsewhere(link) => [link.state]
    case Handled =>
      var n, told := |s.log.completions|, Step(s, e).log.completions;
      if |told| > n && told[n].layer == Connect then [if told[n].ret.IsError() then Disconnected else Connected] else []
    case _ => []
  }

  ghost function Turns(s: State, events: seq<Event>, t: State): seq<ConnectionState>
    requires Reaches(s, events, t)
    decreases |events|
  {
    if events == [] then []
    else Turn(s, events[0]) + Turns(Step(s, events[0]), events[1..], t)
  }

  function LastOf(turns: seq<ConnectionState>, before: ConnectionState): ConnectionState {
    if turns == [] then before else turns[|turns| - 1]
  }

  lemma StepTurns(s: State, e: Event)
    requires Inv(s) && Proper(s, e)
    ensures Step(s, e).link.state == LastOf(Turn(s, e), s.link.state)
  {
    if e.Handled? {
      HandledTells(s);
    }
    hide Handle, Inv;
  }

  /** In every run the connection is connected exactly if the last thing to happen to it was that a
      connect ended without an error; and disconnected if it was that one failed, or the bus was lost. */
  lemma {:induction false} StateLast(s: State, events: seq<Event>, t: State)
    requires Inv(s) && Reaches(s, events, t)
    ensures t.link.state == LastOf(Turns(s, events, t), s.link.state)
    decreases |events|
  {
    hide Inv, Enabled, Step, Turn;
    if events != [] {
      var e, rest := events[0], events[1..];
      var u := Step(s, e);
      StepTurns(s, e);
      StepKeeps(s, e);
      StateLast(u, rest, t);
      assert Turns(u, rest, t) == [] ==> Turn(s, e) + Turns(u, rest, t) == Turn(s, e);
    }
  }
}
