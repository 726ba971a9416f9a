/** How an assignment breaks those promises while something is under way: the ids of the other
    connection are given again, and what began on this one goes on and ends there. */
module AsyncAssign {
  import opened QtTypes
  import opened DataStream
  import opened ReturnValues
  import opened AsyncRequests
  import opened AsyncInvariant
  import opened AsyncSteps
  import opened AsyncResults
  import opened AsyncReconnect

  // ---------------------------------------------------------- keys and counters

  /** A getService or selectService under an id the other connection has yet to give: as soon as
      it does, two things are due under that id. */
  lemma AssignCollides(s: State, link: Link, layer: Layer, j: nat) returns (events: seq<Event>, t: State)
    requires Inv(s) && Enabled(s, Assigned(link)) && link.bus != s.link.bus && link.connected
    requires layer != Connect && j in s.entries.At(layer) && link.next < j
    ensures Runs(TakeOver(s, link), events, t) && !Right(t)
  {
    hide Inv, Right, Runs, OldCarrier, Served;
    var z := TakeOver(s, link);
    if layer == GetService {
      GetCarriedOver(s, z.traffic, j);
      events, t := GetCollides(z, j);
    } else if Served(s.entries, SelectService, j) {
      var g := InnerGet(s, j);
      GetCarriedOver(s, z.traffic, g);
      events, t := GetCollides(z, g);
    } else {
      CarriedOver(s, z.traffic, SelectService, j);
      events, t := SelectCollides(z, j);
    }
  }

  /** The getService inside a selectService has moved on to later ids. */
  lemma InnerGet(s: State, k: nat) returns (g: nat)
    requires Inv(s) && Served(s.entries, SelectService, k)
    ensures g in s.entries.get && g >= k
  {
    hide Holding;
    AllParts(s, None);
    g :| g in s.entries.get && s.entries.get[g].target == Slot(SelectService) && s.entries.get[g].origin.id == k;
    SlotAt(s.entries, GetService, g, s.link.bus, s.link.next);
  }

  // ----------------------------------------------------- the wrong connection

  /** No service has been returned to any of its requests: one that has would take the proxy back. */
  ghost predicate NoneReturned(s: State) {
    && (forall j :: j in s.entries.get ==> |s.entries.get[j].past| <= 2)
    && (forall i :: 0 <= i < |s.traffic.queue| && !s.traffic.queue[i].layer.Connect? ==>
          !s.traffic.queue[i].news.ret.IsService())
  }

  /** As `a`, but after going over to another connection, both of them lost. */
  ghost predicate Drifting(a: State, b: State) {
    && b.entries == a.entries && b.status == a.status && b.log == a.log && b.traffic == Abandoned(a.traffic)
    && !a.link.connected && !b.link.connected && b.link.bus != a.link.bus && NoneReturned(a)
  }

  /** The last completion, of this request, came on this bus. */
  ghost predicate CompletedOn(t: State, k: Origin, bus: nat) {
    t.log.completions != [] && var c := t.log.completions[|t.log.completions| - 1]; c.origin == k && c.bus == bus
  }

  /** What follows the end of the request in `to`: its outer request hears of it, or the user. */
  ghost predicate DriftsOn(c: State, d: State, to: ObjectSlot, bus: nat) {
    if to.target.Slot? then Drifting(c, d) && c.traffic.queue != [] else CompletedOn(d, to.origin, bus)
  }

  predicate Targets(to: ObjectSlot, layer: Layer) {
    to.target.User? || (layer != Connect && to.target == Above(layer))
  }

  lemma FinishDrifts(a: State, b: State, layer: Layer, id: nat, news: Exchange, ret: ReturnValue)
    requires Drifting(a, b) && id in a.entries.At(layer) && (layer == GetService ==> !ret.IsService())
    requires Targets(a.entries.At(layer)[id], layer)
    ensures DriftsOn(Finish(a, layer, id, news, ret), Finish(b, layer, id, news, ret), a.entries.At(layer)[id], b.link.bus)
  {
  }

  lemma FinishTells(s: State, layer: Layer, id: nat, news: Exchange, ret: ReturnValue)
    requires id in s.entries.At(layer) && s.entries.At(layer)[id].target.User?
    ensures CompletedOn(Finish(s, layer, id, news, ret), s.entries.At(layer)[id].origin, s.link.bus)
  {
  }

  lemma ProceedDrifts(a: State, b: State, id: nat, news: Exchange, status: Status, remote: Remote)
    requires Drifting(a, b) && id in a.entries.get && Targets(a.entries.get[id], GetService)
    ensures DriftsOn(
      Proceed(a, id, news, status, remote), Proceed(b, id, news, status, remote), a.entries.get[id], b.link.bus)
  {
    hide Finish;
    FinishDrifts(a, b, GetService, id, news, NOT_CONNECTED);
  }

  lemma GetDrifts(a: State, b: State, id: nat, news: Exchange)
    requires Drifting(a, b) && Known(a, id) && Selects(a, id, news.ret) && !news.ret.IsService()
    requires Targets(a.entries.get[id], GetService) && a.status[a.entries.get[id].origin.id].step == |a.entries.get[id].past|
    ensures DriftsOn(
      GetServiceCompleted(a, id, news), GetServiceCompleted(b, id, news), a.entries.get[id], b.link.bus)
  {
    hide Finish, Proceed, DriftsOn;
    var ret, status := news.ret, a.status[a.entries.get[id].origin.id];
    if ret.IsError() {
      FinishDrifts(a, b, GetService, id, news, ret);
    } else if status.step <= 1 || (status.step == 2 && status.version != 0) {
      var heard := if status.step == 0 then status else if status.step == 1 then status.(version := ToInt(ret.value))
                   else status.(result := ret);
      ProceedDrifts(a, b, id, news, heard, RemoteAt(heard.(step := status.step + 1)));
    } else {
      FinishDrifts(a.(taken := Some(Original)), b.(taken := Some(Original)), GetService, id, news, ret);
    }
  }

  lemma SelectDrifts(a: State, b: State, id: nat, news: Exchange)
    requires Drifting(a, b) && !news.ret.IsService()
    requires id in a.entries.select && Targets(a.entries.select[id], SelectService)
    ensures DriftsOn(
      SelectServiceCompleted(a, id, news), SelectServiceCompleted(b, id, news), a.entries.select[id], b.link.bus)
  {
    hide Finish, DriftsOn;
    FinishDrifts(a, b, SelectService, id, news, news.ret);
  }

  /** Without its bus a connect can only end. */
  lemma ConnectDrifts(b: State, id: nat, news: Exchange)
    requires !b.link.connected && id in b.entries.connect && b.entries.connect[id].target.User?
    ensures CompletedOn(ConnectCompleted(b, id, news), b.entries.connect[id].origin, b.link.bus)
  {
    hide Finish, CompletedOn;
    var ret, up := news.ret, b.(link := b.link.(state := Connected));
    FinishTells(GiveUp(b), Connect, id, news, ret);
    FinishTells(GiveUp(b), Connect, id, news, NOT_CONNECTED);
    FinishTells(up, Connect, id, news, ret);
  }

  lemma HandledDrifts(a: State, b: State)
    requires Inv(a) && Drifting(a, b) && a.traffic.queue != [] && Enabled(a, Handled)
    ensures Enabled(b, Handled)
    ensures var c, d := Step(a, Handled), Step(b, Handled);
      !Right(d) || (Drifting(c, d) && c.traffic.queue != [])
  {
    hide Inv, Right, GetServiceCompleted, SelectServiceCompleted, ConnectCompleted;
    var p, c, d := a.traffic.queue[0], Popped(a), Popped(b);
    OnThisBus(a, p.layer, p.id);
    var to := a.entries.At(p.layer)[p.id];
    assert Drifting(c, d);
    match p.layer {
      case GetService => GetDrifts(c, d, p.id, p.news);
      case SelectService => SelectDrifts(c, d, p.id, p.news);
      case Connect => ConnectDrifts(d, p.id, p.news);
    }
    assert to.target.Slot? ==> DriftsOn(Step(a, Handled), Step(b, Handled), to, b.link.bus);
    if to.target.User? {
      CompletedAway(Step(b, Handled), to.origin, b.link.bus);
    }
  }

  lemma OnThisBus(s: State, layer: Layer, id: nat)
    requires Inv(s) && id in s.entries.At(layer)
    ensures s.entries.At(layer)[id].origin.bus == s.link.bus
    ensures Targets(s.entries.At(layer)[id], layer)
    ensures layer == GetService ==>
              var to := s.entries.get[id]; to.origin.id in s.status && s.status[to.origin.id].step == |to.past|
  {
    hide Holding;
    AllParts(s, None);
    SlotAt(s.entries, layer, id, s.link.bus, s.link.next);
    hide GetLaw;
    if layer == GetService {
      assert GetLaw(s.entries.get[id], s.status);
      StepCounts(s.entries.get[id], s.status);
    }
  }

  lemma StepCounts(to: ObjectSlot, statuses: map<nat, Status>)
    requires GetLaw(to, statuses)
    ensures to.origin.id in statuses && statuses[to.origin.id].step == |to.past|
  {
    hide GetChain;
  }

  lemma CompletedAway(t: State, k: Origin, bus: nat)
    requires CompletedOn(t, k, bus) && k.bus != bus
    ensures !Right(t)
  {
    hide Carried, Settled, Ends;
    assert !Lawful(t.log.completions[|t.log.completions| - 1]);
  }

  /** An old bus answers what was asked before the proxy left it. */
  lemma LateDrifts(a: State, b: State, id: nat)
    requires Drifting(a, b) && Enabled(a, Replied(id, NOT_CONNECTED))
    ensures var c, f := Step(a, Replied(id, NOT_CONNECTED)), RepliedLate(|a.traffic.stale|, id, NOT_CONNECTED);
      Enabled(b, f) && Drifting(c, Step(b, f)) && c.traffic.queue != []
  {
    var c, f := Step(a, Replied(id, NOT_CONNECTED)), RepliedLate(|a.traffic.stale|, id, NOT_CONNECTED);
    assert b.traffic.stale[|a.traffic.stale|] == a.traffic.pending;
    assert Enabled(b, f);
    var d := Step(b, f);
    assert d.traffic.stale == a.traffic.stale + [a.traffic.pending - {id}];
  }

  /** What was under way ends on the other connection. */
  lemma {:induction false} Adrift(a: State, b: State) returns (events: seq<Event>, t: State)
    requires Inv(a) && !Idle(a) && Drifting(a, b)
    ensures Runs(b, events, t) && !Right(t)
    decreases Work(a)
  {
    hide Inv, Work, Drifting, Right;
    var e := NextEvent(a);
    StepKeeps(a, e);
    var f := if e.Handled? then Handled else RepliedLate(|a.traffic.stale|, e.id, NOT_CONNECTED);
    if e.Handled? {
      HandledDrifts(a, b);
    } else {
      LateDrifts(a, b, e.id);
    }
    var c, d := Step(a, e), Step(b, f);
    RunsOne(b, f);
    if Right(d) {
      if Idle(c) {
        IdleTraffic(c);
        assert false;
      }
      var rest;
      rest, t := Adrift(c, d);
      events := [f] + rest;
      RunsThen(b, [f], d, rest, t);
    } else {
      events, t := [f], d;
    }
  }

  /** Nothing else happens but that the other connection is lost, and the calls made on this one
      are answered. */
  lemma AssignDrifts(s: State, link: Link) returns (events: seq<Event>, t: State)
    requires Inv(s) && !Idle(s) && NoneReturned(s) && Enabled(s, Assigned(link)) && link.bus != s.link.bus
    ensures Runs(Step(TakeOver(s, link), Lost), events, t) && !Right(t)
  {
    hide Inv, Runs, Right, NoneReturned;
    StepKeeps(s, Lost);
    DriftBegins(s, link);
    events, t := Adrift(Step(s, Lost), Step(TakeOver(s, link), Lost));
  }

  lemma DriftBegins(s: State, link: Link)
    requires NoneReturned(s) && link.bus != s.link.bus
    ensures Drifting(Step(s, Lost), Step(TakeOver(s, link), Lost))
  {
  }
}
