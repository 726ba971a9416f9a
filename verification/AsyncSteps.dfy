/** Every step of the asynchronous requests keeps the invariant. */
module AsyncSteps {
  import opened QtTypes
  import opened DataStream
  import opened ReturnValues
  import opened AsyncRequests
  import opened AsyncInvariant

  // ------------------------------------------------------ a request is finished

  lemma MapMinus(m: map<nat, ObjectSlot>, id: nat, layer: Layer, bus: nat, next: nat, accepted: map<Origin, Request>)
    ensures MapShaped(m, layer, bus, next) ==> MapShaped(Minus(m, id), layer, bus, next)
    ensures MapOwned(m, layer, accepted) ==> MapOwned(Minus(m, id), layer, accepted)
  {
  }

  /** The outer request of an inner one is there. */
  lemma OuterThere(s: State, layer: Layer, id: nat, hand: Option<Key>)
    requires Holding(s, hand) && id in s.entries.At(layer) && s.entries.At(layer)[id].target.Slot?
    ensures var to := s.entries.At(layer)[id];
      to.target == Above(layer) && layer != Connect && to.origin.id in s.entries.At(to.target.layer)
      && to.target.layer != layer
  {
    assert MapShaped(s.entries.At(layer), layer, s.link.bus, s.link.next);
    assert SlotShaped(s.entries.At(layer)[id], layer, id, s.link.bus, s.link.next);
  }

  function Left(e: Entries, layer: Layer, id: nat): Entries {
    e.With(layer, Minus(e.At(layer), id))
  }

  lemma LeftCalls(e: Entries, q: Traffic, layer: Layer, id: nat)
    requires CallLaws(e, q.pending) && PostLaws(e, q.queue)
    requires !PendingAt(q, layer, id)
    requires forall i :: 0 <= i < |q.queue| ==> q.queue[i].layer != layer || q.queue[i].id != id
    ensures CallLaws(Left(e, layer, id), q.pending) && PostLaws(Left(e, layer, id), q.queue)
  {
    hide Fits;
    var f := Left(e, layer, id);
    OtherMaps(e, layer, Minus(e.At(layer), id));
    forall j | j in q.pending ensures CallFits(f, j, q.pending[j]) {
      assert CallFits(e, j, q.pending[j]);
    }
    forall i | 0 <= i < |q.queue| ensures PostFits(f, q.queue[i]) {
      assert PostFits(e, q.queue[i]);
    }
  }

  lemma LeftAgree(e: Entries, layer: Layer, id: nat)
    requires Agree(e) && !Served(e, layer, id)
    ensures Agree(Left(e, layer, id))
  {
  }

  lemma LeftGetLaws(m: map<nat, ObjectSlot>, statuses: map<nat, Status>, id: nat)
    requires GetLaws(m, statuses) && id in m && Apart(m)
    ensures GetLaws(Minus(m, id), statuses - {m[id].origin.id})
  {
    hide GetChain;
    forall j | j in Minus(m, id) ensures GetLaw(Minus(m, id)[j], statuses - {m[id].origin.id}) {
      assert GetLaw(m[j], statuses);
    }
  }

  lemma LeftSettled(e: Entries, log: Log, link: Link, layer: Layer, id: nat, c: Option<Completion>)
    requires Settled(e, log) && Owned(e, log, link) && id in e.At(layer) && Apart(e.At(layer))
    requires var to := e.At(layer)[id];
      if to.target.User? then c.Some? && c.value.origin == to.origin && c.value.layer == layer && c.value.user == to.target.user
      else c.None?
    ensures var t := if c.None? then log else log.(completions := log.completions + [c.value]);
      Settled(Left(e, layer, id), t) && Owned(Left(e, layer, id), t, link)
  {
    var f, to := Left(e, layer, id), e.At(layer)[id];
    var t := if c.None? then log else log.(completions := log.completions + [c.value]);
    OtherMaps(e, layer, Minus(e.At(layer), id));
    assert MapOwned(e.At(layer), layer, log.accepted);
    hide Completed, StandsFor, Apart;
    forall k ensures SettledAt(f, t, k) {
      assert SettledAt(e, log, k);
      if c.Some? {
        CompletedOne(log.completions, c.value, k);
      }
      if k in log.accepted && log.accepted[k].layer == layer {
        MinusStands(e.At(layer), id, k, log.accepted[k].user);
      }
    }
    forall l ensures MapOwned(f.At(l), l, log.accepted) {
      assert MapOwned(e.At(l), l, log.accepted);
    }
  }

  lemma LeftShaped(e: Entries, layer: Layer, id: nat, bus: nat, next: nat)
    requires Shaped(e, bus, next)
    ensures Shaped(Left(e, layer, id), bus, next)
  {
    hide MapShaped;
    OtherMaps(e, layer, Minus(e.At(layer), id));
    MapMinus(e.At(layer), id, layer, bus, next, map[]);
    forall l ensures MapShaped(Left(e, layer, id).At(l), l, bus, next) {
      assert MapShaped(e.At(l), l, bus, next);
    }
  }

  lemma ApartAt(e: Entries, layer: Layer, bus: nat, next: nat)
    requires Shaped(e, bus, next)
    ensures Apart(e.At(layer))
  {
    assert MapShaped(e.At(layer), layer, bus, next);
  }

  /** What an inner request sends fits the outer one. */
  lemma ResultFits(s: State, layer: Layer, id: nat, past: seq<Exchange>, ret: ReturnValue)
    requires Agree(s.entries) && id in s.entries.At(layer)
    requires var to := s.entries.At(layer)[id];
      && to.target == Above(layer) && layer != Connect && to.origin.id in s.entries.At(to.target.layer)
      && (layer == SelectService ==> to.origin.id == id)
      && Ends(layer, to.origin, past, ret)
    ensures var to := s.entries.At(layer)[id];
      PostFits(Left(s.entries, layer, id), Post(to.target.layer, to.origin.id, Within(past, ret)))
  {
    hide GetEnds, SelectEnds;
  }

  lemma FinishedLaws(s: State, layer: Layer, id: nat, past: seq<Exchange>, ret: ReturnValue, link: Link)
    requires Holding(s, Some(Key(layer, id))) && id in s.entries.At(layer)
    requires layer != Connect ==> link == s.link
    requires Ends(layer, s.entries.At(layer)[id].origin, past, ret)
    ensures var e, to := Left(s.entries, layer, id), s.entries.At(layer)[id];
      && GetLaws(e.get, if layer == GetService then s.status - {to.origin.id} else s.status)
      && Agree(e) && ConnectLaws(e.connect, link) && CallLaws(e, s.traffic.pending) && PostLaws(e, s.traffic.queue)
      && (to.target.Slot? ==> PostFits(e, Post(to.target.layer, to.origin.id, Within(past, ret))))
  {
    var e, to := s.entries, s.entries.At(layer)[id];
    NothingElse(e, s.traffic, layer, id);
    ApartAt(e, layer, s.link.bus, s.link.next);
    if to.target.Slot? {
      OuterThere(s, layer, id, Some(Key(layer, id)));
    }
    OneConnect(e, s.link.bus, s.link.next, id);
    SelectKey(e, s.link.bus, s.link.next);
    hide Carried, Shaped, Settled, Owned, GetLaw, ConnectLaw, Fits, Lawful, Ends, Served, Apart;
    LeftCalls(e, s.traffic, layer, id);
    LeftAgree(e, layer, id);
    if layer == GetService {
      LeftGetLaws(e.get, s.status, id);
    }
    if to.target.Slot? {
      ResultFits(s, layer, id, past, ret);
    }
  }

  lemma OneConnect(e: Entries, bus: nat, next: nat, id: nat)
    requires Shaped(e, bus, next)
    ensures id in e.connect ==> Minus(e.connect, id) == map[]
  {
    assert MapShaped(e.At(Connect), Connect, bus, next);
  }

  lemma SelectKey(e: Entries, bus: nat, next: nat)
    requires Shaped(e, bus, next)
    ensures forall k :: k in e.select ==> e.select[k].origin.id == k && e.select[k].past == []
  {
    assert MapShaped(e.At(SelectService), SelectService, bus, next);
  }

  lemma FinishKeeps(s: State, base: State, layer: Layer, id: nat, news: Exchange, ret: ReturnValue)
    requires Holding(s, Some(Key(layer, id))) && id in s.entries.At(layer)
    requires base == s.(link := base.link, taken := base.taken)
    requires base.link.bus == s.link.bus && base.link.next == s.link.next && base.link.connected == s.link.connected
    requires layer != Connect ==> base.link == s.link
    requires var to := s.entries.At(layer)[id]; Ends(layer, to.origin, to.past + [news], ret)
    ensures Inv(Finish(base, layer, id, news, ret))
  {
    hide Holding, Left, Finish, Carried, Shaped, Settled, Owned, GetLaws, Agree, ConnectLaws, CallLaws, PostLaws, AllLawful, Ends;
    var e, q, to := s.entries, s.traffic, s.entries.At(layer)[id];
    var past, t := to.past + [news], Finish(base, layer, id, news, ret);
    AllParts(s, Some(Key(layer, id)));
    ApartAt(e, layer, s.link.bus, s.link.next);
    FinishedLaws(s, layer, id, past, ret, base.link);
    LeftCarried(e, q, layer, id, s.link.bus, s.link.next);
    LeftShaped(e, layer, id, s.link.bus, s.link.next);
    if to.target.Slot? {
      OuterThere(s, layer, id, Some(Key(layer, id)));
      FinishedInner(s, layer, id, past, ret);
      LeftSettled(e, s.log, s.link, layer, id, None);
    } else {
      LeftSettled(e, s.log, s.link, layer, id, Some(Completion(layer, to.origin, to.target.user, ret, past, base.link.bus)));
    }
    FinishFields(base, layer, id, news, ret);
    SlotAt(e, layer, id, s.link.bus, s.link.next);
    LawfulMore(s.log.completions, Completion(layer, to.origin, 0, ret, past, base.link.bus));
    OwnedLink(t.entries, t.log, s.link, base.link);
    Assemble(t);
  }

  lemma LeftCarried(e: Entries, q: Traffic, layer: Layer, id: nat, bus: nat, next: nat)
    requires Carried(e, q, Some(Key(layer, id))) && Shaped(e, bus, next) && id in e.At(layer)
    ensures Carried(Left(e, layer, id), q, WaitsFor(e.At(layer)[id]))
  {
    TakeCarried(e, q, layer, id, bus, next);
  }

  lemma LawfulMore(completions: seq<Completion>, c: Completion)
    requires AllLawful(completions) && Lawful(c)
    ensures forall user :: AllLawful(completions + [c.(user := user)])
  {
    hide GetEnds, SelectEnds, ConnectEnds;
  }

  lemma FinishedInner(s: State, layer: Layer, id: nat, past: seq<Exchange>, ret: ReturnValue)
    requires id in s.entries.At(layer) && s.entries.At(layer)[id].target.Slot?
    requires var e, to := Left(s.entries, layer, id), s.entries.At(layer)[id];
      var p := Post(to.target.layer, to.origin.id, Within(past, ret));
      && Carried(e, s.traffic, WaitsFor(to)) && PostLaws(e, s.traffic.queue) && PostFits(e, p)
    ensures var e, to := Left(s.entries, layer, id), s.entries.At(layer)[id];
      var p := Post(to.target.layer, to.origin.id, Within(past, ret));
      Carried(e, Posted(s.traffic, p), None) && PostLaws(e, Posted(s.traffic, p).queue)
  {
    hide Left, Carried, Fits;
    var e, to := Left(s.entries, layer, id), s.entries.At(layer)[id];
    PostedCarried(e, s.traffic, Post(to.target.layer, to.origin.id, Within(past, ret)));
  }

  lemma FinishFields(s: State, layer: Layer, id: nat, news: Exchange, ret: ReturnValue)
    requires id in s.entries.At(layer)
    ensures var t, to := Finish(s, layer, id, news, ret), s.entries.At(layer)[id];
      var past := to.past + [news];
      t == State(
        s.link,
        if to.target.Slot? then Posted(s.traffic, Post(to.target.layer, to.origin.id, Within(past, ret))) else s.traffic,
        Left(s.entries, layer, id),
        if layer == GetService then s.status - {to.origin.id} else s.status,
        s.taken,
        if to.target.Slot? then s.log
        else s.log.(completions := s.log.completions + [Completion(layer, to.origin, to.target.user, ret, past, s.link.bus)]))
  {
  }

  // ------------------------------------------------------- an entry is added

  function Put(e: Entries, layer: Layer, n: nat, to: ObjectSlot): Entries {
    e.With(layer, Plus(e.At(layer), n, to))
  }

  lemma PutCalls(e: Entries, q: Traffic, layer: Layer, n: nat, to: ObjectSlot)
    requires CallLaws(e, q.pending) && PostLaws(e, q.queue) && n !in e.At(layer)
    ensures CallLaws(Put(e, layer, n, to), q.pending) && PostLaws(Put(e, layer, n, to), q.queue)
  {
    hide Fits;
    var f := Put(e, layer, n, to);
    OtherMaps(e, layer, Plus(e.At(layer), n, to));
    forall j | j in q.pending ensures CallFits(f, j, q.pending[j]) {
      assert CallFits(e, j, q.pending[j]);
    }
    forall i | 0 <= i < |q.queue| ensures PostFits(f, q.queue[i]) {
      assert PostFits(e, q.queue[i]);
    }
  }

  lemma AskedCalls(e: Entries, q: Traffic, n: nat, call: Call)
    requires CallLaws(e, q.pending) && PostLaws(e, q.queue) && CallFits(e, n, call)
    ensures CallLaws(e, Asked(q, n, call).pending) && PostLaws(e, Asked(q, n, call).queue)
  {
    hide CallFits, PostFits;
  }

  lemma PutAgree(e: Entries, layer: Layer, n: nat, to: ObjectSlot)
    requires Agree(e) && n !in e.At(layer)
    requires layer == GetService && to.target == Slot(SelectService) ==>
               to.origin.id in e.select && e.select[to.origin.id].origin == to.origin
    requires layer == SelectService && to.target == Slot(Connect) ==>
               n in e.connect && |e.connect[n].past| == 2 && e.connect[n].origin.name == to.origin.name
    ensures Agree(Put(e, layer, n, to))
  {
  }

  /** The next id makes room for one more entry. */
  lemma PutShaped(e: Entries, layer: Layer, to: ObjectSlot, bus: nat, next: nat)
    requires Shaped(e, bus, next) || Shaped(e, bus, next + 1)
    requires next + 1 !in e.At(layer) && SlotShaped(to, layer, next + 1, bus, next + 1)
    requires forall j :: j in e.At(layer) ==> e.At(layer)[j].origin.id != to.origin.id
    requires layer == Connect ==> e.connect == map[]
    ensures Shaped(Put(e, layer, next + 1, to), bus, next + 1)
  {
    var n := next + 1;
    var f := Put(e, layer, n, to);
    OtherMaps(e, layer, Plus(e.At(layer), n, to));
    forall l ensures MapShaped(f.At(l), l, bus, n) {
      assert MapShaped(e.At(l), l, bus, next) || MapShaped(e.At(l), l, bus, next + 1);
    }
  }

  // ------------------------------------------------ a request takes its next step

  function Moved(e: Entries, layer: Layer, id: nat, n: nat, news: Exchange): Entries
    requires id in e.At(layer)
  {
    var to := e.At(layer)[id];
    Put(Left(e, layer, id), layer, n, to.(past := to.past + [news]))
  }

  lemma MoveOnFields(s: State, layer: Layer, id: nat, news: Exchange, remote: Remote)
    requires id in s.entries.At(layer)
    ensures MoveOn(s, layer, id, news, remote) == s.(
      link := s.link.(next := s.link.next + 1),
      traffic := Asked(s.traffic, s.link.next + 1, Call(layer, remote)),
      entries := Moved(s.entries, layer, id, s.link.next + 1, news))
  {
    OtherMaps(s.entries, layer, Minus(s.entries.At(layer), id));
  }

  lemma MovedCarried(s: State, layer: Layer, id: nat, news: Exchange, remote: Remote)
    requires Holding(s, Some(Key(layer, id))) && id in s.entries.At(layer) && layer != SelectService
    ensures var n := s.link.next + 1;
      Carried(Moved(s.entries, layer, id, n, news), Asked(s.traffic, n, Call(layer, remote)), None)
  {
    var e, q, n, to := s.entries, s.traffic, s.link.next + 1, s.entries.At(layer)[id];
    var after, g := to.(past := to.past + [news]), Left(e, layer, id);
    NothingAtNext(e, q, Some(Key(layer, id)), s.link.bus, s.link.next, layer);
    if to.target.Slot? {
      OuterThere(s, layer, id, Some(Key(layer, id)));
    }
    TakeCarried(e, q, layer, id, s.link.bus, s.link.next);
    hide Carried, Shaped, Laws, Settled, Owned;
    OtherMaps(e, layer, Minus(e.At(layer), id));
    PutCarried(g, q, layer, n, after);
    OtherMaps(g, layer, Plus(g.At(layer), n, after));
    AskedCarried(Put(g, layer, n, after), q, n, Call(layer, remote));
  }

  lemma MovedShaped(s: State, layer: Layer, id: nat, news: Exchange)
    requires Holding(s, Some(Key(layer, id))) && id in s.entries.At(layer) && layer != SelectService
    ensures var n := s.link.next + 1; Shaped(Moved(s.entries, layer, id, n, news), s.link.bus, n)
  {
    hide Holding, Carried, Shaped, Apart;
    var e, n, to := s.entries, s.link.next + 1, s.entries.At(layer)[id];
    AllParts(s, Some(Key(layer, id)));
    NothingAtNext(e, s.traffic, Some(Key(layer, id)), s.link.bus, s.link.next, layer);
    SlotAt(e, layer, id, s.link.bus, s.link.next);
    ApartAt(e, layer, s.link.bus, s.link.next);
    OneConnect(e, s.link.bus, s.link.next, id);
    LeftShaped(e, layer, id, s.link.bus, s.link.next);
    LeftIds(e, layer, id);
    hide Left;
    PutShaped(Left(e, layer, id), layer, to.(past := to.past + [news]), s.link.bus, s.link.next);
  }

  lemma LeftIds(e: Entries, layer: Layer, id: nat)
    requires id in e.At(layer) && Apart(e.At(layer))
    ensures Left(e, layer, id).At(layer) == Minus(e.At(layer), id)
    ensures forall j :: j in Minus(e.At(layer), id) ==> j in e.At(layer) && Minus(e.At(layer), id)[j] == e.At(layer)[j]
    ensures forall j :: j in Minus(e.At(layer), id) ==> e.At(layer)[j].origin.id != e.At(layer)[id].origin.id
  {
    OtherMaps(e, layer, Minus(e.At(layer), id));
  }

  lemma SlotAt(e: Entries, layer: Layer, id: nat, bus: nat, next: nat)
    requires Shaped(e, bus, next) && id in e.At(layer)
    ensures SlotShaped(e.At(layer)[id], layer, id, bus, next)
  {
    assert MapShaped(e.At(layer), layer, bus, next);
  }

  lemma MovedLaws(s: State, layer: Layer, id: nat, news: Exchange, remote: Remote)
    requires Holding(s, Some(Key(layer, id))) && id in s.entries.At(layer) && layer != SelectService
    requires var to := s.entries.At(layer)[id];
      forall ret :: Answers(remote, ret) ==> Fits(to.(past := to.past + [news]), layer, Told(remote, ret))
    ensures var n := s.link.next + 1; var f := Moved(s.entries, layer, id, n, news);
      && Agree(f) && CallLaws(f, Asked(s.traffic, n, Call(layer, remote)).pending) && PostLaws(f, s.traffic.queue)
  {
    var e, q, n, to := s.entries, s.traffic, s.link.next + 1, s.entries.At(layer)[id];
    var after, g, call := to.(past := to.past + [news]), Left(e, layer, id), Call(layer, remote);
    NothingAtNext(e, q, Some(Key(layer, id)), s.link.bus, s.link.next, layer);
    NothingElse(e, q, layer, id);
    OtherMaps(e, layer, Minus(e.At(layer), id));
    OtherMaps(g, layer, Plus(g.At(layer), n, after));
    hide Carried, Shaped, Settled, Owned, GetLaws, ConnectLaws, Fits, Served;
    LeftCalls(e, q, layer, id);
    LeftAgree(e, layer, id);
    PutCalls(g, q, layer, n, after);
    AskedCalls(Put(g, layer, n, after), q, n, call);
    PutAgree(g, layer, n, after);
  }

  lemma MovedSettled(s: State, layer: Layer, id: nat, news: Exchange)
    requires Holding(s, Some(Key(layer, id))) && id in s.entries.At(layer)
    ensures var n := s.link.next + 1; var f := Moved(s.entries, layer, id, n, news);
      Settled(f, s.log) && Owned(f, s.log, s.link.(next := n))
  {
    var e, n := s.entries, s.link.next + 1;
    NothingAtNext(e, s.traffic, Some(Key(layer, id)), s.link.bus, s.link.next, layer);
    ApartAt(e, layer, s.link.bus, s.link.next);
    hide Carried, Shaped, Laws, Settled, Owned, Apart, Moved;
    MovedStands(e, s.log, layer, id, n, news);
    MovedOwned(e, s.log, s.link, layer, id, n, news);
  }

  lemma MovedStands(e: Entries, log: Log, layer: Layer, id: nat, n: nat, news: Exchange)
    requires Settled(e, log) && id in e.At(layer) && n !in e.At(layer) && Apart(e.At(layer))
    ensures Settled(Moved(e, layer, id, n, news), log)
  {
    var to := e.At(layer)[id];
    var after, g, f := to.(past := to.past + [news]), Left(e, layer, id), Moved(e, layer, id, n, news);
    OtherMaps(e, layer, Minus(e.At(layer), id));
    OtherMaps(g, layer, Plus(g.At(layer), n, after));
    hide StandsFor, Completed, Apart, Moved;
    forall k ensures SettledAt(f, log, k) {
      assert SettledAt(e, log, k);
      if k in log.accepted && log.accepted[k].layer == layer {
        MinusStands(e.At(layer), id, k, log.accepted[k].user);
        PlusStands(g.At(layer), n, after, k, log.accepted[k].user);
      }
    }
  }

  lemma MovedOwned(e: Entries, log: Log, link: Link, layer: Layer, id: nat, n: nat, news: Exchange)
    requires Owned(e, log, link) && id in e.At(layer) && n !in e.At(layer) && link.next <= n
    ensures Owned(Moved(e, layer, id, n, news), log, link.(next := n))
  {
    var to := e.At(layer)[id];
    var g, f := Left(e, layer, id), Moved(e, layer, id, n, news);
    OtherMaps(e, layer, Minus(e.At(layer), id));
    OtherMaps(g, layer, Plus(g.At(layer), n, to.(past := to.past + [news])));
    hide CompletionsOwned;
    forall l ensures MapOwned(f.At(l), l, log.accepted) {
      assert MapOwned(e.At(l), l, log.accepted);
    }
  }

  lemma ProceedGetLaws(e: Entries, statuses: map<nat, Status>, id: nat, n: nat, news: Exchange, status: Status)
    requires GetLaws(e.get, statuses) && id in e.get && Apart(e.get) && n !in e.get
    requires var to := e.get[id]; GetLaw(to.(past := to.past + [news]), map[to.origin.id := status])
    ensures var k := e.get[id].origin.id;
      && GetLaws(Moved(e, GetService, id, n, news).get, statuses[k := status])
      && GetLaws(Left(e, GetService, id).get, (statuses - {k})[k := status])
  {
    hide GetChain;
    var m, to := e.get, e.get[id];
    var f, g := Moved(e, GetService, id, n, news).get, Left(e, GetService, id).get;
    assert g == Minus(m, id) && f == Plus(g, n, to.(past := to.past + [news]));
    hide Moved, Left;
    forall j | j in f ensures GetLaw(f[j], statuses[to.origin.id := status]) {
      if j != n {
        assert GetLaw(m[j], statuses);
      }
    }
    forall j | j in g ensures GetLaw(g[j], (statuses - {to.origin.id})[to.origin.id := status]) {
      assert GetLaw(m[j], statuses);
    }
  }

  lemma ProceedKeeps(s: State, id: nat, news: Exchange, status: Status, remote: Remote)
    requires Holding(s, Some(Key(GetService, id))) && id in s.entries.get
    requires var to := s.entries.get[id];
      var past := to.past + [news];
      && GetLaw(to.(past := past), map[to.origin.id := status.(step := status.step + 1)])
      && remote == GetCall(past, status.name)
      && GetEnds(past, status.name, NOT_CONNECTED)
    ensures Inv(Proceed(s, id, news, status, remote))
  {
    if s.link.connected {
      ProceedMoves(s, id, news, status.(step := status.step + 1), remote);
    } else {
      ProceedFails(s, id, news, status.(step := status.step + 1));
    }
  }

  lemma ProceedFails(s: State, id: nat, news: Exchange, status: Status)
    requires Holding(s, Some(Key(GetService, id))) && id in s.entries.get
    requires var to := s.entries.get[id];
      GetLaw(to.(past := to.past + [news]), map[to.origin.id := status]) && GetEnds(to.past + [news], status.name, NOT_CONNECTED)
    ensures var t, k := Finish(s, GetService, id, news, NOT_CONNECTED), s.entries.get[id].origin.id;
      Inv(t.(status := t.status[k := status]))
  {
    hide Holding, GetEnds, GetChain, Apart;
    AllParts(s, Some(Key(GetService, id)));
    ApartAt(s.entries, GetService, s.link.bus, s.link.next);
    NothingAtNext(s.entries, s.traffic, Some(Key(GetService, id)), s.link.bus, s.link.next, GetService);
    ProceedGetLaws(s.entries, s.status, id, s.link.next + 1, news, status);
    hide GetLaws, Carried, Shaped, Settled, Owned, Agree, ConnectLaws, CallLaws, PostLaws, AllLawful;
    FinishKeeps(s, s, GetService, id, news, NOT_CONNECTED);
    FinishFields(s, GetService, id, news, NOT_CONNECTED);
    hide Finish, Left, GetLaws;
    var t, k := Finish(s, GetService, id, news, NOT_CONNECTED), s.entries.get[id].origin.id;
    assert t.status == s.status - {k};
    NewStatus(t, t.status[k := status]);
  }

  lemma NewStatus(t: State, statuses: map<nat, Status>)
    requires Inv(t) && GetLaws(t.entries.get, statuses)
    ensures Inv(t.(status := statuses))
  {
    hide Carried, Shaped, Settled, Owned, Agree, CallLaws, PostLaws, GetLaws;
  }

  lemma ProceedMoves(s: State, id: nat, news: Exchange, status: Status, remote: Remote)
    requires Holding(s, Some(Key(GetService, id))) && id in s.entries.get
    requires var to := s.entries.get[id];
      var past := to.past + [news];
      GetLaw(to.(past := past), map[to.origin.id := status]) && remote == GetCall(past, status.name)
    ensures var t, k := MoveOn(s, GetService, id, news, remote), s.entries.get[id].origin.id;
      Inv(t.(status := t.status[k := status]))
  {
    hide Holding, GetChain, MoveOn, Moved, Apart, Agree, CallLaws, PostLaws, GetLaws, Carried, Shaped, Settled, Owned, ConnectLaws, AllLawful;
    var n, t, k := s.link.next + 1, MoveOn(s, GetService, id, news, remote), s.entries.get[id].origin.id;
    AllParts(s, Some(Key(GetService, id)));
    ApartAt(s.entries, GetService, s.link.bus, s.link.next);
    NothingAtNext(s.entries, s.traffic, Some(Key(GetService, id)), s.link.bus, s.link.next, GetService);
    ProceedGetLaws(s.entries, s.status, id, n, news, status);
    MovedCarried(s, GetService, id, news, remote);
    MovedShaped(s, GetService, id, news);
    MovedLaws(s, GetService, id, news, remote);
    MovedSettled(s, GetService, id, news);
    MoveOnFields(s, GetService, id, news, remote);
    MovedConnect(s.entries, GetService, id, n, news);
    NextConnectLaws(s.entries.connect, s.link, s.link.(next := n));
    Assemble(t.(status := t.status[k := status]));
  }

  lemma NextConnectLaws(m: map<nat, ObjectSlot>, link: Link, after: Link)
    requires ConnectLaws(m, link) && after == link.(next := after.next)
    ensures ConnectLaws(m, after)
  {
    hide ConnectChain;
    forall j | j in m ensures ConnectLaw(m[j], after) {
      assert ConnectLaw(m[j], link);
    }
  }

  lemma Assemble(t: State)
    requires Carried(t.entries, t.traffic, None) && Shaped(t.entries, t.link.bus, t.link.next)
    requires GetLaws(t.entries.get, t.status) && Agree(t.entries) && ConnectLaws(t.entries.connect, t.link)
    requires CallLaws(t.entries, t.traffic.pending) && PostLaws(t.entries, t.traffic.queue)
    requires AllLawful(t.log.completions) && Settled(t.entries, t.log) && Owned(t.entries, t.log, t.link)
    requires NoneStale(t.traffic) && (t.link.connected ==> t.link.next >= 1)
    ensures Inv(t)
  {
    hide Carried, Shaped, Settled, Owned, Agree, CallLaws, PostLaws, GetLaws, ConnectLaws, AllLawful;
  }

  lemma MovedConnect(e: Entries, layer: Layer, id: nat, n: nat, news: Exchange)
    requires id in e.At(layer) && layer == GetService
    ensures Moved(e, layer, id, n, news).connect == e.connect
  {
  }

  lemma ChainGrows(past: seq<Exchange>, name: QString, news: Exchange)
    requires GetChain(past, name) && NoErrors(past) && |past| <= 3
    requires news.Told? && news.remote == GetCall(past, name)
    requires |past| == 3 ==> past[2].remote == Select(name) && past[2].ret.IsService()
    ensures GetChain(past + [news], name)
  {
    var all := past + [news];
    forall i | 0 <= i < |all| ensures all[i].Told? && all[i].remote == GetCall(all[..i], name) {
      if i < |past| {
        assert all[i] == past[i] && all[..i] == past[..i];
      } else {
        assert all[..i] == past;
      }
    }
    assert all[..|all| - 1] == past;
  }

  /** What one more reply makes of the chain, at each step. */
  lemma HeardChain(to: ObjectSlot, statuses: map<nat, Status>, news: Exchange)
    requires GetLaw(to, statuses) && Fits(to, GetService, news)
    ensures var status, past := statuses[to.origin.id], to.past + [news];
      && GetChain(past, status.name) && past[|past| - 1] == news && |past| == status.step + 1
      && NoErrors(past[..|past| - 1])
      && (status.step == 2 ==> (status.version == 0 <==> news.remote == SelectOriginal(status.name)))
      && (status.step == 3 ==> past[2].ret == status.result)
      && (status.step <= 1 ==> news.remote == Version)
      && (status.step == 3 ==> news.remote == Auth)
  {
    var status, past := statuses[to.origin.id], to.past + [news];
    if |to.past| == 3 {
      ThirdCall(to.past, status.name);
    }
    ChainGrows(to.past, status.name, news);
    assert past[..|past| - 1] == to.past;
  }

  lemma HeardEnds(to: ObjectSlot, statuses: map<nat, Status>, news: Exchange)
    requires GetLaw(to, statuses) && Fits(to, GetService, news)
    ensures var status, past := statuses[to.origin.id], to.past + [news];
      && (news.ret.IsError() ==> GetEnds(past, status.name, news.ret))
      && (!news.ret.IsError() && status.step == 2 && status.version == 0 ==> GetEnds(past, status.name, news.ret))
      && (!news.ret.IsError() && status.step == 3 ==> GetEnds(past, status.name, status.result))
      && (!news.ret.IsError() && (status.step < 2 || (status.step == 2 && status.version != 0)) ==>
            GetEnds(past, status.name, NOT_CONNECTED))
  {
    HeardChain(to, statuses, news);
    hide GetChain, Fits, GetLaw;
  }

  lemma HeardLaw(to: ObjectSlot, statuses: map<nat, Status>, news: Exchange, next: Status)
    requires GetLaw(to, statuses) && Fits(to, GetService, news) && !news.ret.IsError()
    requires var status := statuses[to.origin.id];
      || (status.step == 0 && next == status.(step := 1))
      || (status.step == 1 && next == status.(step := 2, version := ToInt(news.ret.value)))
      || (status.step == 2 && status.version != 0 && news.ret.IsService() && next == status.(step := 3, result := news.ret))
    ensures GetLaw(to.(past := to.past + [news]), map[to.origin.id := next])
    ensures GetCall(to.past + [news], next.name) == RemoteAt(next)
  {
    HeardChain(to, statuses, news);
    hide GetChain, Fits;
    var past := to.past + [news];
    assert NoErrors(past) by {
      forall i | 0 <= i < |past| ensures !past[i].ret.IsError() {
        assert i < |past| - 1 ==> past[i] == past[..|past| - 1][i];
      }
    }
  }

  /** The call a getService makes at a step. */
  function RemoteAt(status: Status): Remote {
    if status.step <= 1 then Version
    else if status.step == 2 then if status.version == 0 then SelectOriginal(status.name) else Select(status.name)
    else Auth
  }

  lemma GetServiceKeeps(s: State, id: nat, news: Exchange)
    requires Holding(s, Some(Key(GetService, id))) && Known(s, id) && Selects(s, id, news.ret)
    requires Fits(s.entries.get[id], GetService, news)
    ensures Inv(GetServiceCompleted(s, id, news))
  {
    hide Holding, Finish, Proceed, GetEnds, Fits, GetLaw;
    var to, ret := s.entries.get[id], news.ret;
    EntryLaw(s, id);
    HeardEnds(to, s.status, news);
    var status := s.status[to.origin.id];
    if ret.IsError() || status.step == 3 || (status.step == 2 && status.version == 0) {
      FinishKeeps(s, if !ret.IsError() && status.step == 2 then s.(taken := Some(Original)) else s, GetService, id, news,
                  if ret.IsError() || status.step == 2 then ret else status.result);
    } else {
      var heard := if status.step == 0 then status else if status.step == 1 then status.(version := ToInt(ret.value))
                   else status.(result := ret);
      var next := heard.(step := status.step + 1);
      HeardLaw(to, s.status, news, next);
      ProceedKeeps(s, id, news, heard, RemoteAt(next));
    }
  }

  lemma EntryLaw(s: State, id: nat)
    requires Holding(s, Some(Key(GetService, id))) && id in s.entries.get
    ensures GetLaw(s.entries.get[id], s.status)
    ensures s.entries.get[id].origin.id in s.status
    ensures var status := s.status[s.entries.get[id].origin.id];
      status.step <= 3 && s.entries.get[id].origin.name == Some(status.name)
  {
    AllParts(s, Some(Key(GetService, id)));
  }

  lemma ThirdCall(past: seq<Exchange>, name: QString)
    requires GetChain(past, name) && |past| == 3
    ensures past[2].remote == if ToInt(past[1].ret.value) == 0 then SelectOriginal(name) else Select(name)
  {
    assert past[2].remote == GetCall(past[..2], name) && past[..2][1] == past[1];
  }

  // --------------------------------------------------------- new requests

  function Got(e: Entries, n: nat, target: Target, origin: Origin): Entries {
    Put(e, GetService, n, ObjectSlot(target, origin, []))
  }

  function Selecting(e: Entries, n: nat, target: Target, origin: Origin): Entries {
    Got(Put(e, SelectService, n, ObjectSlot(target, origin, [])), n, Slot(SelectService), origin)
  }

  const FIRST_CALL := Call(GetService, Version)

  /** Nothing is under the id yet. */
  ghost predicate Fresh(e: Entries, q: Traffic, n: nat) {
    && n !in e.get && n !in e.select && n !in e.connect && n !in q.pending
    && (forall j :: j in e.get ==> e.get[j].origin.id != n)
    && (forall j :: j in e.select ==> e.select[j].origin.id != n)
  }

  lemma NextFresh(e: Entries, q: Traffic, hand: Option<Key>, bus: nat, next: nat)
    requires Carried(e, q, hand) && Shaped(e, bus, next)
    ensures Fresh(e, q, next + 1)
  {
    hide Carried, Shaped;
    NothingAtNext(e, q, hand, bus, next, GetService);
    NothingAtNext(e, q, hand, bus, next, SelectService);
    NothingAtNext(e, q, hand, bus, next, Connect);
  }

  /** A new getService waits for its first call; a new selectService waits for its getService. */
  lemma GotCarried(e: Entries, q: Traffic, n: nat, target: Target, origin: Origin)
    requires Carried(e, q, WaitsFor(ObjectSlot(target, origin, []))) && n !in e.get && n !in q.pending
    requires target.User? || (target == Slot(SelectService) && origin.id in e.select)
    ensures Carried(Got(e, n, target, origin), Asked(q, n, FIRST_CALL), None)
  {
    hide Carried;
    PutCarried(e, q, GetService, n, ObjectSlot(target, origin, []));
    AskedCarried(Got(e, n, target, origin), q, n, FIRST_CALL);
  }

  lemma SelectingCarried(e: Entries, q: Traffic, n: nat, target: Target, origin: Origin)
    requires Carried(e, q, WaitsFor(ObjectSlot(target, origin, [])))
    requires n !in e.get && n !in e.select && n !in q.pending && origin.id == n
    requires target.User? || (target == Slot(Connect) && n in e.connect)
    ensures Carried(Selecting(e, n, target, origin), Asked(q, n, FIRST_CALL), None)
  {
    hide Carried;
    PutCarried(e, q, SelectService, n, ObjectSlot(target, origin, []));
    GotCarried(Put(e, SelectService, n, ObjectSlot(target, origin, [])), q, n, Slot(SelectService), origin);
  }

  lemma GotShaped(e: Entries, n: nat, target: Target, origin: Origin, bus: nat)
    requires n >= 2 && (Shaped(e, bus, n - 1) || Shaped(e, bus, n)) && n !in e.get
    requires origin.bus == bus && origin.id == n && origin.name.Some?
    requires forall j :: j in e.get ==> e.get[j].origin.id != n
    requires target.User? || target == Slot(SelectService)
    ensures Shaped(Got(e, n, target, origin), bus, n)
  {
    hide Shaped;
    PutShaped(e, GetService, ObjectSlot(target, origin, []), bus, n - 1);
  }

  lemma SelectingShaped(e: Entries, n: nat, target: Target, origin: Origin, bus: nat)
    requires n >= 2 && (Shaped(e, bus, n - 1) || Shaped(e, bus, n)) && n !in e.get && n !in e.select
    requires origin.bus == bus && origin.id == n && origin.name.Some?
    requires forall j :: j in e.get ==> e.get[j].origin.id != n
    requires forall j :: j in e.select ==> e.select[j].origin.id != n
    requires target.User? || target == Slot(Connect)
    ensures Shaped(Selecting(e, n, target, origin), bus, n)
  {
    hide Shaped;
    PutShaped(e, SelectService, ObjectSlot(target, origin, []), bus, n - 1);
    GotShaped(Put(e, SelectService, n, ObjectSlot(target, origin, [])), n, Slot(SelectService), origin, bus);
  }

  lemma GotLaws(e: Entries, q: Traffic, statuses: map<nat, Status>, n: nat, target: Target, origin: Origin)
    requires GetLaws(e.get, statuses) && Agree(e) && CallLaws(e, q.pending) && PostLaws(e, q.queue)
    requires n !in e.get && origin.id == n && origin.name.Some? && forall j :: j in e.get ==> e.get[j].origin.id != n
    requires target == Slot(SelectService) ==> n in e.select && e.select[n].origin == origin
    ensures var f, r := Got(e, n, target, origin), Asked(q, n, FIRST_CALL);
      && GetLaws(f.get, statuses[n := Status(0, origin.name.value, 0, DEFAULT_RETURN)])
      && Agree(f) && CallLaws(f, r.pending) && PostLaws(f, r.queue)
  {
    var to, f := ObjectSlot(target, origin, []), Got(e, n, target, origin);
    PutCalls(e, q, GetService, n, to);
    PutAgree(e, GetService, n, to);
    AskedCalls(f, q, n, FIRST_CALL);
    hide GetChain, Agree, CallLaws, PostLaws;
    var after := statuses[n := Status(0, origin.name.value, 0, DEFAULT_RETURN)];
    assert GetChain([], origin.name.value) by { EmptyChain(origin.name.value); }
    forall j | j in f.get ensures GetLaw(f.get[j], after) {
      if j != n {
        assert GetLaw(e.get[j], statuses);
      }
    }
  }

  lemma EmptyChain(name: QString)
    ensures GetChain([], name)
  {
  }

  lemma SelectingLaws(e: Entries, q: Traffic, statuses: map<nat, Status>, n: nat, target: Target, origin: Origin)
    requires GetLaws(e.get, statuses) && Agree(e) && CallLaws(e, q.pending) && PostLaws(e, q.queue)
    requires n !in e.get && n !in e.select && origin.id == n && origin.name.Some?
    requires forall j :: j in e.get ==> e.get[j].origin.id != n
    requires target == Slot(Connect) ==>
               n in e.connect && |e.connect[n].past| == 2 && e.connect[n].origin.name == origin.name
    ensures var f, r := Selecting(e, n, target, origin), Asked(q, n, FIRST_CALL);
      && GetLaws(f.get, statuses[n := Status(0, origin.name.value, 0, DEFAULT_RETURN)])
      && Agree(f) && CallLaws(f, r.pending) && PostLaws(f, r.queue)
  {
    var to := ObjectSlot(target, origin, []);
    PutCalls(e, q, SelectService, n, to);
    PutAgree(e, SelectService, n, to);
    hide GetLaws, Agree, CallLaws, PostLaws;
    GotLaws(Put(e, SelectService, n, to), q, statuses, n, Slot(SelectService), origin);
  }

  /** An entry for an inner request is nobody's. */
  lemma PutInner(e: Entries, log: Log, link: Link, layer: Layer, n: nat, to: ObjectSlot)
    requires Settled(e, log) && Owned(e, log, link) && n !in e.At(layer) && to.target.Slot?
    ensures Settled(Put(e, layer, n, to), log) && Owned(Put(e, layer, n, to), log, link)
  {
    var f := Put(e, layer, n, to);
    OtherMaps(e, layer, Plus(e.At(layer), n, to));
    hide StandsFor, Completed, CompletionsOwned;
    forall k ensures SettledAt(f, log, k) {
      assert SettledAt(e, log, k);
      if k in log.accepted && log.accepted[k].layer == layer {
        PlusStands(e.At(layer), n, to, k, log.accepted[k].user);
      }
    }
    forall l ensures MapOwned(f.At(l), l, log.accepted) {
      assert MapOwned(e.At(l), l, log.accepted);
    }
  }

  function Recorded(log: Log, origin: Origin, layer: Layer, user: nat): Log {
    log.(accepted := log.accepted[origin := Request(layer, user)])
  }

  /** The entry of a new request, as yet nobody's. */
  lemma PutNew(e: Entries, log: Log, link: Link, after: Link, layer: Layer, n: nat, to: ObjectSlot)
    requires Settled(e, log) && Owned(e, log, link) && n !in e.At(layer) && to.target.User?
    requires to.origin !in log.accepted
    requires Covers(log, after)
    requires to.origin.bus == after.bus && to.origin.id <= after.next
    ensures var t := Recorded(log, to.origin, layer, to.target.user);
      Settled(Put(e, layer, n, to), t) && Owned(Put(e, layer, n, to), t, after)
  {
    var f, t := Put(e, layer, n, to), Recorded(log, to.origin, layer, to.target.user);
    OtherMaps(e, layer, Plus(e.At(layer), n, to));
    hide StandsFor, Completed;
    forall k ensures SettledAt(f, t, k) {
      assert SettledAt(e, log, k);
      if k in t.accepted && t.accepted[k].layer == layer {
        PlusStands(e.At(layer), n, to, k, t.accepted[k].user);
      }
    }
    hide Settled;
    forall l ensures MapOwned(f.At(l), l, t.accepted) {
      assert MapOwned(e.At(l), l, log.accepted);
    }
  }

  lemma NewOrigin(s: State, hand: Option<Key>, name: Option<QString>)
    requires Holding(s, hand)
    ensures NextOrigin(s, name) !in s.log.accepted
  {
    hide Carried, Shaped, Laws, Settled, MapOwned, CompletionsOwned;
  }

  lemma GetKeeps(s: State, user: nat, name: QString)
    requires Inv(s) && s.link.connected
    ensures Inv(Accept(BeginGet(s, User(user), name), GetService, user, NextOrigin(s, Some(name))))
  {
    var e, q, n, origin := s.entries, s.traffic, s.link.next + 1, NextOrigin(s, Some(name));
    NewOrigin(s, None, Some(name));
    AllParts(s, None);
    NextFresh(e, q, None, s.link.bus, s.link.next);
    hide Carried, Shaped, Settled, Owned, GetLaws, Agree, CallLaws, PostLaws, ConnectLaws;
    GotCarried(e, q, n, User(user), origin);
    GotShaped(e, n, User(user), origin, s.link.bus);
    GotLaws(e, q, s.status, n, User(user), origin);
    hide Fresh;
    PutNew(e, s.log, s.link, s.link.(next := n), GetService, n, ObjectSlot(User(user), origin, []));
    NextConnectLaws(e.connect, s.link, s.link.(next := n));
    hide Got;
    var t := Accept(BeginGet(s, User(user), name), GetService, user, origin);
    assert t.entries == Got(e, n, User(user), origin) by { GotFields(e, n, User(user), origin); }
    assert t.entries.connect == e.connect;
    Assemble(t);
  }

  lemma GotFields(e: Entries, n: nat, target: Target, origin: Origin)
    ensures Got(e, n, target, origin) == e.(get := Plus(e.get, n, ObjectSlot(target, origin, [])))
    ensures Selecting(e, n, target, origin) == e.(
      get := Plus(e.get, n, ObjectSlot(Slot(SelectService), origin, [])),
      select := Plus(e.select, n, ObjectSlot(target, origin, [])))
  {
  }

  lemma SelectKeeps(s: State, user: nat, name: QString)
    requires Inv(s) && s.link.connected
    ensures Inv(Accept(BeginSelect(s, User(user), name), SelectService, user, NextOrigin(s, Some(name))))
  {
    var e, q, n, origin := s.entries, s.traffic, s.link.next + 1, NextOrigin(s, Some(name));
    var to, after := ObjectSlot(User(user), origin, []), s.link.(next := n);
    NewOrigin(s, None, Some(name));
    AllParts(s, None);
    NextFresh(e, q, None, s.link.bus, s.link.next);
    hide Carried, Shaped, Settled, Owned, GetLaws, Agree, CallLaws, PostLaws, ConnectLaws;
    SelectingCarried(e, q, n, User(user), origin);
    SelectingShaped(e, n, User(user), origin, s.link.bus);
    SelectingLaws(e, q, s.status, n, User(user), origin);
    OtherMaps(e, SelectService, Plus(e.select, n, to));
    hide Fresh;
    PutNew(e, s.log, s.link, after, SelectService, n, to);
    PutInner(Put(e, SelectService, n, to), Recorded(s.log, origin, SelectService, user), after, GetService, n,
             ObjectSlot(Slot(SelectService), origin, []));
    NextConnectLaws(e.connect, s.link, after);
    GotFields(e, n, User(user), origin);
    hide Put;
    Assemble(Accept(BeginSelect(s, User(user), name), SelectService, user, origin));
  }

  // --------------------------------------------------------------- connect

  lemma SelectInsideFields(s: State, id: nat, news: Exchange, name: QString)
    requires id in s.entries.connect
    ensures var n, origin := s.link.next + 1, NextOrigin(s, Some(name));
      SelectInside(s, id, news, name) == s.(
        link := s.link.(next := n),
        traffic := Asked(s.traffic, n, FIRST_CALL),
        entries := Selecting(Moved(s.entries, Connect, id, n, news), n, Slot(Connect), origin),
        status := s.status[n := Status(0, name, 0, DEFAULT_RETURN)])
  {
    var n, origin := s.link.next + 1, NextOrigin(s, Some(name));
    GotFields(Moved(s.entries, Connect, id, n, news), n, Slot(Connect), origin);
  }

  /** A connect taken up again under a new id, before anything is asked for it. */
  lemma ConnectMoved(s: State, id: nat, news: Exchange)
    requires Holding(s, Some(Key(Connect, id))) && id in s.entries.connect
    ensures var n := s.link.next + 1; var f := Moved(s.entries, Connect, id, n, news);
      && Carried(f, s.traffic, Some(Key(Connect, n)))
      && Agree(f) && CallLaws(f, s.traffic.pending) && PostLaws(f, s.traffic.queue)
      && f.get == s.entries.get && f.select == s.entries.select
      && f.connect == map[n := s.entries.connect[id].(past := s.entries.connect[id].past + [news])]
  {
    var e, q, n, to := s.entries, s.traffic, s.link.next + 1, s.entries.connect[id];
    var after, g := to.(past := to.past + [news]), Left(e, Connect, id);
    NothingAtNext(e, q, Some(Key(Connect, id)), s.link.bus, s.link.next, Connect);
    NothingElse(e, q, Connect, id);
    OneConnect(e, s.link.bus, s.link.next, id);
    SlotAt(e, Connect, id, s.link.bus, s.link.next);
    TakeCarried(e, q, Connect, id, s.link.bus, s.link.next);
    hide Carried, Shaped, Settled, Owned, GetLaws, ConnectLaws, Fits, Served;
    OtherMaps(e, Connect, Minus(e.connect, id));
    OtherMaps(g, Connect, Plus(g.connect, n, after));
    LeftCalls(e, q, Connect, id);
    LeftAgree(e, Connect, id);
    PutCarried(g, q, Connect, n, after);
    PutCalls(g, q, Connect, n, after);
    PutAgree(g, Connect, n, after);
  }

  function Inside(s: State, id: nat, news: Exchange, name: QString): Entries
    requires id in s.entries.connect
  {
    var n := s.link.next + 1;
    Selecting(Moved(s.entries, Connect, id, n, news), n, Slot(Connect), NextOrigin(s, Some(name)))
  }

  lemma InsideCarried(s: State, id: nat, news: Exchange, name: QString)
    requires Holding(s, Some(Key(Connect, id))) && id in s.entries.connect && s.link.connected
    ensures var n := s.link.next + 1;
      && Carried(Inside(s, id, news, name), Asked(s.traffic, n, FIRST_CALL), None)
      && Shaped(Inside(s, id, news, name), s.link.bus, n)
  {
    hide Holding, Carried, Shaped, Settled, Owned, GetLaws, Agree, CallLaws, PostLaws, ConnectLaws, AllLawful, Moved, Selecting, StandsFor;
    var n, f, origin := s.link.next + 1, Moved(s.entries, Connect, id, s.link.next + 1, news), NextOrigin(s, Some(name));
    AllParts(s, Some(Key(Connect, id)));
    NextFresh(s.entries, s.traffic, Some(Key(Connect, id)), s.link.bus, s.link.next);
    ConnectMoved(s, id, news);
    MovedShaped(s, Connect, id, news);
    SelectingCarried(f, s.traffic, n, Slot(Connect), origin);
    SelectingShaped(f, n, Slot(Connect), origin, s.link.bus);
  }

  lemma InsideLaws(s: State, id: nat, news: Exchange, name: QString)
    requires Holding(s, Some(Key(Connect, id))) && id in s.entries.connect && s.link.connected
    requires |s.entries.connect[id].past| == 1 && s.entries.connect[id].origin.name == Some(name)
    ensures var n, g := s.link.next + 1, Inside(s, id, news, name);
      && GetLaws(g.get, s.status[n := Status(0, name, 0, DEFAULT_RETURN)])
      && Agree(g) && CallLaws(g, Asked(s.traffic, n, FIRST_CALL).pending) && PostLaws(g, s.traffic.queue)
      && g.connect == map[n := s.entries.connect[id].(past := s.entries.connect[id].past + [news])]
  {
    hide Holding, Carried, Shaped, Settled, Owned, GetLaws, Agree, CallLaws, PostLaws, ConnectLaws, AllLawful, Moved, Selecting, StandsFor;
    var n, f, origin := s.link.next + 1, Moved(s.entries, Connect, id, s.link.next + 1, news), NextOrigin(s, Some(name));
    AllParts(s, Some(Key(Connect, id)));
    NextFresh(s.entries, s.traffic, Some(Key(Connect, id)), s.link.bus, s.link.next);
    ConnectMoved(s, id, news);
    SelectingLaws(f, s.traffic, s.status, n, Slot(Connect), origin);
    GotFields(f, n, Slot(Connect), origin);
  }

  lemma InsideSettled(s: State, id: nat, news: Exchange, name: QString)
    requires Holding(s, Some(Key(Connect, id))) && id in s.entries.connect
    ensures Settled(Inside(s, id, news, name), s.log)
    ensures Owned(Inside(s, id, news, name), s.log, s.link.(next := s.link.next + 1))
  {
    hide Holding, Carried, Shaped, Settled, Owned, GetLaws, Agree, CallLaws, PostLaws, ConnectLaws, AllLawful, Moved, Selecting, StandsFor;
    var n := s.link.next + 1;
    AllParts(s, Some(Key(Connect, id)));
    NextFresh(s.entries, s.traffic, Some(Key(Connect, id)), s.link.bus, s.link.next);
    MovedSettled(s, Connect, id, news);
    ConnectMoved(s, id, news);
    SelectingInner(Moved(s.entries, Connect, id, n, news), s.log, s.link.(next := n), n, NextOrigin(s, Some(name)));
  }

  lemma SelectInsideKeeps(s: State, id: nat, news: Exchange, name: QString, link: Link)
    requires Holding(s, Some(Key(Connect, id))) && id in s.entries.connect && s.link.connected
    requires link == s.link.(service := None)
    requires var to := s.entries.connect[id];
      && |to.past| == 1 && to.origin.name == Some(name)
      && ConnectLaw(to.(past := to.past + [news]), link)
    ensures Inv(SelectInside(s.(link := link), id, news, name))
  {
    hide Holding, Carried, Shaped, Settled, Owned, GetLaws, Agree, CallLaws, PostLaws, AllLawful, Inside, SelectInside, Moved, Selecting, ConnectLaw;
    var n, t := s.link.next + 1, SelectInside(s.(link := link), id, news, name);
    AllParts(s, Some(Key(Connect, id)));
    InsideCarried(s, id, news, name);
    InsideLaws(s, id, news, name);
    InsideSettled(s, id, news, name);
    SelectInsideFields(s.(link := link), id, news, name);
    InsideAgain(s, id, news, name, link);
    OwnedLink(t.entries, s.log, s.link.(next := n), link.(next := n));
    NextConnectLaws(t.entries.connect, link, link.(next := n));
    Assemble(t);
  }

  lemma InsideAgain(s: State, id: nat, news: Exchange, name: QString, link: Link)
    requires id in s.entries.connect && link == s.link.(service := link.service)
    ensures SelectInside(s.(link := link), id, news, name).entries == Inside(s, id, news, name)
  {
    SelectInsideFields(s.(link := link), id, news, name);
    hide Moved, Selecting, SelectInside;
  }

  lemma OwnedLink(e: Entries, log: Log, link: Link, after: Link)
    requires Owned(e, log, link) && after.bus == link.bus && after.next == link.next
    ensures Owned(e, log, after)
  {
    hide MapOwned, CompletionsOwned;
  }

  lemma SelectingInner(e: Entries, log: Log, link: Link, n: nat, origin: Origin)
    requires Settled(e, log) && Owned(e, log, link) && n !in e.get && n !in e.select
    ensures var f := Selecting(e, n, Slot(Connect), origin); Settled(f, log) && Owned(f, log, link)
  {
    hide Settled, Owned;
    var to := ObjectSlot(Slot(Connect), origin, []);
    OtherMaps(e, SelectService, Plus(e.select, n, to));
    PutInner(e, log, link, SelectService, n, to);
    PutInner(Put(e, SelectService, n, to), log, link, GetService, n, ObjectSlot(Slot(SelectService), origin, []));
  }

  lemma ConnectGrows(to: ObjectSlot, link: Link, news: Exchange)
    requires ConnectLaw(to, link) && Fits(to, Connect, news)
    ensures var past := to.past + [news];
      && |past| == |to.past| + 1 && past[|past| - 1] == news
      && ConnectChain(past, to.origin.name) && (!news.ret.IsError() ==> NoErrors(past))
  {
    hide SelectEnds;
    var past := to.past + [news];
    assert past[..|past| - 1] == to.past;
    assert forall i :: 0 <= i < |to.past| ==> past[i] == to.past[i];
  }

  lemma HeardConnect(to: ObjectSlot, link: Link, news: Exchange)
    requires ConnectLaw(to, link) && Fits(to, Connect, news)
    ensures var past, path, ret := to.past + [news], to.origin.name, news.ret;
      && (ret.IsError() || (!link.setDefaultToken && link.service.None?) ==> ConnectEnds(past, path, ret))
      && (!ret.IsError() && (link.setDefaultToken || link.service.Some?) ==> ConnectEnds(past, path, NOT_CONNECTED))
      && (!ret.IsError() && link.setDefaultToken ==> ConnectLaw(to.(past := past), link.(setDefaultToken := false)))
      && (!ret.IsError() && link.setDefaultToken ==> |to.past| == 0)
      && (!ret.IsError() && !link.setDefaultToken && link.service.Some? ==>
            |to.past| == 1 && path == link.service && ConnectLaw(to.(past := past), link.(service := None)))
  {
    ConnectGrows(to, link, news);
    hide ConnectChain, NoErrors, Fits;
  }

  lemma ConnectMovesKeeps(s: State, id: nat, news: Exchange, link: Link)
    requires Holding(s, Some(Key(Connect, id))) && id in s.entries.connect && s.link.connected
    requires link == s.link.(setDefaultToken := false)
    requires var to := s.entries.connect[id]; |to.past| == 0 && ConnectLaw(to.(past := to.past + [news]), link)
    ensures Inv(MoveOn(s.(link := link), Connect, id, news, SetDefaultToken))
  {
    hide Holding, Carried, Shaped, Settled, Owned, GetLaws, Agree, CallLaws, PostLaws, AllLawful, ConnectLaw, MoveOn, Moved;
    var n, t := s.link.next + 1, MoveOn(s.(link := link), Connect, id, news, SetDefaultToken);
    AllParts(s, Some(Key(Connect, id)));
    MovedCarried(s, Connect, id, news, SetDefaultToken);
    MovedShaped(s, Connect, id, news);
    MovedLaws(s, Connect, id, news, SetDefaultToken);
    MovedSettled(s, Connect, id, news);
    ConnectMoved(s, id, news);
    MoveOnFields(s.(link := link), Connect, id, news, SetDefaultToken);
    OwnedLink(t.entries, s.log, s.link.(next := n), link.(next := n));
    NextConnectLaws(t.entries.connect, link, link.(next := n));
    Assemble(t);
  }

  lemma ConnectKeeps(s: State, id: nat, news: Exchange)
    requires Holding(s, Some(Key(Connect, id))) && id in s.entries.connect
    requires Fits(s.entries.connect[id], Connect, news)
    ensures Inv(ConnectCompleted(s, id, news))
  {
    hide Holding, ConnectLaw, ConnectEnds, MoveOn, SelectInside, Finish, Fits;
    var link := s.link;
    ConnectEntryLaw(s, id);
    HeardConnect(s.entries.connect[id], link, news);
    if !news.ret.IsError() && link.connected && link.setDefaultToken {
      ConnectMovesKeeps(s, id, news, link.(setDefaultToken := false));
    } else if !news.ret.IsError() && link.connected && link.service.Some? {
      SelectInsideKeeps(s, id, news, link.service.value, link.(service := None));
    } else if news.ret.IsError() {
      FinishKeeps(s, GiveUp(s), Connect, id, news, news.ret);
    } else if link.setDefaultToken || link.service.Some? {
      FinishKeeps(s, GiveUp(s), Connect, id, news, NOT_CONNECTED);
    } else {
      FinishKeeps(s, s.(link := link.(state := Connected)), Connect, id, news, news.ret);
    }
  }

  lemma ConnectEntryLaw(s: State, id: nat)
    requires Holding(s, Some(Key(Connect, id))) && id in s.entries.connect
    ensures ConnectLaw(s.entries.connect[id], s.link)
  {
    hide Holding, ConnectLaw;
    AllParts(s, Some(Key(Connect, id)));
  }

  lemma SelectServiceKeeps(s: State, id: nat, news: Exchange)
    requires Holding(s, Some(Key(SelectService, id))) && id in s.entries.select
    requires Fits(s.entries.select[id], SelectService, news)
    ensures Inv(SelectServiceCompleted(s, id, news))
  {
    AllParts(s, Some(Key(SelectService, id)));
    SelectKey(s.entries, s.link.bus, s.link.next);
    hide Holding, Finish, GetEnds, Shaped, Carried;
    assert [] + [news] == [news];
    var t := if news.ret.IsService() then s.(taken := Some(Service(news.ret.serviceId))) else s;
    FinishKeeps(s, t, SelectService, id, news, news.ret);
  }

  // ------------------------------------------------------------------ runs

  ghost predicate Idle(s: State) {
    s.entries == NO_ENTRIES
  }

  /** Without entries nothing is under way. */
  lemma IdleTraffic(s: State)
    requires Inv(s) && Idle(s)
    ensures s.traffic.pending == map[] && s.traffic.queue == []
  {
    AllParts(s, None);
    hide Holding;
    var q := s.traffic;
    if q.queue != [] {
      PoppedCarried(s.entries, q);
    }
    forall id ensures id !in q.pending {
      assert forall layer :: Carriers(s.entries, q, layer, id) == 0;
      if id in q.pending {
        PendingCarries(s.entries, q, id);
      }
    }
  }

  const CONNECT_CALL := Call(Connect, OpenUrl)

  /** The first entry on a new bus. */
  lemma FirstEntry(link: Link, to: ObjectSlot, statuses: map<nat, Status>, q: Traffic)
    requires to.target.User? && to.past == [] && to.origin.bus == link.bus && to.origin.id == link.next == 1
    requires link.setDefaultToken && link.service == to.origin.name
    requires q.pending == map[] && q.queue == [] && NoneStale(q)
    ensures var e, r := Entries(map[], map[], map[1 := to]), Asked(q, 1, CONNECT_CALL);
      && Carried(e, r, None) && Shaped(e, link.bus, 1) && GetLaws(e.get, statuses) && Agree(e)
      && ConnectLaws(e.connect, link) && CallLaws(e, r.pending) && PostLaws(e, r.queue)
  {
    var e := Entries(map[], map[], map[1 := to]);
    PutFirst(to);
    FirstShaped(link, to);
    hide Shaped;
    EmptyCarried(q);
    hide Carried;
    PutCarried(NO_ENTRIES, q, Connect, 1, to);
    AskedCarried(e, q, 1, CONNECT_CALL);
  }

  lemma FirstShaped(link: Link, to: ObjectSlot)
    requires to.target.User? && to.past == [] && to.origin.bus == link.bus && to.origin.id == link.next == 1
    ensures Shaped(Entries(map[], map[], map[1 := to]), link.bus, 1)
  {
    var e := Entries(map[], map[], map[1 := to]);
    forall l ensures MapShaped(e.At(l), l, link.bus, 1) {
    }
  }

  /** The new bus has one call; the old calls have become stale. */
  lemma ConnectFields(s: State, bus: nat, user: nat, path: Option<QString>, named: Option<QString>)
    requires Enabled(s, ConnectTo(bus, user, path, named))
    ensures var to := ObjectSlot(User(user), Origin(bus, 1, path), []);
      Step(s, ConnectTo(bus, user, path, named)) == State(
        Link(bus, 1, true, Connecting, true, if path.Some? then path else named),
        Traffic(map[1 := CONNECT_CALL], s.traffic.stale + [s.traffic.pending], s.traffic.queue),
        s.entries.(connect := s.entries.connect[1 := to]), s.status, s.taken, Recorded(s.log, to.origin, Connect, user))
  {
  }

  lemma PutFirst(to: ObjectSlot)
    ensures Put(NO_ENTRIES, Connect, 1, to) == Entries(map[], map[], map[1 := to])
  {
  }

  lemma ConnectToKeeps(s: State, bus: nat, user: nat, path: Option<QString>, named: Option<QString>)
    requires Inv(s) && Idle(s) && Enabled(s, ConnectTo(bus, user, path, named)) && (path.Some? || named.None?)
    ensures Inv(Step(s, ConnectTo(bus, user, path, named)))
  {
    hide Holding, GetLaws, Settled, Carried, Shaped, Owned, Agree, ConnectLaws, CallLaws, PostLaws, AllLawful, Step, Put;
    var t, origin := Step(s, ConnectTo(bus, user, path, named)), Origin(bus, 1, path);
    var to, q := ObjectSlot(User(user), origin, []), Traffic(map[], s.traffic.stale + [map[]], []);
    IdleTraffic(s);
    ConnectFields(s, bus, user, path, named);
    AllParts(s, None);
    PutNewConnect(s, t.link, to);
    PutFirst(to);
    assert t.traffic == Asked(q, 1, CONNECT_CALL);
    FirstEntry(t.link, to, t.status, q);
    Assemble(t);
  }

  lemma PutNewConnect(s: State, link: Link, to: ObjectSlot)
    requires Inv(s) && Idle(s) && to.target.User? && to.origin.bus == link.bus && to.origin.id == link.next == 1
    requires NeverOn(s.log, link.bus)
    ensures var e, log := Put(NO_ENTRIES, Connect, 1, to), Recorded(s.log, to.origin, Connect, to.target.user);
      Settled(e, log) && Owned(e, log, link)
  {
    hide Carried, Shaped, Laws, Settled, Owned;
    PutNew(NO_ENTRIES, s.log, s.link, link, Connect, 1, to);
  }

  /** With nothing under way, the proxy may go over to any connection. */
  lemma AssignedKeeps(s: State, link: Link)
    requires Inv(s) && Idle(s) && Enabled(s, Assigned(link)) && link.bus != s.link.bus
    ensures Inv(Step(s, Assigned(link)))
  {
    hide Holding, GetLaws, Settled, Carried, Shaped, Agree, ConnectLaws, CallLaws, PostLaws, AllLawful;
    var t := Step(s, Assigned(link));
    IdleTraffic(s);
    AllParts(s, None);
    EmptyCarried(t.traffic);
    NothingUnderWay(link, s.status, t.traffic);
    hide MapOwned, CompletionsOwned;
    Assemble(t);
  }

  lemma NothingUnderWay(link: Link, statuses: map<nat, Status>, q: Traffic)
    requires q.pending == map[] && q.queue == []
    ensures Shaped(NO_ENTRIES, link.bus, link.next) && GetLaws(map[], statuses) && Agree(NO_ENTRIES)
    ensures ConnectLaws(map[], link) && CallLaws(NO_ENTRIES, q.pending) && PostLaws(NO_ENTRIES, q.queue)
  {
    assert Shaped(NO_ENTRIES, link.bus, link.next) by {
      forall l ensures MapShaped(NO_ENTRIES.At(l), l, link.bus, link.next) {
      }
    }
  }

  predicate SameMarks(a: Link, b: Link) {
    a.setDefaultToken == b.setDefaultToken && a.service == b.service
  }

  /** What others do on the connection is no concern of the requests, nor what they do on its
      token while no connect is under way. */
  lemma ElsewhereKeeps(s: State, link: Link)
    requires Inv(s) && Enabled(s, Elsewhere(link)) && (SameMarks(s.link, link) || s.entries.connect == map[])
    ensures Inv(Step(s, Elsewhere(link)))
  {
    hide Holding, GetLaws, Settled, Carried, Shaped, Agree, ConnectLaw, CallLaws, PostLaws, AllLawful;
    var t := Step(s, Elsewhere(link));
    AllParts(s, None);
    LaterShaped(s.entries, s.link.bus, s.link.next, link.next);
    LaterOwned(s.entries, s.log, s.link, link);
    assert ConnectLaws(t.entries.connect, link) by {
      forall j | j in t.entries.connect ensures ConnectLaw(t.entries.connect[j], link) {
        assert ConnectLaw(s.entries.connect[j], s.link);
        LawMarks(s.entries.connect[j], s.link, link);
      }
    }
    hide ConnectLaws, Owned;
    Assemble(t);
  }

  lemma LaterShaped(e: Entries, bus: nat, next: nat, later: nat)
    requires Shaped(e, bus, next) && next <= later
    ensures Shaped(e, bus, later)
  {
    forall l ensures MapShaped(e.At(l), l, bus, later) {
      assert MapShaped(e.At(l), l, bus, next);
    }
  }

  lemma LaterOwned(e: Entries, log: Log, link: Link, later: Link)
    requires Owned(e, log, link) && later.bus == link.bus && link.next <= later.next
    ensures Owned(e, log, later)
  {
    hide MapOwned, CompletionsOwned;
  }

  lemma LawMarks(to: ObjectSlot, link: Link, after: Link)
    requires ConnectLaw(to, link) && SameMarks(link, after)
    ensures ConnectLaw(to, after)
  {
    hide ConnectChain;
  }

  lemma EmptyCarried(q: Traffic)
    requires q.pending == map[] && q.queue == [] && NoneStale(q)
    ensures Carried(NO_ENTRIES, q, None)
  {
  }

  lemma ReplyLaws(e: Entries, q: Traffic, id: nat, ret: ReturnValue)
    requires CallLaws(e, q.pending) && PostLaws(e, q.queue) && id in q.pending && Answers(q.pending[id].remote, ret)
    ensures CallLaws(e, ReplyTo(q, id, ret).pending) && PostLaws(e, ReplyTo(q, id, ret).queue)
  {
    hide Fits;
    assert CallFits(e, id, q.pending[id]);
    hide CallFits, PostFits;
    assert PostFits(e, Post(q.pending[id].layer, id, Told(q.pending[id].remote, ret))) by {
      CallGivesPost(e, id, q.pending[id], ret);
    }
  }

  lemma CallGivesPost(e: Entries, id: nat, call: Call, ret: ReturnValue)
    requires CallFits(e, id, call) && Answers(call.remote, ret)
    ensures PostFits(e, Post(call.layer, id, Told(call.remote, ret)))
  {
    hide Fits;
  }

  lemma RepliedKeeps(s: State, id: nat, ret: ReturnValue)
    requires Inv(s) && Enabled(s, Replied(id, ret))
    ensures Inv(Step(s, Replied(id, ret)))
  {
    var t := Step(s, Replied(id, ret));
    AllParts(s, None);
    hide Holding, Carried, Shaped, Settled, Owned, GetLaws, Agree, ConnectLaws, CallLaws, PostLaws, AllLawful;
    ReplyCarried(s.entries, s.traffic, id, ret);
    ReplyLaws(s.entries, s.traffic, id, ret);
    Assemble(t);
  }

  lemma AllParts(s: State, hand: Option<Key>)
    requires Holding(s, hand)
    ensures Carried(s.entries, s.traffic, hand) && Shaped(s.entries, s.link.bus, s.link.next)
    ensures GetLaws(s.entries.get, s.status) && Agree(s.entries) && ConnectLaws(s.entries.connect, s.link)
    ensures CallLaws(s.entries, s.traffic.pending) && PostLaws(s.entries, s.traffic.queue)
    ensures AllLawful(s.log.completions) && Settled(s.entries, s.log) && Owned(s.entries, s.log, s.link)
    ensures NoneStale(s.traffic) && (s.link.connected ==> s.link.next >= 1)
  {
    hide Carried, Shaped, Settled, Owned, GetLaws, Agree, ConnectLaws, CallLaws, PostLaws, AllLawful;
  }

  /** An event in the queue belongs to an entry, which it alone carries, and fits it. */
  lemma Pop(s: State)
    requires Inv(s) && s.traffic.queue != []
    ensures var p := s.traffic.queue[0];
      && p.id in s.entries.At(p.layer)
      && Holding(Popped(s), Some(Key(p.layer, p.id)))
      && Fits(s.entries.At(p.layer)[p.id], p.layer, p.news)
  {
    hide Carried, Shaped, Settled, Owned, GetLaws, Agree, ConnectLaws, CallLaws, AllLawful, Fits;
    PoppedCarried(s.entries, s.traffic);
    assert PostFits(s.entries, s.traffic.queue[0]);
    var rest := s.traffic.queue[1..];
    assert PostLaws(s.entries, rest) by {
      forall i | 0 <= i < |rest| ensures PostFits(s.entries, rest[i]) {
        assert rest[i] == s.traffic.queue[i + 1];
      }
    }
  }

  lemma HandledKeeps(s: State)
    requires Inv(s) && s.traffic.queue != [] && Handles(s, s.traffic.queue[0])
    ensures Inv(Step(s, Handled))
  {
    hide Holding, GetServiceCompleted, SelectServiceCompleted, ConnectCompleted, Fits;
    var p, t := s.traffic.queue[0], Popped(s);
    Pop(s);
    assert Handles(t, p);
    match p.layer
    case GetService => GetServiceKeeps(t, p.id, p.news);
    case SelectService => SelectServiceKeeps(t, p.id, p.news);
    case Connect => ConnectKeeps(t, p.id, p.news);
  }

  /** A completion slot always finds the entry, and the status, it is invoked for, and a
      selection answered as a server does; a service it is given is of its own connection. */
  lemma HandledFinds(s: State)
    requires Inv(s) && s.traffic.queue != []
    ensures Enabled(s, Handled)
  {
    hide Holding, GetLaw, GetChain;
    Pop(s);
    var p := s.traffic.queue[0];
    if p.layer == GetService {
      EntryLaw(Popped(s), p.id);
      SelectionAnswered(s.entries.get[p.id], s.status, p.news);
    } else {
      AllParts(s, None);
      SlotAt(s.entries, p.layer, p.id, s.link.bus, s.link.next);
    }
  }

  lemma SelectionAnswered(to: ObjectSlot, statuses: map<nat, Status>, news: Exchange)
    requires GetLaw(to, statuses) && Fits(to, GetService, news)
    ensures var status := statuses[to.origin.id];
      status.step == 2 && status.version != 0 ==> news.ret.IsService() || news.ret.IsError()
  {
    hide GetChain;
  }

  /** What the results need of a run: a connect only while nothing else is under way, and, without
      a path, a token that names no service; no change to another connection while something is;
      and nobody else to touch the token of a connect under way. */
  ghost predicate Proper(s: State, e: Event) {
    && Enabled(s, e)
    && match e
      case ConnectTo(_, _, path, named) => Idle(s) && (path.Some? || named.None?)
      case Assigned(link) => Idle(s) || link.bus == s.link.bus
      case Elsewhere(link) => SameMarks(s.link, link) || s.entries.connect == map[]
      case _ => true
  }

  lemma StepKeeps(s: State, e: Event)
    requires Inv(s) && Proper(s, e)
    ensures Inv(Step(s, e))
  {
    hide Carried, Shaped, Settled, Owned, GetLaws, Agree, ConnectLaws, CallLaws, PostLaws, AllLawful;
    hide BeginGet, BeginSelect, BeginConnect, Handle;
    match e
    case Get(user, name) => if s.link.connected { GetKeeps(s, user, name); }
    case SelectFor(user, name) => if s.link.connected { SelectKeeps(s, user, name); }
    case ConnectTo(bus, user, path, named) => ConnectToKeeps(s, bus, user, path, named);
    case Assigned(link) => if link.bus != s.link.bus { AssignedKeeps(s, link); }
    case Elsewhere(link) => ElsewhereKeeps(s, link);
    case Replied(id, ret) => RepliedKeeps(s, id, ret);
    case RepliedLate(bus, id, ret) =>
    case Handled => HandledKeeps(s);
    case Lost => ElsewhereKeeps(s, s.link.(connected := false, state := Disconnected));
  }

  ghost predicate Reaches(s: State, events: seq<Event>, t: State)
    decreases |events|
  {
    if events == [] then s == t
    else Proper(s, events[0]) && Reaches(Step(s, events[0]), events[1..], t)
  }

  lemma {:induction false} InvAlways(s: State, events: seq<Event>, t: State)
    requires Inv(s) && Reaches(s, events, t)
    ensures Inv(t)
    decreases |events|
  {
    hide Inv, Enabled, Idle, Step;
    if events != [] {
      StepKeeps(s, events[0]);
      InvAlways(Step(s, events[0]), events[1..], t);
    }
  }

  ghost predicate Reachable(t: State) {
    exists bus, events :: Reaches(Start(bus), events, t)
  }

  lemma StartInv(bus: nat)
    ensures Inv(Start(bus))
  {
    var s := Start(bus);
    EmptyCarried(s.traffic);
    NothingUnderWay(s.link, s.status, s.traffic);
    hide Carried, Shaped, Agree, GetLaws, ConnectLaws, CallLaws, PostLaws;
    assert Settled(NO_ENTRIES, s.log) by {
      forall k ensures SettledAt(NO_ENTRIES, s.log, k) {
      }
    }
    assert Owned(NO_ENTRIES, s.log, s.link) by {
      forall l ensures MapOwned(NO_ENTRIES.At(l), l, map[]) {
      }
    }
    hide Settled, Owned;
    Assemble(s);
  }

  lemma ReachableInv(t: State)
    requires Reachable(t)
    ensures Inv(t)
  {
    hide Inv, Proper, Step;
    var bus, events :| Reaches(Start(bus), events, t);
    StartInv(bus);
    InvAlways(Start(bus), events, t);
  }

  lemma StartReachable(bus: nat)
    ensures Reachable(Start(bus))
  {
    assert Reaches(Start(bus), [], Start(bus));
  }

  lemma ReachableStep(s: State, e: Event)
    requires Reachable(s) && Proper(s, e)
    ensures Reachable(Step(s, e))
  {
    hide Step, Enabled, Idle;
    var bus, events :| Reaches(Start(bus), events, s);
    ReachesOne(s, e);
    ReachesThen(Start(bus), events, s, [e], Step(s, e));
  }

  lemma {:induction false} ReachesThen(s: State, a: seq<Event>, t: State, b: seq<Event>, u: State)
    requires Reaches(s, a, t) && Reaches(t, b, u)
    ensures Reaches(s, a + b, u)
    decreases |a|
  {
    hide Enabled, Idle, Step;
    if a == [] {
      assert a + b == b;
    } else {
      assert (a + b)[0] == a[0] && (a + b)[1..] == a[1..] + b;
      ReachesThen(Step(s, a[0]), a[1..], t, b, u);
    }
  }

  lemma ReachesOne(s: State, e: Event)
    requires Proper(s, e)
    ensures Reaches(s, [e], Step(s, e))
  {
    hide Enabled, Idle, Step;
    assert [e][1..] == [];
    assert Reaches(Step(s, e), [], Step(s, e));
  }
}
