/** How a connect breaks those promises: begun while something else is under way, or when its
    token's marks are not its own. */
module AsyncReconnect {
  import opened QtTypes
  import opened DataStream
  import opened ReturnValues
  import opened AsyncRequests
  import opened AsyncInvariant
  import opened AsyncSteps
  import opened AsyncResults

  /** What the results promise of a state. */
  ghost predicate Right(t: State) {
    Carried(t.entries, t.traffic, None) && Settled(t.entries, t.log) && AllLawful(t.log.completions)
  }

  lemma InvRight(t: State)
    requires Inv(t)
    ensures Right(t)
  {
    hide Carried, Shaped, Settled, Owned, GetLaws, Agree, ConnectLaws, CallLaws, PostLaws, AllLawful;
  }

  /** What a proxy, its user and its buses do without changing the connection. */
  predicate Own(e: Event) {
    e.Get? || e.SelectFor? || e.Replied? || e.RepliedLate? || e.Handled?
  }

  ghost predicate Runs(s: State, events: seq<Event>, t: State)
    decreases |events|
  {
    if events == [] then s == t
    else Own(events[0]) && Enabled(s, events[0]) && Runs(Step(s, events[0]), events[1..], t)
  }

  lemma {:induction false} RunsThen(s: State, a: seq<Event>, t: State, b: seq<Event>, u: State)
    requires Runs(s, a, t) && Runs(t, b, u)
    ensures Runs(s, a + b, u)
    decreases |a|
  {
    hide Enabled, Step;
    if a == [] {
      assert a + b == b;
    } else {
      assert (a + b)[0] == a[0] && (a + b)[1..] == a[1..] + b;
      RunsThen(Step(s, a[0]), a[1..], t, b, u);
    }
  }

  lemma RunsOne(s: State, e: Event)
    requires Own(e) && Enabled(s, e)
    ensures Runs(s, [e], Step(s, e))
  {
    hide Enabled, Step;
    assert [e][1..] == [];
    assert Runs(Step(s, e), [], Step(s, e));
  }

  lemma RunsTwo(s: State, e: Event, f: Event)
    requires Own(e) && Enabled(s, e) && Own(f) && Enabled(Step(s, e), f)
    ensures Runs(s, [e, f], Step(Step(s, e), f))
  {
    hide Enabled, Step;
    RunsOne(s, e);
    RunsOne(Step(s, e), f);
    RunsThen(s, [e], Step(s, e), [f], Step(Step(s, e), f));
    assert [e] + [f] == [e, f];
  }

  // ------------------------------- while something else is under way at the proxy

  ghost function AfterConnect(s: State, bus: nat, user: nat, path: Option<QString>, named: Option<QString>): State {
    Accept(BeginConnect(s, bus, user, path, named), Connect, user, Origin(bus, 1, path))
  }

  /** Something of the old connection will still turn up for this entry. */
  ghost predicate OldCarrier(q: Traffic, layer: Layer, id: nat) {
    Posts(q.queue, layer, id) >= 1 || StaleAt(q, layer, id)
  }

  lemma AfterFields(s: State, bus: nat, user: nat, path: Option<QString>, named: Option<QString>)
    ensures var z, to := AfterConnect(s, bus, user, path, named), ObjectSlot(User(user), Origin(bus, 1, path), []);
      && z.link == Link(bus, 1, true, Connecting, true, if path.Some? then path else named)
      && z.traffic == Traffic(map[1 := CONNECT_CALL], s.traffic.stale + [s.traffic.pending], s.traffic.queue)
      && z.entries == s.entries.(connect := s.entries.connect[1 := to])
  {
  }

  lemma OneOld(s: State, layer: Layer, id: nat)
    requires Inv(s) && id in s.entries.At(layer) && !Served(s.entries, layer, id)
    ensures Posts(s.traffic.queue, layer, id) >= 1 || PendingAt(s.traffic, layer, id)
  {
    hide Holding, Posts, Served;
    AllParts(s, None);
    assert Carriers(s.entries, s.traffic, layer, id) == Expected(s.entries, None, layer, id);
  }

  /** What was due on the old bus still is. */
  lemma CarriedOver(s: State, q: Traffic, layer: Layer, id: nat)
    requires Inv(s) && id in s.entries.At(layer) && !Served(s.entries, layer, id)
    requires q.queue == s.traffic.queue && q.stale == s.traffic.stale + [s.traffic.pending]
    ensures OldCarrier(q, layer, id)
  {
    hide Holding, Served, Posts;
    OneOld(s, layer, id);
    if PendingAt(s.traffic, layer, id) {
      assert q.stale[|s.traffic.stale|] == s.traffic.pending;
    }
  }

  /** Two carriers for one id are one too many. */
  lemma TwoCarriers(t: State, layer: Layer, id: nat)
    requires OldCarrier(t.traffic, layer, id)
    requires PendingAt(t.traffic, layer, id) || Served(t.entries, layer, id)
    ensures !Right(t)
  {
    assert Carriers(t.entries, t.traffic, layer, id) >= 2;
  }

  const SOME_GET := Get(0, [])

  /** Any number of getServices use up as many ids, and leave what is old where it is. */
  lemma {:induction false} GetsRun(z: State, m: nat) returns (events: seq<Event>, t: State)
    requires z.link.connected
    ensures Runs(z, events, t)
    ensures t.link == z.link.(next := z.link.next + m)
    ensures t.traffic.queue == z.traffic.queue && t.traffic.stale == z.traffic.stale
    ensures m > 0 ==> PendingAt(t.traffic, GetService, t.link.next)
  {
    if m == 0 {
      events, t := [], z;
    } else {
      var rest, u := GetsRun(z, m - 1);
      t := Step(u, SOME_GET);
      RunsOne(u, SOME_GET);
      RunsThen(z, rest, u, [SOME_GET], t);
      events := rest + [SOME_GET];
    }
  }

  lemma Collision(s: State, bus: nat, user: nat, path: Option<QString>, named: Option<QString>)
    returns (events: seq<Event>, t: State)
    requires Inv(s) && !Idle(s)
    ensures Runs(AfterConnect(s, bus, user, path, named), events, t) && !Right(t)
  {
    hide Holding, Right, Runs, Carried, Shaped, Settled, Owned, AfterConnect, OldCarrier;
    AllParts(s, None);
    AfterFields(s, bus, user, path, named);
    var z := AfterConnect(s, bus, user, path, named);
    if s.entries.get != map[] {
      var j :| j in s.entries.get;
      SlotAt(s.entries, GetService, j, s.link.bus, s.link.next);
      GetCarriedOver(s, z.traffic, j);
      events, t := GetCollides(z, j);
    } else if s.entries.select != map[] {
      var k :| k in s.entries.select;
      SlotAt(s.entries, SelectService, k, s.link.bus, s.link.next);
      SelectCarriedOver(s, z.traffic, k);
      events, t := SelectCollides(z, k);
    } else {
      assert s.entries.connect != map[];
      var j :| j in s.entries.connect;
      SlotAt(s.entries, Connect, j, s.link.bus, s.link.next);
      if j == 1 {
        CarriedOver(s, z.traffic, Connect, 1);
        TwoCarriers(z, Connect, 1);
        RunsNone(z);
        events, t := [], z;
      } else {
        events, t := ConnectCollides(s, bus, user, path, named, j);
      }
    }
  }

  lemma RunsNone(t: State)
    ensures Runs(t, [], t)
  {
  }

  lemma GetCarriedOver(s: State, q: Traffic, j: nat)
    requires Inv(s) && j in s.entries.get
    requires q.queue == s.traffic.queue && q.stale == s.traffic.stale + [s.traffic.pending]
    ensures OldCarrier(q, GetService, j)
  {
    hide Inv, OldCarrier;
    CarriedOver(s, q, GetService, j);
  }

  lemma SelectCarriedOver(s: State, q: Traffic, k: nat)
    requires Inv(s) && k in s.entries.select && s.entries.get == map[]
    requires q.queue == s.traffic.queue && q.stale == s.traffic.stale + [s.traffic.pending]
    ensures OldCarrier(q, SelectService, k)
  {
    hide Inv, OldCarrier;
    CarriedOver(s, q, SelectService, k);
  }

  /** A getService under way, its id still to come on the new bus: two replies are due under it. */
  lemma GetCollides(z: State, j: nat) returns (events: seq<Event>, t: State)
    requires OldCarrier(z.traffic, GetService, j) && z.link.connected && z.link.next < j
    ensures Runs(z, events, t) && !Right(t)
  {
    hide Runs, Right, OldCarrier, PendingAt;
    events, t := GetsRun(z, j - z.link.next);
    SameOld(z.traffic, t.traffic, GetService, j);
    TwoCarriers(t, GetService, j);
  }

  /** A selectService whose getService is done: a new one comes under its id. */
  lemma SelectCollides(z: State, k: nat) returns (events: seq<Event>, t: State)
    requires OldCarrier(z.traffic, SelectService, k) && z.link.connected && z.link.next < k
    ensures Runs(z, events, t) && !Right(t)
  {
    hide Runs, Right, OldCarrier, Step, Served, PendingAt;
    var rest, u := GetsRun(z, k - z.link.next - 1);
    var e := SelectFor(0, []);
    t := Step(u, e);
    SelectServes(u);
    RunsOne(u, e);
    RunsThen(z, rest, u, [e], t);
    events := rest + [e];
    SameOld(z.traffic, t.traffic, SelectService, k);
    TwoCarriers(t, SelectService, k);
  }

  lemma SelectServes(u: State)
    requires u.link.connected
    ensures var t := Step(u, SelectFor(0, []));
      && Served(t.entries, SelectService, u.link.next + 1)
      && t.traffic.queue == u.traffic.queue && t.traffic.stale == u.traffic.stale
  {
    var t := Step(u, SelectFor(0, []));
    assert t.entries.get[u.link.next + 1].target == Slot(SelectService);
  }

  lemma SameOld(q: Traffic, r: Traffic, layer: Layer, id: nat)
    requires OldCarrier(q, layer, id) && r.queue == q.queue && r.stale == q.stale
    ensures OldCarrier(r, layer, id)
  {
  }

  function Answered(s: State, id: nat): State {
    s.(traffic := s.traffic.(pending := s.traffic.pending - {id}))
  }

  /** A connect's call is answered and, nothing else being queued, the answer handled. */
  lemma ConnectHears(s: State, id: nat, remote: Remote, ret: ReturnValue)
    requires s.traffic.queue == [] && id in s.traffic.pending && s.traffic.pending[id] == Call(Connect, remote)
    requires !remote.Select? && id in s.entries.connect
    ensures var e, news := Replied(id, ret), Told(remote, ret);
      && Enabled(s, e) && Enabled(Step(s, e), Handled)
      && Step(Step(s, e), Handled) == ConnectCompleted(Answered(s, id), id, news)
  {
    hide ConnectCompleted;
    var u := Step(s, Replied(id, ret));
    assert u.traffic.queue == [Post(Connect, id, Told(remote, ret))];
    assert Popped(u) == Answered(s, id);
  }

  /** A select made for a connect, and its getService, at its first call. */
  ghost predicate Selecting(u: State, n: nat, to: ObjectSlot) {
    && u.traffic.queue == [] && n in u.traffic.pending && u.traffic.pending[n] == FIRST_CALL
    && n in u.entries.get && u.entries.get[n].target == Slot(SelectService) && u.entries.get[n].origin.id == n
    && n in u.status && u.status[n].step == 0
    && SelectIn(u.entries, n, to)
  }

  ghost predicate SelectIn(e: Entries, n: nat, to: ObjectSlot) {
    && n in e.select && e.select[n].target == Slot(Connect) && e.select[n].origin.id == n
    && n in e.connect && e.connect[n] == to && to.target.User?
  }

  /** What the select is told comes to a completion of the connect: too soon, or for no service
      that was asked for. */
  lemma SelectInsideFails(u: State, n: nat, to: ObjectSlot) returns (events: seq<Event>, t: State)
    requires Selecting(u, n, to) && (|to.past| == 1 || (|to.past| == 2 && to.origin.name.None?))
    ensures Runs(u, events, t) && !Right(t)
  {
    var e := Replied(n, NOT_CONNECTED);
    var a, b, p := GetFails(u, n, to);
    var c, q := SelectFails(b, n, to, p);
    t := Step(c, Handled);
    assert t == Finish(GiveUp(Popped(c)), Connect, n, Within(q, NOT_CONNECTED), NOT_CONNECTED);
    hide Runs, Right, Finish, Step, Enabled;
    assert !ConnectChain(to.past + [Within(q, NOT_CONNECTED)], to.origin.name);
    CompletedLast(t, to.past + [Within(q, NOT_CONNECTED)], NOT_CONNECTED);
    RunsTwo(u, e, Handled);
    RunsTwo(b, Handled, Handled);
    events := [e, Handled] + [Handled, Handled];
    RunsThen(u, [e, Handled], b, [Handled, Handled], t);
  }

  lemma GetFails(u: State, n: nat, to: ObjectSlot) returns (a: State, b: State, p: seq<Exchange>)
    requires Selecting(u, n, to)
    ensures Enabled(u, Replied(n, NOT_CONNECTED)) && a == Step(u, Replied(n, NOT_CONNECTED))
    ensures Enabled(a, Handled) && b == Step(a, Handled)
    ensures b.traffic.queue == [Post(SelectService, n, Within(p, NOT_CONNECTED))] && SelectIn(b.entries, n, to)
  {
    a := Step(u, Replied(n, NOT_CONNECTED));
    var news := Told(Version, NOT_CONNECTED);
    assert a.traffic.queue == [Post(GetService, n, news)];
    b, p := Step(a, Handled), u.entries.get[n].past + [news];
    assert b == Finish(Popped(a), GetService, n, news, NOT_CONNECTED);
  }

  lemma SelectFails(b: State, n: nat, to: ObjectSlot, p: seq<Exchange>) returns (c: State, q: seq<Exchange>)
    requires b.traffic.queue == [Post(SelectService, n, Within(p, NOT_CONNECTED))] && SelectIn(b.entries, n, to)
    ensures Enabled(b, Handled) && c == Step(b, Handled)
    ensures c.traffic.queue == [Post(Connect, n, Within(q, NOT_CONNECTED))]
    ensures n in c.entries.connect && c.entries.connect[n] == to
  {
    var news := Within(p, NOT_CONNECTED);
    c, q := Step(b, Handled), b.entries.select[n].past + [news];
    assert c == Finish(Popped(b), SelectService, n, news, NOT_CONNECTED);
  }

  // The connect that is nearly done takes the marks of the new one, which then ends without
  // having done what they stand for.

  /** A connect at its first call, which is not going to set its default token. */
  ghost predicate Robbed(w: State) {
    && w.traffic.queue == [] && 1 in w.traffic.pending && w.traffic.pending[1] == CONNECT_CALL
    && 1 in w.entries.connect && w.entries.connect[1].target.User? && w.entries.connect[1].past == []
    && w.link.connected && !w.link.setDefaultToken
  }

  const OPENED := Told(OpenUrl, DEFAULT_RETURN)

  lemma RobbedEnds(w: State) returns (events: seq<Event>, t: State)
    requires Robbed(w)
    ensures Runs(w, events, t) && !Right(t)
  {
    var e, s := Replied(1, DEFAULT_RETURN), Answered(w, 1);
    ConnectHears(w, 1, OpenUrl, DEFAULT_RETURN);
    t := Step(Step(w, e), Handled);
    RunsTwo(w, e, Handled);
    events := [e, Handled];
    hide Runs, Right, Step, Finish, SelectInside;
    if w.link.service.None? {
      var base := s.(link := s.link.(state := Connected));
      assert t == Finish(base, Connect, 1, OPENED, DEFAULT_RETURN);
      CompletedLast(t, w.entries.connect[1].past + [OPENED], DEFAULT_RETURN);
    } else {
      var name := w.link.service.value;
      var base := s.(link := s.link.(service := None));
      assert t == SelectInside(base, 1, OPENED, name);
      var n := base.link.next + 1;
      var rest, v := SelectInsideFails(t, n, t.entries.connect[n]);
      RunsThen(w, events, t, rest, v);
      events, t := events + rest, v;
    }
  }

  /** The last completion is of a connect told so much, and not what that comes to. */
  lemma CompletedLast(t: State, past: seq<Exchange>, ret: ReturnValue)
    requires t.log.completions != []
    requires var c := t.log.completions[|t.log.completions| - 1];
      c.layer == Connect && c.past == past && c.ret == ret && !ConnectEnds(past, c.origin.name, ret)
    ensures !Right(t)
  {
    hide Carried, Settled, ConnectEnds;
    assert !Lawful(t.log.completions[|t.log.completions| - 1]);
  }

  /** The old connect's last event is next, before anything of the new one. */
  ghost predicate Overtaken(y: State, j: nat, news: Exchange) {
    && y.traffic.queue == [Post(Connect, j, news)] && j >= 2
    && y.traffic.pending == map[1 := CONNECT_CALL]
    && j in y.entries.connect && y.entries.connect[j].target.User?
    && 1 in y.entries.connect && y.entries.connect[1].target.User? && y.entries.connect[1].past == []
    && y.link.connected && y.link.setDefaultToken && y.link.next == 1
  }

  lemma OvertakenRobs(y: State, j: nat, news: Exchange)
    requires Overtaken(y, j, news)
    ensures Enabled(y, Handled) && Robbed(Step(y, Handled))
  {
  }

  /** With one connect left, the queue holds its event or nothing. */
  lemma OneEvent(s: State, j: nat)
    requires Inv(s) && j in s.entries.connect
    requires s.entries == Entries(map[], map[], map[j := s.entries.connect[j]])
    ensures s.traffic.queue == [] ==> PendingAt(s.traffic, Connect, j)
    ensures s.traffic.queue != [] ==>
              |s.traffic.queue| == 1 && s.traffic.queue[0].layer == Connect && s.traffic.queue[0].id == j
  {
    AllParts(s, None);
    hide Holding, Shaped, Settled, Owned, Fits;
    var e, q := s.entries, s.traffic;
    assert Carriers(e, q, Connect, j) == 1;
    forall i | 0 <= i < |q.queue| ensures q.queue[i].layer == Connect && q.queue[i].id == j {
      assert PostFits(e, q.queue[i]);
    }
    hide Carried;
    AllPosts(q.queue, Connect, j);
  }

  lemma {:induction false} AllPosts(queue: seq<Post>, layer: Layer, id: nat)
    requires forall i :: 0 <= i < |queue| ==> queue[i].layer == layer && queue[i].id == id
    ensures Posts(queue, layer, id) == |queue|
  {
    if queue != [] {
      AllPosts(queue[1..], layer, id);
    }
  }

  lemma ConnectCollides(s: State, bus: nat, user: nat, path: Option<QString>, named: Option<QString>, j: nat)
    returns (events: seq<Event>, t: State)
    requires Inv(s) && j in s.entries.connect && s.entries.get == map[] && s.entries.select == map[] && j >= 2
    ensures Runs(AfterConnect(s, bus, user, path, named), events, t) && !Right(t)
  {
    hide Holding, Runs, Right, Carried, Shaped, Settled, Owned, Robbed, AfterConnect, Overtaken, Step;
    var first, y, news := ConnectOvertaken(s, bus, user, path, named, j);
    OvertakenRobs(y, j, news);
    var w := Step(y, Handled);
    RunsOne(y, Handled);
    var third;
    third, t := RobbedEnds(w);
    RunsThen(AfterConnect(s, bus, user, path, named), first, y, [Handled], w);
    RunsThen(AfterConnect(s, bus, user, path, named), first + [Handled], w, third, t);
    events := first + [Handled] + third;
  }

  lemma ConnectOvertaken(s: State, bus: nat, user: nat, path: Option<QString>, named: Option<QString>, j: nat)
    returns (first: seq<Event>, y: State, news: Exchange)
    requires Inv(s) && j in s.entries.connect && s.entries.get == map[] && s.entries.select == map[] && j >= 2
    ensures Runs(AfterConnect(s, bus, user, path, named), first, y) && Overtaken(y, j, news)
  {
    hide Holding, Runs, Carried, Shaped, Settled, Owned, AfterConnect;
    AllParts(s, None);
    OneConnect(s.entries, s.link.bus, s.link.next, j);
    OnlyOne(s.entries.connect, j);
    SlotAt(s.entries, Connect, j, s.link.bus, s.link.next);
    OneEvent(s, j);
    AfterFields(s, bus, user, path, named);
    var z := AfterConnect(s, bus, user, path, named);
    if s.traffic.queue != [] {
      first, y, news := [], z, s.traffic.queue[0].news;
      RunsNone(z);
      assert y.traffic.queue == [Post(Connect, j, news)];
    } else {
      var e := RepliedLate(|s.traffic.stale|, j, NOT_CONNECTED);
      assert z.traffic.stale[|s.traffic.stale|] == s.traffic.pending;
      first, y, news := [e], Step(z, e), Told(s.traffic.pending[j].remote, NOT_CONNECTED);
      RunsOne(z, e);
      assert y.traffic.queue == [Post(Connect, j, news)];
    }
  }

  lemma OnlyOne(m: map<nat, ObjectSlot>, j: nat)
    requires j in m && Minus(m, j) == map[]
    ensures m == map[j := m[j]]
  {
    assert forall i :: i in m && i != j ==> i in Minus(m, j);
  }

  // -------------------------------------------- a service the token already names

  lemma NamedEnds(s: State, bus: nat, user: nat, name: QString) returns (events: seq<Event>, t: State)
    requires Inv(s) && Idle(s)
    ensures Runs(AfterConnect(s, bus, user, None, Some(name)), events, t) && !Right(t)
  {
    hide Inv, Runs, Right;
    var z := AfterConnect(s, bus, user, None, Some(name));
    var u, v := NamedSelects(s, bus, user, name);
    RunsTwo(z, Replied(1, DEFAULT_RETURN), Handled);
    RunsTwo(u, Replied(2, DEFAULT_RETURN), Handled);
    var first, second := [Replied(1, DEFAULT_RETURN), Handled], [Replied(2, DEFAULT_RETURN), Handled];
    RunsThen(z, first, u, second, v);
    var third;
    third, t := SelectInsideFails(v, 3, v.entries.connect[3]);
    RunsThen(z, first + second, v, third, t);
    events := first + second + third;
  }

  /** Its url opened and its default token set, the connect goes on to select that service. */
  lemma NamedSelects(s: State, bus: nat, user: nat, name: QString) returns (u: State, v: State)
    requires Inv(s) && Idle(s)
    ensures var z, e := AfterConnect(s, bus, user, None, Some(name)), Replied(1, DEFAULT_RETURN);
      Enabled(z, e) && Enabled(Step(z, e), Handled) && u == Step(Step(z, e), Handled)
    ensures var e := Replied(2, DEFAULT_RETURN);
      Enabled(u, e) && Enabled(Step(u, e), Handled) && v == Step(Step(u, e), Handled)
    ensures 3 in v.entries.connect && Selecting(v, 3, v.entries.connect[3])
    ensures |v.entries.connect[3].past| == 2 && v.entries.connect[3].origin.name.None?
  {
    hide Inv;
    IdleTraffic(s);
    AfterFields(s, bus, user, None, Some(name));
    var z := AfterConnect(s, bus, user, None, Some(name));
    hide AfterConnect, Step;
    ConnectHears(z, 1, OpenUrl, DEFAULT_RETURN);
    u := Step(Step(z, Replied(1, DEFAULT_RETURN)), Handled);
    var y := Answered(z, 1);
    assert u == MoveOn(y.(link := y.link.(setDefaultToken := false)), Connect, 1, OPENED, SetDefaultToken);
    ConnectHears(u, 2, SetDefaultToken, DEFAULT_RETURN);
    v := Step(Step(u, Replied(2, DEFAULT_RETURN)), Handled);
    var base := Answered(u, 2).(link := u.link.(service := None));
    assert v == SelectInside(base, 2, Told(SetDefaultToken, DEFAULT_RETURN), name);
    hide SelectInside;
  }

  // ---------------------------- while another proxy's connect is under way on the token

  /** The same but for the marks in the token. */
  ghost predicate SameButMarks(a: State, b: State) {
    b == a.(link := a.link.(setDefaultToken := b.link.setDefaultToken, service := b.link.service))
  }

  /** While something is under way there is an event to handle or a call to answer. */
  lemma NextEvent(s: State) returns (e: Event)
    requires Inv(s) && !Idle(s)
    ensures Proper(s, e) && (e.Handled? || (e.Replied? && e.ret == NOT_CONNECTED))
    ensures Work(Step(s, e)) < Work(s)
  {
    hide Inv, Work, Step, Handles;
    if s.traffic.queue != [] {
      e := Handled;
      HandledFinds(s);
      HandledWorks(s);
    } else if s.traffic.pending != map[] {
      var id :| id in s.traffic.pending;
      e := Replied(id, NOT_CONNECTED);
      RepliedWorks(s, id, NOT_CONNECTED);
    } else {
      NothingLeft(s);
      e := Handled;
    }
  }

  lemma RobsNow(a: State, b: State)
    requires SameButMarks(a, b) && Enabled(a, Handled) && a.traffic.queue[0].layer.Connect? && b.link.setDefaultToken
    ensures Enabled(b, Handled) && !Step(b, Handled).link.setDefaultToken && Step(b, Handled).link.bus == b.link.bus
  {
  }

  /** The marks matter to the events of a connect alone. */
  lemma SameNext(a: State, b: State, e: Event)
    requires SameButMarks(a, b) && Enabled(a, e)
    requires e.Replied? || (e.Handled? && !a.traffic.queue[0].layer.Connect?)
    ensures Enabled(b, e) && SameButMarks(Step(a, e), Step(b, e))
    ensures LinkMoves(b, Step(b, e))
    ensures Step(a, e).entries.connect == a.entries.connect
  {
    if e.Handled? {
      var p := a.traffic.queue[0];
      var c, d := Popped(a), Popped(b);
      if p.layer.GetService? {
        SameGet(c, d, p.id, p.news);
      } else {
        hide Enabled, Step;
        assert SameButMarks(SelectServiceCompleted(c, p.id, p.news), SelectServiceCompleted(d, p.id, p.news));
      }
    }
  }

  lemma SameGet(a: State, b: State, id: nat, news: Exchange)
    requires SameButMarks(a, b) && Known(a, id) && Selects(a, id, news.ret)
    ensures var c, d := GetServiceCompleted(a, id, news), GetServiceCompleted(b, id, news);
      SameButMarks(c, d) && LinkMoves(b, d) && c.entries.connect == a.entries.connect
  {
    hide Finish, Proceed, SameButMarks, LinkMoves;
    var ret, status := news.ret, a.status[a.entries.get[id].origin.id];
    if ret.IsError() {
      SameFinish(a, b, id, news, ret);
    } else if status.step <= 1 || (status.step == 2 && status.version != 0) {
      var heard := if status.step == 0 then status else if status.step == 1 then status.(version := ToInt(ret.value))
                   else status.(result := ret);
      SameProceed(a, b, id, news, heard, RemoteAt(heard.(step := status.step + 1)));
    } else if status.step == 2 {
      var c, d := a.(taken := Some(Original)), b.(taken := Some(Original));
      SameTaken(a, b);
      SameFinish(c, d, id, news, ret);
    } else {
      SameFinish(a, b, id, news, if status.step == 3 then status.result else UNKNOWN_STEP);
    }
  }

  ghost predicate LinkMoves(s: State, t: State) {
    && t.link.bus == s.link.bus && t.link.next >= s.link.next && t.link.connected == s.link.connected
    && SameMarks(t.link, s.link)
  }

  lemma SameTaken(a: State, b: State)
    requires SameButMarks(a, b)
    ensures SameButMarks(a.(taken := Some(Original)), b.(taken := Some(Original)))
    ensures forall d :: LinkMoves(b.(taken := Some(Original)), d) ==> LinkMoves(b, d)
    ensures b.status == a.status && b.entries == a.entries
  {
  }

  lemma SameFinish(a: State, b: State, id: nat, news: Exchange, ret: ReturnValue)
    requires SameButMarks(a, b) && id in a.entries.get
    ensures id in b.entries.get && b.status == a.status && b.entries == a.entries
    ensures var c, d := Finish(a, GetService, id, news, ret), Finish(b, GetService, id, news, ret);
      SameButMarks(c, d) && LinkMoves(b, d) && c.entries.connect == a.entries.connect
  {
  }

  lemma SameProceed(a: State, b: State, id: nat, news: Exchange, status: Status, remote: Remote)
    requires SameButMarks(a, b) && id in a.entries.get
    ensures id in b.entries.get && b.status == a.status && b.entries == a.entries
    ensures var c, d := Proceed(a, id, news, status, remote), Proceed(b, id, news, status, remote);
      SameButMarks(c, d) && LinkMoves(b, d) && c.entries.connect == a.entries.connect
  {
    hide Finish;
    SameFinish(a, b, id, news, NOT_CONNECTED);
  }

  /** A connect under way comes, whatever the marks, to an event that clears the one for the
      default token. */
  lemma {:induction false} ConnectRobs(a: State, b: State) returns (events: seq<Event>, t: State)
    requires Inv(a) && a.entries.connect != map[] && SameButMarks(a, b) && b.link.setDefaultToken
    ensures Runs(b, events, t) && !t.link.setDefaultToken && t.link.bus == b.link.bus
    decreases Work(a)
  {
    hide Inv, Work, SameButMarks;
    var e := NextEvent(a);
    if e.Handled? && a.traffic.queue[0].layer.Connect? {
      RobsNow(a, b);
      events, t := [e], Step(b, e);
      RunsOne(b, e);
    } else {
      StepKeeps(a, e);
      SameNext(a, b, e);
      var c, d := Step(a, e), Step(b, e);
      var rest;
      rest, t := ConnectRobs(c, d);
      events := [e] + rest;
      RunsOne(b, e);
      RunsThen(b, [e], d, rest, t);
    }
  }
}
