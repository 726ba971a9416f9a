/** What the asynchronous requests promise their callers, in every run. */
module AsyncResults {
  import opened QtTypes
  import opened DataStream
  import opened ReturnValues
  import opened AsyncRequests
  import opened AsyncInvariant
  import opened AsyncSteps

  // ---------------------------------------------------------------- results

  /** A request is completed at most once, under the id first returned to its caller, to the
      object it named; and it is completed exactly when nothing stands for it any more. */
  lemma OneCompletion(t: State, k: Origin)
    requires Reachable(t)
    ensures Completed(t.log.completions, k) <= 1
    ensures Completed(t.log.completions, k) == 1 <==> k in t.log.accepted && !IsOpen(t.entries, k, t.log.accepted[k])
    ensures forall i :: 0 <= i < |t.log.completions| ==>
              var c := t.log.completions[i];
              c.origin in t.log.accepted && t.log.accepted[c.origin] == Request(c.layer, c.user)
  {
    hide Reachable;
    ReachableInv(t);
    hide Carried, Shaped, Laws, MapOwned;
    assert SettledAt(t.entries, t.log, k);
  }

  /** What a completion says is what its own chain of calls came to: a getService ends with the
      first error of any of its calls; or with the service its selection returned, once
      authenticated; in the original version with the reply to the selection; or because it
      lost the connection. The other requests end accordingly. */
  lemma CompletionsLawful(t: State, i: nat)
    requires Reachable(t) && i < |t.log.completions|
    ensures Lawful(t.log.completions[i])
  {
    hide Reachable, Lawful;
    ReachableInv(t);
    hide Carried, Shaped, Settled, Owned, GetLaws, Agree, ConnectLaws, CallLaws, PostLaws;
  }

  /** So a getService that ends without an error has been given the answer to its own selection
      of the service asked for: in versions that have services, a service, and after it a
      successful authentication. */
  lemma ServiceAuthenticated(t: State, i: nat)
    requires Reachable(t) && i < |t.log.completions|
    requires var c := t.log.completions[i]; c.layer == GetService && !c.ret.IsError()
    ensures var c := t.log.completions[i];
      && c.origin.name.Some? && |c.past| >= 3
      && (if |c.past| == 4
          then c.past[2] == Told(Select(c.origin.name.value), c.ret) && c.ret.IsService()
               && c.past[3].Told? && c.past[3].remote == Auth && !c.past[3].ret.IsError()
          else c.past[2] == Told(SelectOriginal(c.origin.name.value), c.ret) && ToInt(c.past[1].ret.value) == 0)
  {
    hide Reachable;
    CompletionsLawful(t, i);
    var c := t.log.completions[i];
    assert c.past[2].remote == GetCall(c.past[..2], c.origin.name.value);
    assert |c.past| == 4 ==> c.past[3].remote == GetCall(c.past[..3], c.origin.name.value);
  }

  /** An unanswered call asks what the replies so far call for, all of them without error. */
  lemma CallsInOrder(t: State, j: nat)
    requires Reachable(t) && j in t.traffic.pending
    ensures var call := t.traffic.pending[j];
      && j in t.entries.At(call.layer) && NoErrors(t.entries.At(call.layer)[j].past)
      && (call.layer == GetService ==>
            && t.entries.get[j].origin.name.Some? && GetChain(t.entries.get[j].past, t.entries.get[j].origin.name.value)
            && call.remote == GetCall(t.entries.get[j].past, t.entries.get[j].origin.name.value))
      && (call.layer == Connect ==>
            ConnectChain(t.entries.connect[j].past, t.entries.connect[j].origin.name)
            && call.remote == ConnectCall(|t.entries.connect[j].past|))
      && call.layer != SelectService
  {
    hide Reachable;
    ReachableInv(t);
    AllParts(t, None);
    hide Inv, Carried, Shaped, Settled, Owned, GetChain, ConnectChain;
    var call := t.traffic.pending[j];
    assert CallFits(t.entries, j, call);
    assert Fits(t.entries.At(call.layer)[j], call.layer, Told(call.remote, NOT_CONNECTED));
    assert call.layer == GetService ==> GetLaw(t.entries.get[j], t.status);
    assert call.layer == Connect ==> ConnectLaw(t.entries.connect[j], t.link);
  }

  /** Until then it has one entry, kept under the id of the one thing that will carry it on:
      a bus call not yet answered, an event in the queue, or the request inside it. */
  lemma OneCarrier(t: State, k: Origin)
    requires Reachable(t) && k in t.log.accepted && IsOpen(t.entries, k, t.log.accepted[k])
    ensures var r := t.log.accepted[k];
      exists j :: StandsAlone(t.entries.At(r.layer), j, k, r.user) && Carriers(t.entries, t.traffic, r.layer, j) == 1
  {
    hide Reachable;
    ReachableInv(t);
    var r := t.log.accepted[k];
    ApartAt(t.entries, r.layer, t.link.bus, t.link.next);
    hide Shaped, Laws, Settled, Owned;
    var j :| j in t.entries.At(r.layer) && t.entries.At(r.layer)[j].target == User(r.user) && t.entries.At(r.layer)[j].origin == k;
    assert Carriers(t.entries, t.traffic, r.layer, j) == Expected(t.entries, None, r.layer, j);
    assert StandsAlone(t.entries.At(r.layer), j, k, r.user);
  }

  /** The only entry for its request. */
  ghost predicate StandsAlone(m: map<nat, ObjectSlot>, j: nat, k: Origin, user: nat) {
    j in m && m[j].target == User(user) && m[j].origin == k && forall i :: i in m && m[i].origin.id == k.id ==> i == j
  }

  /** No bus call and no event is without its entry, and none has two. */
  lemma NoStrayCalls(t: State, layer: Layer, id: nat)
    requires Reachable(t)
    ensures Posts(t.traffic.queue, layer, id) + (if PendingAt(t.traffic, layer, id) then 1 else 0)
         <= if id in t.entries.At(layer) then 1 else 0
  {
    hide Reachable, Served, Posts;
    ReachableInv(t);
    assert Carriers(t.entries, t.traffic, layer, id) == Expected(t.entries, None, layer, id);
  }

  /** When every call has been answered and every event handled, every request is completed. */
  lemma AllCompleted(t: State, k: Origin)
    requires Reachable(t) && t.traffic.pending == map[] && t.traffic.queue == [] && k in t.log.accepted
    ensures Completed(t.log.completions, k) == 1
  {
    hide Reachable;
    ReachableInv(t);
    NothingLeft(t);
    hide Carried, Shaped, Laws, Owned;
    assert SettledAt(t.entries, t.log, k);
  }

  lemma NothingLeft(t: State)
    requires Inv(t) && t.traffic.pending == map[] && t.traffic.queue == []
    ensures Idle(t)
  {
    var e, q := t.entries, t.traffic;
    hide Shaped, Laws, Owned, Settled;
    forall j ensures j !in e.get {
      assert Carriers(e, q, GetService, j) == Expected(e, None, GetService, j);
    }
    forall j ensures j !in e.select {
      assert Carriers(e, q, SelectService, j) == Expected(e, None, SelectService, j);
    }
    forall j ensures j !in e.connect {
      assert Carriers(e, q, Connect, j) == Expected(e, None, Connect, j);
    }
  }

  // -------------------------------------------------------- every chain ends

  function One<V>(m: map<nat, V>, j: nat): nat {
    if j in m then 1 else 0
  }

  function StepsLeft(to: ObjectSlot, statuses: map<nat, Status>): nat {
    if to.origin.id in statuses && statuses[to.origin.id].step <= 3 then 4 - statuses[to.origin.id].step else 0
  }

  function GetWeight(m: map<nat, ObjectSlot>, statuses: map<nat, Status>, j: nat): nat {
    if j in m then 2 * StepsLeft(m[j], statuses) else 0
  }

  /** The work still in what is kept under one id: each step of a getService is a call and a
      reply; an outer request has its own end to handle. */
  function Weight(s: State, j: nat): nat {
    One(s.traffic.pending, j) + GetWeight(s.entries.get, s.status, j) + One(s.entries.select, j) + One(s.entries.connect, j)
  }

  function Weights(s: State, n: nat): nat {
    Weight(s, n) + if n == 0 then 0 else Weights(s, n - 1)
  }

  function MarksWork(link: Link): nat {
    (if link.setDefaultToken then 2 else 0) + (if link.service.Some? then 11 else 0)
  }

  function Work(s: State): nat {
    Weights(s, s.link.next) + MarksWork(s.link)
  }

  lemma {:induction false} WeightsChange(s: State, t: State, n: nat, id: nat)
    requires forall j :: 0 <= j <= n && j != id ==> Weight(t, j) == Weight(s, j)
    ensures Weights(t, n) - Weights(s, n) == if id <= n then Weight(t, id) - Weight(s, id) else 0
  {
    hide Weight;
    if n > 0 {
      WeightsChange(s, t, n - 1, id);
    }
  }

  lemma RepliedWorks(s: State, id: nat, ret: ReturnValue)
    requires Inv(s) && Enabled(s, Replied(id, ret))
    ensures Work(Step(s, Replied(id, ret))) < Work(s)
  {
    hide Carried, Shaped, Laws, Settled, Owned, GetWeight;
    var t := Step(s, Replied(id, ret));
    assert id <= s.link.next by { PendingBounded(s, id); }
    WeightsChange(s, t, s.link.next, id);
  }

  lemma PendingBounded(s: State, id: nat)
    requires Inv(s) && id in s.traffic.pending
    ensures id <= s.link.next
  {
    AllParts(s, None);
    hide Holding, Fits, Shaped;
    assert CallFits(s.entries, id, s.traffic.pending[id]);
    SlotAt(s.entries, s.traffic.pending[id].layer, id, s.link.bus, s.link.next);
  }

  lemma FinishWeight(s: State, layer: Layer, id: nat, news: Exchange, ret: ReturnValue, j: nat)
    requires Apart(s.entries.get) && id in s.entries.At(layer)
    requires layer == GetService ==> StepsLeft(s.entries.get[id], s.status) >= 1
    ensures var t := Finish(s, layer, id, news, ret);
      (j != id ==> Weight(t, j) == Weight(s, j)) && (j == id ==> Weight(t, j) < Weight(s, j))
  {
    FinishFields(s, layer, id, news, ret);
    hide Finish;
    match layer
    case GetService =>
    case SelectService =>
    case Connect =>
  }

  /** A finished request leaves less to do, and all else as it was. */
  lemma FinishWorks(s: State, layer: Layer, id: nat, news: Exchange, ret: ReturnValue)
    requires Shaped(s.entries, s.link.bus, s.link.next) && id in s.entries.At(layer)
    requires layer == GetService ==> StepsLeft(s.entries.get[id], s.status) >= 1
    ensures Work(Finish(s, layer, id, news, ret)) < Work(s)
  {
    var t := Finish(s, layer, id, news, ret);
    ApartAt(s.entries, GetService, s.link.bus, s.link.next);
    SlotAt(s.entries, layer, id, s.link.bus, s.link.next);
    FinishFields(s, layer, id, news, ret);
    hide Shaped, Finish, Weight, MarksWork, Left;
    forall j: nat ensures (j != id ==> Weight(t, j) == Weight(s, j)) && (j == id ==> Weight(t, j) < Weight(s, j)) {
      FinishWeight(s, layer, id, news, ret, j);
    }
    WeightsChange(s, t, s.link.next, id);
  }

  /** A step that drops `id` and adds the next id: the work lost and the work gained. */
  lemma WorkMoved(s: State, t: State, id: nat)
    requires t.link.next == s.link.next + 1 && id <= s.link.next
    requires forall j :: 0 <= j <= s.link.next && j != id ==> Weight(t, j) == Weight(s, j)
    ensures Weights(t, t.link.next) - Weights(s, s.link.next) == Weight(t, t.link.next) + Weight(t, id) - Weight(s, id)
  {
    hide Weight;
    WeightsChange(s, t, s.link.next, id);
  }

  lemma ProceedWeight(s: State, id: nat, news: Exchange, status: Status, remote: Remote, j: nat)
    requires Apart(s.entries.get) && id in s.entries.get && id != s.link.next + 1 && Fresh(s.entries, s.traffic, s.link.next + 1)
    ensures var n, k := s.link.next + 1, s.entries.get[id].origin.id;
      var u := MoveOn(s, GetService, id, news, remote);
      Weight(u.(status := u.status[k := status]), j) ==
      if j == n then 1 + 2 * (if status.step <= 3 then 4 - status.step else 0)
      else if j == id then Weight(s, j) - 2 * StepsLeft(s.entries.get[id], s.status)
      else Weight(s, j)
  {
    var n, k, u := s.link.next + 1, s.entries.get[id].origin.id, MoveOn(s, GetService, id, news, remote);
    assert GetWeight(s.entries.get, s.status, id) == 2 * StepsLeft(s.entries.get[id], s.status);
    hide GetWeight, StepsLeft, Apart;
    assert u.entries.get == Plus(Minus(s.entries.get, id), n, s.entries.get[id].(past := s.entries.get[id].past + [news]));
    assert u.entries.select == s.entries.select && u.entries.connect == s.entries.connect;
    assert u.traffic.pending == s.traffic.pending[n := Call(GetService, remote)] && u.status == s.status;
    hide MoveOn;
  }

  lemma ProceedWorks(s: State, id: nat, news: Exchange, status: Status, remote: Remote)
    requires Holding(s, Some(Key(GetService, id))) && Known(s, id)
    requires status.step == s.status[s.entries.get[id].origin.id].step <= 2
    ensures Work(Proceed(s, id, news, status, remote)) < Work(s)
  {
    hide Holding, Finish, Carried, Shaped, Work, Fresh, Apart, StepsLeft;
    AllParts(s, Some(Key(GetService, id)));
    ApartAt(s.entries, GetService, s.link.bus, s.link.next);
    EntryLeft(s, id);
    var next := status.(step := status.step + 1);
    if s.link.connected {
      NextFresh(s.entries, s.traffic, Some(Key(GetService, id)), s.link.bus, s.link.next);
      SlotAt(s.entries, GetService, id, s.link.bus, s.link.next);
      MovedWorks(s, id, news, next, remote);
    } else {
      FinishWorks(s, GetService, id, news, NOT_CONNECTED);
      LeftOver(s, id, news, next);
    }
  }

  lemma EntryLeft(s: State, id: nat)
    requires Holding(s, Some(Key(GetService, id))) && id in s.entries.get
    ensures s.entries.get[id].origin.id in s.status
    ensures StepsLeft(s.entries.get[id], s.status) == 4 - s.status[s.entries.get[id].origin.id].step >= 1
  {
    hide Holding;
    EntryLaw(s, id);
  }

  lemma MovedWorks(s: State, id: nat, news: Exchange, status: Status, remote: Remote)
    requires Apart(s.entries.get) && Known(s, id) && id <= s.link.next && Fresh(s.entries, s.traffic, s.link.next + 1)
    requires status.step <= 3 && StepsLeft(s.entries.get[id], s.status) == 5 - status.step
    ensures var t := MoveOn(s, GetService, id, news, remote);
      Work(t.(status := t.status[s.entries.get[id].origin.id := status])) < Work(s)
  {
    hide Apart, Fresh, Weight, StepsLeft;
    var u := MoveOn(s, GetService, id, news, remote);
    var t := u.(status := u.status[s.entries.get[id].origin.id := status]);
    assert t.link == s.link.(next := s.link.next + 1);
    forall j: nat | j <= s.link.next + 1
      ensures Weight(t, j) ==
        if j == s.link.next + 1 then 1 + 2 * (4 - status.step)
        else if j == id then Weight(s, j) - 2 * StepsLeft(s.entries.get[id], s.status)
        else Weight(s, j)
    {
      ProceedWeight(s, id, news, status, remote, j);
    }
    hide MoveOn, Weights;
    WorkMoved(s, t, id);
  }

  /** The status left behind is of no entry. */
  lemma LeftOver(s: State, id: nat, news: Exchange, status: Status)
    requires id in s.entries.get && Apart(s.entries.get)
    ensures var t := Finish(s, GetService, id, news, NOT_CONNECTED);
      Work(t.(status := t.status[s.entries.get[id].origin.id := status])) == Work(t)
  {
    FinishFields(s, GetService, id, news, NOT_CONNECTED);
    hide Finish;
    var t := Finish(s, GetService, id, news, NOT_CONNECTED);
    var u := t.(status := t.status[s.entries.get[id].origin.id := status]);
    forall j: nat ensures Weight(u, j) == Weight(t, j) {
    }
    hide Weight;
    WeightsChange(t, u, t.link.next, t.link.next + 1);
  }

  lemma GetServiceWorks(s: State, id: nat, news: Exchange)
    requires Holding(s, Some(Key(GetService, id))) && Known(s, id) && Selects(s, id, news.ret)
    ensures Work(GetServiceCompleted(s, id, news)) < Work(s)
  {
    hide Holding, Finish, Proceed, Shaped, Carried, Weights, StepsLeft;
    AllParts(s, Some(Key(GetService, id)));
    EntryLeft(s, id);
    var ret, status := news.ret, s.status[s.entries.get[id].origin.id];
    if ret.IsError() || status.step == 3 || (status.step == 2 && status.version == 0) {
      var base := if !ret.IsError() && status.step == 2 then s.(taken := Some(Original)) else s;
      TakenWorks(s, base);
      FinishWorks(base, GetService, id, news, if ret.IsError() || status.step == 2 then ret else status.result);
    } else {
      var heard := if status.step == 0 then status else if status.step == 1 then status.(version := ToInt(ret.value))
                   else status.(result := ret);
      ProceedWorks(s, id, news, heard, RemoteAt(heard.(step := status.step + 1)));
    }
  }

  /** What the proxy has taken over, and the marks aside, the work is the same. */
  lemma {:induction false} TakenWeights(s: State, t: State, n: nat)
    requires t == s.(taken := t.taken, link := t.link, traffic := t.traffic) && t.traffic.pending == s.traffic.pending
    ensures Weights(t, n) == Weights(s, n)
  {
    if n > 0 {
      TakenWeights(s, t, n - 1);
    }
  }

  lemma TakenWorks(s: State, t: State)
    requires t == s.(taken := t.taken, link := t.link, traffic := t.traffic) && t.traffic.pending == s.traffic.pending
    requires t.link.next == s.link.next && MarksWork(t.link) <= MarksWork(s.link)
    ensures Work(t) <= Work(s)
  {
    TakenWeights(s, t, s.link.next);
  }

  lemma ConnectMovedWorks(s: State, id: nat, news: Exchange)
    requires id in s.entries.connect && id <= s.link.next && Fresh(s.entries, s.traffic, s.link.next + 1)
    ensures var t := MoveOn(s, Connect, id, news, SetDefaultToken);
      Weights(t, t.link.next) < Weights(s, s.link.next) + 2
  {
    hide Weights, GetWeight;
    var n, t := s.link.next + 1, MoveOn(s, Connect, id, news, SetDefaultToken);
    assert t.entries.get == s.entries.get && t.status == s.status && t.entries.select == s.entries.select;
    assert t.traffic.pending == s.traffic.pending[n := Call(Connect, SetDefaultToken)];
    assert t.entries.connect.Keys == s.entries.connect.Keys - {id} + {n} && t.link.next == n;
    hide MoveOn;
    NoGetWeight(s.entries.get, s.status, n);
    WorkMoved(s, t, id);
  }

  lemma NoGetWeight(m: map<nat, ObjectSlot>, statuses: map<nat, Status>, j: nat)
    requires j !in m
    ensures GetWeight(m, statuses, j) == 0
  {
  }

  lemma PlusGetWeight(m: map<nat, ObjectSlot>, n: nat, to: ObjectSlot, statuses: map<nat, Status>, status: Status, j: nat)
    requires n !in m && status.step == 0 && to.origin.id == n && forall i :: i in m ==> m[i].origin.id != n
    ensures GetWeight(Plus(m, n, to), statuses[n := status], j) == if j == n then 8 else GetWeight(m, statuses, j)
  {
  }

  lemma SelectInsideWorks(s: State, id: nat, news: Exchange, name: QString)
    requires id in s.entries.connect && id <= s.link.next && Fresh(s.entries, s.traffic, s.link.next + 1)
    ensures var t := SelectInside(s, id, news, name);
      Weights(t, t.link.next) < Weights(s, s.link.next) + 11
  {
    hide Weights, GetWeight;
    var n, t, status := s.link.next + 1, SelectInside(s, id, news, name), Status(0, name, 0, DEFAULT_RETURN);
    var to := ObjectSlot(Slot(SelectService), NextOrigin(s, Some(name)), []);
    assert t.entries.get == Plus(s.entries.get, n, to) && t.status == s.status[n := status];
    assert t.traffic.pending == s.traffic.pending[n := FIRST_CALL] && t.link.next == n;
    assert t.entries.select.Keys == s.entries.select.Keys + {n};
    assert t.entries.connect.Keys == s.entries.connect.Keys - {id} + {n};
    hide SelectInside, Plus;
    forall j: nat | j <= s.link.next && j != id ensures Weight(t, j) == Weight(s, j) {
      PlusGetWeight(s.entries.get, n, to, s.status, status, j);
    }
    PlusGetWeight(s.entries.get, n, to, s.status, status, n);
    PlusGetWeight(s.entries.get, n, to, s.status, status, id);
    WorkMoved(s, t, id);
  }

  lemma ConnectWorks(s: State, id: nat, news: Exchange)
    requires Holding(s, Some(Key(Connect, id))) && id in s.entries.connect
    ensures Work(ConnectCompleted(s, id, news)) < Work(s)
  {
    hide Holding, Finish, MoveOn, SelectInside, Carried, Shaped, Weights, Fresh;
    AllParts(s, Some(Key(Connect, id)));
    NextFresh(s.entries, s.traffic, Some(Key(Connect, id)), s.link.bus, s.link.next);
    SlotAt(s.entries, Connect, id, s.link.bus, s.link.next);
    var link := s.link;
    if !news.ret.IsError() && link.connected && link.setDefaultToken {
      var t := s.(link := link.(setDefaultToken := false));
      TakenWeights(s, t, link.next);
      ConnectMovedWorks(t, id, news);
      MoveOnLink(t, id, news);
    } else if !news.ret.IsError() && link.connected && link.service.Some? {
      var t := s.(link := link.(service := None));
      TakenWeights(s, t, link.next);
      SelectInsideWorks(t, id, news, link.service.value);
      MoveOnLink(t, id, news);
    } else {
      var gone := news.ret.IsError() || link.setDefaultToken || link.service.Some?;
      var t := if gone then GiveUp(s) else s.(link := link.(state := Connected));
      TakenWorks(s, t);
      FinishWorks(t, Connect, id, news, if news.ret.IsError() || !gone then news.ret else NOT_CONNECTED);
    }
  }

  lemma MoveOnLink(s: State, id: nat, news: Exchange)
    requires id in s.entries.connect
    ensures MoveOn(s, Connect, id, news, SetDefaultToken).link == s.link.(next := s.link.next + 1)
    ensures forall name :: SelectInside(s, id, news, name).link == s.link.(next := s.link.next + 1)
  {
  }

  lemma HandledWorks(s: State)
    requires Inv(s) && s.traffic.queue != [] && Handles(s, s.traffic.queue[0])
    ensures Work(Step(s, Handled)) < Work(s)
  {
    hide Holding, GetServiceCompleted, SelectServiceCompleted, ConnectCompleted, Fits, Work;
    var p, t := s.traffic.queue[0], Popped(s);
    Pop(s);
    assert Handles(t, p);
    TakenWorks(s, t);
    match p.layer
    case GetService => GetServiceWorks(t, p.id, p.news);
    case SelectService => SelectServiceWorks(t, p.id, p.news);
    case Connect => ConnectWorks(t, p.id, p.news);
  }

  lemma SelectServiceWorks(s: State, id: nat, news: Exchange)
    requires Holding(s, Some(Key(SelectService, id))) && id in s.entries.select
    ensures Work(SelectServiceCompleted(s, id, news)) < Work(s)
  {
    hide Holding, Finish, Work, Carried, Shaped;
    AllParts(s, Some(Key(SelectService, id)));
    var t := if news.ret.IsService() then s.(taken := Some(Service(news.ret.serviceId))) else s;
    TakenWorks(s, t);
    FinishWorks(t, SelectService, id, news, news.ret);
  }

  /** Unless more is requested, a reply or an event can come at most as often as there is work
      left; so every chain ends. */
  lemma {:induction false} EveryChainEnds(s: State, events: seq<Event>, t: State)
    requires Inv(s) && Reaches(s, events, t)
    requires forall i :: 0 <= i < |events| ==> events[i].Replied? || events[i].RepliedLate? || events[i].Handled?
    ensures |events| <= Work(s) - Work(t)
    decreases |events|
  {
    hide Holding, Work, Step, Handles;
    if events != [] {
      var e, rest := events[0], events[1..];
      assert forall i :: 0 <= i < |rest| ==> rest[i] == events[i + 1];
      NoLateReply(s);
      StepKeeps(s, e);
      if e.Replied? {
        RepliedWorks(s, e.id, e.ret);
      } else {
        HandledWorks(s);
      }
      EveryChainEnds(Step(s, e), rest, t);
    }
  }

  lemma NoLateReply(s: State)
    requires Inv(s)
    ensures NoneStale(s.traffic)
  {
    hide Carried, Shaped, Laws, Settled, Owned;
  }
}
