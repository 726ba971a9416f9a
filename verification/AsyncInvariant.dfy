/** What holds between the steps of the asynchronous requests: what carries each of them, what
    it has been told, and what has become of it. */
module AsyncInvariant {
  import opened QtTypes
  import opened DataStream
  import opened ReturnValues
  import opened AsyncRequests

  // ------------------------------------------------------- what carries a request

  function Posts(queue: seq<Post>, layer: Layer, id: nat): nat {
    if queue == [] then 0
    else (if queue[0].layer == layer && queue[0].id == id then 1 else 0) + Posts(queue[1..], layer, id)
  }

  predicate PendingAt(q: Traffic, layer: Layer, id: nat) {
    id in q.pending && q.pending[id].layer == layer
  }

  ghost predicate StaleAt(q: Traffic, layer: Layer, id: nat) {
    exists b :: 0 <= b < |q.stale| && id in q.stale[b] && q.stale[b][id].layer == layer
  }

  /** Some entry waits to tell the outer request under this id, or the user. */
  ghost predicate Feeds(m: map<nat, ObjectSlot>, target: Target, id: nat) {
    exists j :: j in m && m[j].target == target && m[j].origin.id == id
  }

  /** A request of the layer below is made on behalf of this one. */
  ghost predicate Served(e: Entries, layer: Layer, id: nat) {
    match layer
    case GetService => false
    case SelectService => Feeds(e.get, Slot(SelectService), id)
    case Connect => id in e.select && e.select[id].target == Slot(Connect)
  }

  /** How many things could still complete this entry: queued events, bus calls, inner requests. */
  ghost function Carriers(e: Entries, q: Traffic, layer: Layer, id: nat): nat {
    Posts(q.queue, layer, id)
    + (if PendingAt(q, layer, id) then 1 else 0)
    + (if StaleAt(q, layer, id) then 1 else 0)
    + (if Served(e, layer, id) then 1 else 0)
  }

  datatype Key = Key(layer: Layer, id: nat)

  function Expected(e: Entries, hand: Option<Key>, layer: Layer, id: nat): nat {
    if id in e.At(layer) && hand != Some(Key(layer, id)) then 1 else 0
  }

  /** Every entry has one carrier, and every carrier an entry, save for the one in hand. */
  ghost predicate Carried(e: Entries, q: Traffic, hand: Option<Key>) {
    forall layer, id {:trigger Carriers(e, q, layer, id)} :: Carriers(e, q, layer, id) == Expected(e, hand, layer, id)
  }

  /** The ids of the requests in one map tell them apart. */
  ghost predicate Apart(m: map<nat, ObjectSlot>) {
    forall i, j :: i in m && j in m && i != j ==> m[i].origin.id != m[j].origin.id
  }

  function Above(layer: Layer): Target {
    if layer.GetService? then Slot(SelectService) else Slot(Connect)
  }

  ghost predicate SlotShaped(to: ObjectSlot, layer: Layer, j: nat, bus: nat, next: nat) {
    && (if layer == Connect then 1 else 2) <= j <= next
    && to.origin.bus == bus && to.origin.id <= j
    && (to.target.User? || (layer != Connect && to.target == Above(layer)))
    && (layer != Connect ==> to.origin.name.Some?)
    && (layer == SelectService ==> to.origin.id == j && to.past == [])
  }

  /** Entries of the current bus only, each for a request of its own; one connect at most. */
  ghost predicate MapShaped(m: map<nat, ObjectSlot>, layer: Layer, bus: nat, next: nat) {
    && Apart(m)
    && (forall j :: j in m ==> SlotShaped(m[j], layer, j, bus, next))
    && (layer == Connect ==> forall i, j :: i in m && j in m ==> i == j)
  }

  ghost predicate Shaped(e: Entries, bus: nat, next: nat) {
    forall layer :: MapShaped(e.At(layer), layer, bus, next)
  }

  /** The entry that waits for the result now. */
  function WaitsFor(to: ObjectSlot): Option<Key> {
    if to.target.Slot? then Some(Key(to.target.layer, to.origin.id)) else None
  }

  lemma {:induction false} PostsConcat(a: seq<Post>, b: seq<Post>, layer: Layer, id: nat)
    ensures Posts(a + b, layer, id) == Posts(a, layer, id) + Posts(b, layer, id)
  {
    if a == [] {
      assert a + b == b;
    } else {
      assert (a + b)[1..] == a[1..] + b;
      PostsConcat(a[1..], b, layer, id);
    }
  }

  lemma PostsOne(queue: seq<Post>, p: Post, layer: Layer, id: nat)
    ensures Posts(queue + [p], layer, id) == Posts(queue, layer, id) + if p.layer == layer && p.id == id then 1 else 0
  {
    PostsConcat(queue, [p], layer, id);
    assert [p][1..] == [];
  }

  lemma {:induction false} PostsCount(queue: seq<Post>, i: nat)
    requires i < |queue|
    ensures Posts(queue, queue[i].layer, queue[i].id) >= 1
  {
    if i > 0 {
      PostsCount(queue[1..], i - 1);
    }
  }

  lemma MinusFeeds(m: map<nat, ObjectSlot>, id: nat, target: Target, k: nat)
    requires id in m && Apart(m)
    ensures Feeds(Minus(m, id), target, k) <==> Feeds(m, target, k) && !(m[id].target == target && m[id].origin.id == k)
    ensures m[id].target == target && m[id].origin.id == k ==> Feeds(m, target, k)
  {
    if j :| j in m && m[j].target == target && m[j].origin.id == k && j != id {
      assert Minus(m, id)[j] == m[j];
    }
  }

  lemma PlusFeeds(m: map<nat, ObjectSlot>, n: nat, to: ObjectSlot, target: Target, k: nat)
    requires n !in m
    ensures Feeds(Plus(m, n, to), target, k) <==> Feeds(m, target, k) || (to.target == target && to.origin.id == k)
  {
    assert Plus(m, n, to)[n] == to;
    if j :| j in m && m[j].target == target && m[j].origin.id == k {
      assert Plus(m, n, to)[j] == m[j];
    }
  }

  lemma OtherMaps(e: Entries, layer: Layer, m: map<nat, ObjectSlot>)
    ensures forall l :: e.With(layer, m).At(l) == if l == layer then m else e.At(l)
  {
  }

  lemma TakeCarried(e: Entries, q: Traffic, layer: Layer, id: nat, bus: nat, next: nat)
    requires Carried(e, q, Some(Key(layer, id))) && Shaped(e, bus, next) && id in e.At(layer)
    ensures Carried(e.With(layer, Minus(e.At(layer), id)), q, WaitsFor(e.At(layer)[id]))
  {
    var f, to := e.With(layer, Minus(e.At(layer), id)), e.At(layer)[id];
    assert MapShaped(e.At(layer), layer, bus, next);
    assert SlotShaped(to, layer, id, bus, next);
    hide Posts, StaleAt, Feeds, Shaped;
    forall l, k ensures Carriers(f, q, l, k) == Expected(f, WaitsFor(to), l, k) {
      assert Carriers(e, q, l, k) == Expected(e, Some(Key(layer, id)), l, k);
      OtherMaps(e, layer, Minus(e.At(layer), id));
      if layer == GetService {
        MinusFeeds(e.get, id, Slot(SelectService), k);
      }
    }
  }

  lemma PutCarried(e: Entries, q: Traffic, layer: Layer, n: nat, to: ObjectSlot)
    requires Carried(e, q, WaitsFor(to)) && n !in e.At(layer)
    requires to.target.User? || (layer != Connect && to.target == Above(layer))
    requires layer == SelectService ==> to.origin.id == n
    requires to.target.Slot? ==> to.origin.id in e.At(to.target.layer)
    ensures Carried(e.With(layer, Plus(e.At(layer), n, to)), q, Some(Key(layer, n)))
  {
    var f := e.With(layer, Plus(e.At(layer), n, to));
    hide Posts, StaleAt, Feeds;
    forall l, k ensures Carriers(f, q, l, k) == Expected(f, Some(Key(layer, n)), l, k) {
      assert Carriers(e, q, l, k) == Expected(e, WaitsFor(to), l, k);
      OtherMaps(e, layer, Plus(e.At(layer), n, to));
      if layer == GetService {
        PlusFeeds(e.get, n, to, Slot(SelectService), k);
      }
    }
  }

  lemma AskedCarried(e: Entries, q: Traffic, n: nat, call: Call)
    requires Carried(e, q, Some(Key(call.layer, n))) && n in e.At(call.layer) && n !in q.pending
    ensures Carried(e, Asked(q, n, call), None)
  {
    hide Posts, Served;
    var r := Asked(q, n, call);
    forall l, k ensures Carriers(e, r, l, k) == Expected(e, None, l, k) {
      assert Carriers(e, q, l, k) == Expected(e, Some(Key(call.layer, n)), l, k);
      assert StaleAt(r, l, k) == StaleAt(q, l, k);
    }
  }

  lemma PostedCarried(e: Entries, q: Traffic, p: Post)
    requires Carried(e, q, Some(Key(p.layer, p.id))) && p.id in e.At(p.layer)
    ensures Carried(e, Posted(q, p), None)
  {
    hide Posts, Served;
    var r := Posted(q, p);
    forall l, k ensures Carriers(e, r, l, k) == Expected(e, None, l, k) {
      assert Carriers(e, q, l, k) == Expected(e, Some(Key(p.layer, p.id)), l, k);
      assert StaleAt(r, l, k) == StaleAt(q, l, k);
      PostsOne(q.queue, p, l, k);
    }
  }

  lemma PoppedCarried(e: Entries, q: Traffic)
    requires Carried(e, q, None) && q.queue != []
    ensures var p := q.queue[0];
      && p.id in e.At(p.layer)
      && Carried(e, q.(queue := q.queue[1..]), Some(Key(p.layer, p.id)))
  {
    var p, r := q.queue[0], q.(queue := q.queue[1..]);
    hide Served;
    assert Carriers(e, q, p.layer, p.id) >= 1;
    forall l, k ensures Carriers(e, r, l, k) == Expected(e, Some(Key(p.layer, p.id)), l, k) {
      assert Carriers(e, q, l, k) == Expected(e, None, l, k);
      assert StaleAt(r, l, k) == StaleAt(q, l, k);
    }
  }

  lemma ReplyCarried(e: Entries, q: Traffic, id: nat, ret: ReturnValue)
    requires Carried(e, q, None) && id in q.pending
    ensures Carried(e, ReplyTo(q, id, ret), None)
  {
    var r, p := ReplyTo(q, id, ret), Post(q.pending[id].layer, id, Told(q.pending[id].remote, ret));
    hide Served, Posts;
    forall l, k ensures Carriers(e, r, l, k) == Expected(e, None, l, k) {
      assert Carriers(e, q, l, k) == Expected(e, None, l, k);
      assert StaleAt(r, l, k) == StaleAt(q, l, k);
      PostsOne(q.queue, p, l, k);
    }
  }

  /** A new id has no carriers, and no call is pending under it. */
  lemma NothingAtNext(e: Entries, q: Traffic, hand: Option<Key>, bus: nat, next: nat, layer: Layer)
    requires Carried(e, q, hand) && Shaped(e, bus, next)
    ensures next + 1 !in e.At(layer) && next + 1 !in q.pending
    ensures forall i :: 0 <= i < |q.queue| ==> q.queue[i].layer != layer || q.queue[i].id != next + 1
    ensures forall j :: j in e.At(layer) ==> e.At(layer)[j].origin.id != next + 1
  {
    hide Apart;
    forall l ensures next + 1 !in e.At(l) && Carriers(e, q, l, next + 1) == 0 {
      assert MapShaped(e.At(l), l, bus, next);
      assert Carriers(e, q, l, next + 1) == Expected(e, hand, l, next + 1);
    }
    assert MapShaped(e.At(layer), layer, bus, next);
    forall i | 0 <= i < |q.queue| ensures q.queue[i].layer != layer || q.queue[i].id != next + 1 {
      PostsCount(q.queue, i);
    }
    if next + 1 in q.pending {
      PendingCarries(e, q, next + 1);
    }
  }

  lemma PendingCarries(e: Entries, q: Traffic, id: nat)
    requires id in q.pending
    ensures Carriers(e, q, q.pending[id].layer, id) >= 1
  {
    assert PendingAt(q, q.pending[id].layer, id);
  }

  // ------------------------------------------------- what a request has been told

  /** The call a getService makes after these exchanges. */
  function GetCall(past: seq<Exchange>, name: QString): Remote {
    if |past| <= 1 then Version
    else if |past| == 2 then if ToInt(past[1].ret.value) == 0 then SelectOriginal(name) else Select(name)
    else Auth
  }

  ghost predicate NoErrors(past: seq<Exchange>) {
    forall i :: 0 <= i < |past| ==> !past[i].ret.IsError()
  }

  /** A getService under way: the version twice, the selection that version calls for, and the
      authentication of a service selected; each asked after a reply without error. */
  ghost predicate GetChain(past: seq<Exchange>, name: QString) {
    && |past| <= 4
    && (forall i :: 0 <= i < |past| ==> past[i].Told? && past[i].remote == GetCall(past[..i], name))
    && (|past| > 0 ==> NoErrors(past[..|past| - 1]))
    && (|past| == 4 ==> past[2].remote == Select(name) && past[2].ret.IsService())
  }

  /** How a getService ends: with the first error; or with the reply to its selection, in
      versions that have services once the authentication has succeeded; or because the next
      call cannot be made. */
  ghost predicate GetEnds(past: seq<Exchange>, name: QString, ret: ReturnValue) {
    && GetChain(past, name) && past != []
    && var last := past[|past| - 1];
      if last.ret.IsError() then ret == last.ret
      else if |past| == 4 then ret == past[2].ret
      else if last.remote == SelectOriginal(name) then ret == last.ret
      else ret == NOT_CONNECTED
  }

  ghost predicate SelectEnds(past: seq<Exchange>, name: QString, ret: ReturnValue) {
    |past| == 1 && past[0].Within? && past[0].ret == ret && GetEnds(past[0].past, name, ret)
  }

  /** A connect under way: the url, its own default token, and the service asked for. */
  ghost predicate ConnectChain(past: seq<Exchange>, path: Option<QString>) {
    && |past| <= (if path.Some? then 3 else 2)
    && (|past| > 0 ==> past[0].Told? && past[0].remote == OpenUrl)
    && (|past| > 1 ==> past[1].Told? && past[1].remote == SetDefaultToken)
    && (|past| > 2 ==> past[2].Within? && SelectEnds(past[2].past, path.value, past[2].ret))
    && (|past| > 0 ==> NoErrors(past[..|past| - 1]))
  }

  ghost predicate ConnectEnds(past: seq<Exchange>, path: Option<QString>, ret: ReturnValue) {
    && ConnectChain(past, path) && past != []
    && var last := past[|past| - 1];
      if last.ret.IsError() || |past| == (if path.Some? then 3 else 2) then ret == last.ret else ret == NOT_CONNECTED
  }

  /** A completion tells the user what its own chain of calls came to. */
  ghost predicate Ends(layer: Layer, origin: Origin, past: seq<Exchange>, ret: ReturnValue) {
    match layer
    case GetService => origin.name.Some? && GetEnds(past, origin.name.value, ret)
    case SelectService => origin.name.Some? && SelectEnds(past, origin.name.value, ret)
    case Connect => ConnectEnds(past, origin.name, ret)
  }

  /** And it does so on the connection the request was made on: a service that is returned is
      registered on the connection the proxy is on, and the end of a connect sets its state. */
  ghost predicate Lawful(c: Completion) {
    Ends(c.layer, c.origin, c.past, c.ret) && c.bus == c.origin.bus
  }

  ghost predicate AllLawful(completions: seq<Completion>) {
    forall i {:trigger Lawful(completions[i])} :: 0 <= i < |completions| ==> Lawful(completions[i])
  }

  /** The status of a getService agrees with what it has been told. */
  ghost predicate GetLaw(to: ObjectSlot, statuses: map<nat, Status>) {
    && to.origin.id in statuses
    && var status := statuses[to.origin.id];
      && |to.past| == status.step <= 3
      && to.origin.name == Some(status.name)
      && GetChain(to.past, status.name) && NoErrors(to.past)
      && (status.step >= 2 ==> status.version == ToInt(to.past[1].ret.value))
      && (status.step == 3 ==> status.version != 0 && status.result == to.past[2].ret && status.result.IsService())
  }

  ghost predicate GetLaws(m: map<nat, ObjectSlot>, statuses: map<nat, Status>) {
    forall j {:trigger GetLaw(m[j], statuses)} :: j in m ==> GetLaw(m[j], statuses)
  }

  /** An inner request is for the service of the outer one, which waits for it. */
  ghost predicate Agree(e: Entries) {
    && (forall j :: j in e.get && e.get[j].target == Slot(SelectService) ==>
          e.get[j].origin.id in e.select && e.select[e.get[j].origin.id].origin == e.get[j].origin)
    && (forall k :: k in e.select && e.select[k].target == Slot(Connect) ==>
          k in e.connect && |e.connect[k].past| == 2 && e.connect[k].origin.name == e.select[k].origin.name)
  }

  /** The marks in the token say what the one connect has still to do. */
  ghost predicate ConnectLaw(to: ObjectSlot, link: Link) {
    && |to.past| <= 2 && ConnectChain(to.past, to.origin.name) && NoErrors(to.past)
    && (|to.past| == 2 ==> to.origin.name.Some?)
    && (link.setDefaultToken <==> to.past == [])
    && link.service == if |to.past| <= 1 then to.origin.name else None
  }

  ghost predicate ConnectLaws(m: map<nat, ObjectSlot>, link: Link) {
    forall j {:trigger ConnectLaw(m[j], link)} :: j in m ==> ConnectLaw(m[j], link)
  }

  /** What an entry may hear next. */
  ghost predicate Fits(to: ObjectSlot, layer: Layer, news: Exchange) {
    match layer
    case GetService =>
      && to.origin.name.Some? && news.Told? && news.remote == GetCall(to.past, to.origin.name.value)
      && Answers(news.remote, news.ret)
    case SelectService => to.origin.name.Some? && news.Within? && GetEnds(news.past, to.origin.name.value, news.ret)
    case Connect =>
      if |to.past| <= 1 then news.Told? && news.remote == ConnectCall(|to.past|)
      else to.origin.name.Some? && news.Within? && SelectEnds(news.past, to.origin.name.value, news.ret)
  }

  function ConnectCall(step: nat): Remote {
    if step == 0 then OpenUrl else SetDefaultToken
  }

  ghost predicate CallFits(e: Entries, j: nat, call: Call) {
    && j in e.At(call.layer)
    && forall ret :: Answers(call.remote, ret) ==> Fits(e.At(call.layer)[j], call.layer, Told(call.remote, ret))
  }

  ghost predicate CallLaws(e: Entries, pending: map<nat, Call>) {
    forall j {:trigger CallFits(e, j, pending[j])} :: j in pending ==> CallFits(e, j, pending[j])
  }

  ghost predicate PostFits(e: Entries, p: Post) {
    p.id in e.At(p.layer) && Fits(e.At(p.layer)[p.id], p.layer, p.news)
  }

  ghost predicate PostLaws(e: Entries, queue: seq<Post>) {
    forall i {:trigger PostFits(e, queue[i])} :: 0 <= i < |queue| ==> PostFits(e, queue[i])
  }

  ghost predicate Laws(s: State) {
    && GetLaws(s.entries.get, s.status) && Agree(s.entries) && ConnectLaws(s.entries.connect, s.link)
    && CallLaws(s.entries, s.traffic.pending) && PostLaws(s.entries, s.traffic.queue)
    && AllLawful(s.log.completions)
  }

  // ------------------------------------------------- what becomes of a request

  /** An entry that will complete this request. */
  ghost predicate IsOpen(e: Entries, k: Origin, r: Request) {
    StandsFor(e.At(r.layer), k, r.user)
  }

  ghost predicate StandsFor(m: map<nat, ObjectSlot>, k: Origin, user: nat) {
    exists j :: j in m && m[j].target == User(user) && m[j].origin == k
  }

  function Completed(completions: seq<Completion>, k: Origin): nat
    decreases |completions|
  {
    if completions == [] then 0
    else
      var n := |completions| - 1;
      Completed(completions[..n], k) + if completions[n].origin == k then 1 else 0
  }

  /** A request is open or has been completed, once; what is nobody's request is neither. */
  ghost predicate SettledAt(e: Entries, log: Log, k: Origin) {
    Completed(log.completions, k) == if k in log.accepted && !IsOpen(e, k, log.accepted[k]) then 1 else 0
  }

  ghost predicate Settled(e: Entries, log: Log) {
    forall k :: SettledAt(e, log, k)
  }

  ghost predicate MapOwned(m: map<nat, ObjectSlot>, layer: Layer, accepted: map<Origin, Request>) {
    forall j :: j in m && m[j].target.User? ==>
      m[j].origin in accepted && accepted[m[j].origin] == Request(layer, m[j].target.user)
  }

  ghost predicate CompletionsOwned(log: Log) {
    forall i :: 0 <= i < |log.completions| ==>
      var c := log.completions[i];
      c.origin in log.accepted && log.accepted[c.origin] == Request(c.layer, c.user)
  }

  /** Entries and completions are for the user who asked; ids not yet given belong to nobody. */
  ghost predicate Owned(e: Entries, log: Log, link: Link) {
    && (forall layer :: MapOwned(e.At(layer), layer, log.accepted))
    && CompletionsOwned(log)
    && Covers(log, link)
  }

  /** No earlier bus has a call left to answer. */
  ghost predicate NoneStale(q: Traffic) {
    forall b :: 0 <= b < |q.stale| ==> q.stale[b] == map[]
  }

  /** The invariant, perhaps while the event for one entry is in hand. */
  ghost predicate Holding(s: State, hand: Option<Key>) {
    && Carried(s.entries, s.traffic, hand)
    && Shaped(s.entries, s.link.bus, s.link.next)
    && Laws(s)
    && Settled(s.entries, s.log)
    && Owned(s.entries, s.log, s.link)
    && NoneStale(s.traffic)
    && (s.link.connected ==> s.link.next >= 1)
  }

  ghost predicate Inv(s: State) {
    Holding(s, None)
  }

  lemma CompletedOne(completions: seq<Completion>, c: Completion, k: Origin)
    ensures Completed(completions + [c], k) == Completed(completions, k) + if c.origin == k then 1 else 0
  {
    assert (completions + [c])[..|completions|] == completions;
  }

  lemma MinusStands(m: map<nat, ObjectSlot>, id: nat, k: Origin, user: nat)
    requires id in m && Apart(m)
    ensures StandsFor(Minus(m, id), k, user) <==> StandsFor(m, k, user) && !(m[id].target == User(user) && m[id].origin == k)
    ensures m[id].target == User(user) && m[id].origin == k ==> StandsFor(m, k, user)
  {
    if j :| j in m && m[j].target == User(user) && m[j].origin == k && j != id {
      assert Minus(m, id)[j] == m[j];
    }
  }

  lemma PlusStands(m: map<nat, ObjectSlot>, n: nat, to: ObjectSlot, k: Origin, user: nat)
    requires n !in m
    ensures StandsFor(Plus(m, n, to), k, user) <==> StandsFor(m, k, user) || (to.target == User(user) && to.origin == k)
  {
    assert Plus(m, n, to)[n] == to;
    if j :| j in m && m[j].target == User(user) && m[j].origin == k {
      assert Plus(m, n, to)[j] == m[j];
    }
  }

  /** The event in hand is all there is for its entry. */
  lemma NothingElse(e: Entries, q: Traffic, layer: Layer, id: nat)
    requires Carried(e, q, Some(Key(layer, id)))
    ensures !PendingAt(q, layer, id) && !Served(e, layer, id)
    ensures forall i :: 0 <= i < |q.queue| ==> q.queue[i].layer != layer || q.queue[i].id != id
  {
    assert Carriers(e, q, layer, id) == 0;
    forall i | 0 <= i < |q.queue| ensures q.queue[i].layer != layer || q.queue[i].id != id {
      PostsCount(q.queue, i);
    }
  }
}
