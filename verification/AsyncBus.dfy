/** The traffic of the asynchronous requests is what a message bus makes of their calls: between
    the bus of MessageBus and the Traffic of AsyncRequests. */
module AsyncBus {
  import opened QtTypes
  import opened ReturnValues
  import B = MessageBus
  import opened AsyncRequests

  const GET_SLOT := Q("getServiceCompleted(uint, ReturnValue)")
  const CONNECT_SLOT := Q("connectCompleted(uint, ReturnValue)")

  /** The slot of the proxy a reply goes to; none is the selectService slot, which is told by the proxy itself. */
  function SlotLayer(slot: QString): Option<Layer> {
    if slot == GET_SLOT then Some(GetService) else if slot == CONNECT_SLOT then Some(Connect) else None
  }

  predicate Ours(w: B.Waiting, proxy: nat) {
    !w.sync && w.receiver == Some(proxy) && SlotLayer(w.slot).Some?
  }

  /** What the bus keeps for this proxy; the bus does not keep what was asked. */
  function PendingCalls(wm: map<UInt32, B.Waiting>, proxy: nat, asked: nat -> Remote): map<nat, Call> {
    map id | id in wm && Ours(wm[id], proxy) :: Call(SlotLayer(wm[id].slot).value, asked(id))
  }

  /** What the bus has posted to it, in order. */
  function Events(posts: seq<B.Post>, proxy: nat, asked: nat -> Remote): seq<Post>
    decreases |posts|
  {
    if posts == [] then []
    else
      var n := |posts| - 1;
      Events(posts[..n], proxy, asked) + EventOf(posts[n], proxy, asked)
  }

  function EventOf(p: B.Post, proxy: nat, asked: nat -> Remote): seq<Post> {
    if p.receiver == proxy && SlotLayer(p.slot).Some? then
      [Post(SlotLayer(p.slot).value, p.id, Told(asked(p.id), p.value))]
    else []
  }

  function TrafficOf(s: B.State, proxy: nat, asked: nat -> Remote): Traffic {
    Traffic(PendingCalls(s.bus.wm, proxy, asked), [], Events(s.posts, proxy, asked))
  }

  function Heard(q: Traffic, id: nat, ret: ReturnValue): Traffic {
    if id in q.pending then ReplyTo(q, id, ret) else q
  }

  /** What a step of the bus is to the requests. */
  function Becomes(q: Traffic, s: B.State, e: B.Event, proxy: nat, asked: nat -> Remote): Traffic
    requires B.Enabled(s, e)
  {
    match e
    case CallAsync(receiver, slot) =>
      if receiver == Some(proxy) && SlotLayer(slot).Some? then
        Asked(q, s.issued + 1, Call(SlotLayer(slot).value, asked(s.issued + 1)))
      else q
    case Received(id, value) => Heard(q, id, value)
    case DisconnectResolves(d) => Heard(q, s.drains[d].left[0], B.DISCONNECTED)
    case _ => q
  }

  lemma EventsSnoc(posts: seq<B.Post>, p: B.Post, proxy: nat, asked: nat -> Remote)
    ensures Events(posts + [p], proxy, asked) == Events(posts, proxy, asked) + EventOf(p, proxy, asked)
  {
    assert (posts + [p])[..|posts|] == posts;
  }

  lemma PendingMinus(wm: map<UInt32, B.Waiting>, id: UInt32, proxy: nat, asked: nat -> Remote)
    ensures PendingCalls(wm - {id}, proxy, asked) == PendingCalls(wm, proxy, asked) - {id}
  {
  }

  lemma PendingPlus(wm: map<UInt32, B.Waiting>, id: UInt32, w: B.Waiting, proxy: nat, asked: nat -> Remote)
    requires id !in wm
    ensures var calls := PendingCalls(wm, proxy, asked);
      PendingCalls(wm[id := w], proxy, asked)
      == if Ours(w, proxy) then calls[id := Call(SlotLayer(w.slot).value, asked(id))] else calls
  {
  }

  lemma ReplyHeard(s: B.State, id: UInt32, value: ReturnValue, proxy: nat, asked: nat -> Remote)
    requires proxy !in s.dead
    ensures TrafficOf(B.ReplyStep(s, id, value), proxy, asked) == Heard(TrafficOf(s, proxy, asked), id, value)
  {
    if id in s.bus.wm {
      hide EventOf, Events, PendingCalls, Heard, SlotLayer;
      BusHears(s, id, value, proxy, asked);
      QueueHears(s, id, value, proxy, asked);
      HeardParts(TrafficOf(s, proxy, asked), id, value);
    }
  }

  lemma HeardParts(q: Traffic, id: nat, ret: ReturnValue)
    ensures Heard(q, id, ret) == Traffic(q.pending - {id}, q.stale,
      if id in q.pending then q.queue + [Post(q.pending[id].layer, id, Told(q.pending[id].remote, ret))] else q.queue)
  {
    assert id !in q.pending ==> q.pending - {id} == q.pending;
  }

  lemma BusHears(s: B.State, id: UInt32, value: ReturnValue, proxy: nat, asked: nat -> Remote)
    requires id in s.bus.wm
    ensures PendingCalls(B.ReplyStep(s, id, value).bus.wm, proxy, asked) == PendingCalls(s.bus.wm, proxy, asked) - {id}
  {
    PendingMinus(s.bus.wm, id, proxy, asked);
    hide PendingCalls;
  }

  lemma QueueHears(s: B.State, id: UInt32, value: ReturnValue, proxy: nat, asked: nat -> Remote)
    requires id in s.bus.wm && proxy !in s.dead
    ensures var w, queue := s.bus.wm[id], Events(s.posts, proxy, asked);
      Events(B.ReplyStep(s, id, value).posts, proxy, asked)
      == if Ours(w, proxy) then queue + [Post(SlotLayer(w.slot).value, id, Told(asked(id), value))] else queue
  {
    var w := s.bus.wm[id];
    if w.receiver.Some? {
      EventsSnoc(s.posts, B.Post(w.receiver.value, w.slot, id, value), proxy, asked);
    }
    hide Events, SlotLayer;
  }

  lemma CallMade(s: B.State, e: B.Event, proxy: nat, asked: nat -> Remote)
    requires e.CallSync? || e.CallAsync?
    requires B.NextId(s.bus) == s.issued + 1 && B.NextId(s.bus) !in s.bus.wm
    ensures TrafficOf(B.Step(s, e), proxy, asked) == Becomes(TrafficOf(s, proxy, asked), s, e, proxy, asked)
  {
    var id := B.NextId(s.bus);
    var w := if e.CallSync? then B.Waiting(true, None, []) else B.Waiting(false, e.receiver, e.slot);
    PendingPlus(s.bus.wm, id, w, proxy, asked);
    hide SlotLayer, PendingCalls, Events;
  }

  /** In every run of a bus, while its ids do not wrap and the proxy is there: each step is to the
      traffic of the proxy's requests a call under the next id, the one reply to a call not yet
      answered, or nothing. */
  lemma BusMakesTraffic(first: seq<B.Event>, s: B.State, e: B.Event, proxy: nat, asked: nat -> Remote)
    requires B.Reaches(B.START, first, s) && B.Enabled(s, e)
    requires s.issued + 1 < B.IDS && proxy !in s.dead
    ensures var q := TrafficOf(s, proxy, asked);
      && TrafficOf(B.Step(s, e), proxy, asked) == Becomes(q, s, e, proxy, asked)
      && forall id :: id in q.pending ==> 1 <= id <= s.issued
  {
    hide SlotLayer, B.Reaches, Becomes, B.Given;
    B.FreshId(s);
    B.CuridCounts(B.START, first, s);
    forall id | id in s.bus.wm ensures 1 <= id <= s.issued {
      IssuedBefore(s, id);
    }
    match e
    case CallSync => CallMade(s, e, proxy, asked);
    case CallAsync(_, _) => CallMade(s, e, proxy, asked);
    case Received(id, value) => HeardStep(s, e, id, value, proxy, asked);
    case DisconnectResolves(d) => HeardStep(s, e, s.drains[d].left[0], B.DISCONNECTED, proxy, asked);
    case _ => QuietStep(s, e, proxy, asked);
  }

  lemma IssuedBefore(s: B.State, id: UInt32)
    requires B.Reachable(s) && id in s.bus.wm && s.issued < B.IDS
    ensures 1 <= id <= s.issued
  {
    hide B.Reachable;
    B.OnePlace(s, id);
  }

  lemma HeardStep(s: B.State, e: B.Event, id: UInt32, value: ReturnValue, proxy: nat, asked: nat -> Remote)
    requires B.Enabled(s, e) && proxy !in s.dead
    requires e == B.Received(id, value)
             || (e.DisconnectResolves? && id == s.drains[e.drain].left[0] && value == B.DISCONNECTED)
    ensures TrafficOf(B.Step(s, e), proxy, asked) == Becomes(TrafficOf(s, proxy, asked), s, e, proxy, asked)
  {
    ReplyHeard(s, id, value, proxy, asked);
    hide SlotLayer, PendingCalls, Events, Heard, B.Receive;
  }

  /** The other steps of the bus are no concern of the proxy's. */
  lemma QuietStep(s: B.State, e: B.Event, proxy: nat, asked: nat -> Remote)
    requires B.Enabled(s, e) && !e.CallSync? && !e.CallAsync? && !e.Received? && !e.DisconnectResolves?
    ensures TrafficOf(B.Step(s, e), proxy, asked) == Becomes(TrafficOf(s, proxy, asked), s, e, proxy, asked)
  {
  }
}
