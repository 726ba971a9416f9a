/** lib/clientmessagebus.cpp: matching replies to calls, for callers that wait and callers that
    do not, on any number of threads. Every stretch of code that holds the mutex is one step. */
module MessageBus {
  import opened QtTypes
  import opened ReturnValues

  const IDS := 0x1_0000_0000

  /** What the bus keeps of a call (`receiver` is None for a null pointer). */
  datatype Waiting = Waiting(sync: bool, receiver: Option<nat>, slot: QString)
  const NO_CALL := Waiting(false, None, [])

  /** The fields behind the mutex. */
  datatype Bus = Bus(curid: UInt32, wm: map<UInt32, Waiting>, returnValues: map<UInt32, ReturnValue>)

  const NEW_BUS := Bus(0, map[], map[])

  /** A queued invocation of `slot` on `receiver`. */
  datatype Post = Post(receiver: nat, slot: QString, id: UInt32, value: ReturnValue)

  /** What a received return value sets off outside the bus. */
  datatype Effect = Nothing | WakeAll | Invoke(post: Post) | Drop

  const DISCONNECTED := FromError(1, Q("Disconnected from server"))
  const TIMED_OUT := FromError(1, Q("Timed out while waiting for reply on the MessageBus."))
  const SAME_THREAD := FromError(1, Q("You cannot call functions from the same thread as the message bus, this breaks EVERYTHING."))

  function NextId(b: Bus): UInt32 {
    ToUInt32(b.curid + 1)
  }

  /** `wm[id].sync = true` keeps whatever else an entry under the id already held. */
  function RegisterSync(b: Bus): Bus {
    var id := NextId(b);
    var previous := if id in b.wm then b.wm[id] else NO_CALL;
    b.(curid := id, wm := b.wm[id := previous.(sync := true)])
  }

  function RegisterAsync(b: Bus, receiver: Option<nat>, slot: QString): Bus {
    var id := NextId(b);
    b.(curid := id, wm := b.wm[id := Waiting(false, receiver, slot)])
  }

  function Receive(b: Bus, dead: set<nat>, id: UInt32, value: ReturnValue): (Bus, Effect) {
    if id !in b.wm then (b, Nothing)
    else
      var w, rest := b.wm[id], b.(wm := b.wm - {id});
      if w.sync then (rest.(returnValues := b.returnValues[id := value]), WakeAll)
      else if w.receiver.None? || w.receiver.value in dead then (rest, Drop)
      else (rest, Invoke(Post(w.receiver.value, w.slot, id, value)))
  }

  /** Receive over a list of ids, as disconnected() does when nothing comes between. */
  function ReceiveAll(b: Bus, dead: set<nat>, ids: seq<UInt32>, value: ReturnValue): (Bus, seq<Post>)
    decreases |ids|
  {
    if ids == [] then (b, [])
    else
      var n := |ids| - 1;
      var (b1, posts) := ReceiveAll(b, dead, ids[..n], value);
      var (b2, effect) := Receive(b1, dead, ids[n], value);
      (b2, if effect.Invoke? then posts + [effect.post] else posts)
  }

  ghost predicate Enumerates<K>(keys: seq<K>, s: set<K>) {
    && (forall i :: 0 <= i < |keys| ==> keys[i] in s)
    && (forall k :: k in s ==> k in keys)
    && (forall i, j :: 0 <= i < j < |keys| ==> keys[i] != keys[j])
  }

  /** The object itself: each method is one stretch of code that holds the mutex. */
  class ClientMessageBus {
    var curid: UInt32
    var wm: map<UInt32, Waiting>
    var returnValues: map<UInt32, ReturnValue>

    ghost function Contents(): Bus
      reads this
    {
      Bus(curid, wm, returnValues)
    }

    constructor ()
      ensures Contents() == NEW_BUS
    {
      curid, wm, returnValues := 0, map[], map[];
    }

    /** A waiting call, up to where it first waits. */
    method BeginSync(sameThread: bool) returns (r: Option<ReturnValue>, id: UInt32)
      modifies this
      ensures sameThread ==> r == Some(SAME_THREAD) && SAME_THREAD.IsError() && Contents() == old(Contents())
      ensures !sameThread ==> r == None && id == NextId(old(Contents())) && Contents() == RegisterSync(old(Contents()))
    {
      if sameThread {
        return Some(SAME_THREAD), 0;
      }
      curid := ToUInt32(curid + 1);
      id := curid;
      if id !in wm {
        wm := wm[id := NO_CALL];
      }
      wm := wm[id := wm[id].(sync := true)];
      r := None;
    }

    /** A waiting call, from one return of `wait` to the next wait or the return. */
    method Resume(id: UInt32, woken: bool, expired: bool) returns (r: Option<ReturnValue>)
      modifies this
      ensures Contents() == old(Contents()).(returnValues := returnValues)
      ensures woken && !expired && id in old(returnValues) ==>
                r == Some(old(returnValues)[id]) && returnValues == old(returnValues) - {id}
      ensures !(woken && !expired && id in old(returnValues)) ==> returnValues == old(returnValues)
      ensures woken && !expired && id !in old(returnValues) ==> r == None
      ensures !woken || expired ==> r == Some(TIMED_OUT) && TIMED_OUT.IsError()
    {
      if !woken || expired {
        return Some(TIMED_OUT);
      }
      if id in returnValues {
        r := Some(returnValues[id]);
        returnValues := returnValues - {id};
        return;
      }
      r := None;
    }

    method CallAsync(receiver: Option<nat>, slot: QString) returns (id: UInt32)
      modifies this
      ensures id == NextId(old(Contents())) && Contents() == RegisterAsync(old(Contents()), receiver, slot)
    {
      curid := ToUInt32(curid + 1);
      id := curid;
      if id !in wm {
        wm := wm[id := NO_CALL];
      }
      wm := wm[id := wm[id].(sync := false)];
      wm := wm[id := wm[id].(receiver := receiver)];
      wm := wm[id := wm[id].(slot := slot)];
    }

    method ReturnReceived(dead: set<nat>, id: UInt32, value: ReturnValue) returns (effect: Effect)
      modifies this
      ensures (Contents(), effect) == Receive(old(Contents()), dead, id, value)
    {
      if id !in wm {
        return Nothing;
      }
      var w := wm[id];
      wm := wm - {id};
      if w.sync {
        returnValues := returnValues[id := value];
        return WakeAll;
      }
      if w.receiver.None? || w.receiver.value in dead {
        return Drop;
      }
      return Invoke(Post(w.receiver.value, w.slot, id, value));
    }

    /** disconnected(), when no other thread takes the mutex between its steps: every pending
        call is resolved, once each, and waits for nothing any more. */
    method Disconnected(dead: set<nat>, keys: seq<UInt32>) returns (posts: seq<Post>)
      requires Enumerates(keys, wm.Keys)
      modifies this
      ensures wm == map[] && curid == old(curid)
      ensures (Contents(), posts) == ReceiveAll(old(Contents()), dead, keys, DISCONNECTED)
      ensures Resolved(old(Contents()), Contents(), keys, DISCONNECTED) && DISCONNECTED.IsError()
    {
      posts := [];
      ghost var before := Contents();
      for i := 0 to |keys|
        invariant (Contents(), posts) == ReceiveAll(before, dead, keys[..i], DISCONNECTED)
      {
        assert keys[..i + 1][..i] == keys[..i];
        var effect := ReturnReceived(dead, keys[i], DISCONNECTED);
        if effect.Invoke? {
          posts := posts + [effect.post];
        }
      }
      assert keys[..|keys|] == keys;
      ReceiveAllMeans(before, dead, keys, DISCONNECTED);
    }
  }

  /** `after` is `b` with the given calls resolved. */
  ghost predicate Resolved(b: Bus, after: Bus, ids: seq<UInt32>, value: ReturnValue) {
    && after.curid == b.curid
    && (forall id :: id in after.wm <==> id in b.wm && id !in ids)
    && (forall id :: id in after.wm ==> after.wm[id] == b.wm[id])
    && (forall id :: id in after.returnValues <==>
          id in b.returnValues || (id in b.wm && b.wm[id].sync && id in ids))
    && (forall id :: id in after.returnValues ==>
          after.returnValues[id] == if id in b.wm && b.wm[id].sync && id in ids then value else b.returnValues[id])
  }

  lemma ResolvedOneMore(b: Bus, b1: Bus, dead: set<nat>, ids: seq<UInt32>, id: UInt32, value: ReturnValue)
    requires Resolved(b, b1, ids, value) && id !in ids
    ensures Resolved(b, Receive(b1, dead, id, value).0, ids + [id], value)
  {
    assert forall k :: k in ids + [id] <==> k in ids || k == id;
  }

  lemma {:induction false} ReceiveAllMeans(b: Bus, dead: set<nat>, ids: seq<UInt32>, value: ReturnValue)
    requires forall i, j :: 0 <= i < j < |ids| ==> ids[i] != ids[j]
    ensures Resolved(b, ReceiveAll(b, dead, ids, value).0, ids, value)
    decreases |ids|
  {
    if ids != [] {
      var n := |ids| - 1;
      ReceiveAllMeans(b, dead, ids[..n], value);
      var b1 := ReceiveAll(b, dead, ids[..n], value).0;
      hide Resolved, Receive;
      ResolvedOneMore(b, b1, dead, ids[..n], ids[n], value);
      assert ids[..n] + [ids[n]] == ids;
    }
  }

  // ------------------------------------------------------------------ runs

  /** A thread inside the waiting form of callFunction, by the id of its call. */
  datatype Caller = Blocked | Signalled | Returned(value: ReturnValue) | GaveUp

  /** A running or finished disconnected(): what it saw, and what it has still to resolve. */
  datatype Drain = Drain(snapshot: set<UInt32>, left: seq<UInt32>, finished: bool)

  /** What anybody watching the bus would have seen. */
  datatype Entry = Issued(id: UInt32, sync: bool) | Reply(id: UInt32, value: ReturnValue)

  datatype State = State(
    bus: Bus,
    callers: map<UInt32, Caller>,
    posts: seq<Post>,
    dropped: set<UInt32>,
    dead: set<nat>,
    drains: seq<Drain>,
    issued: nat,
    history: seq<Entry>)

  const START := State(NEW_BUS, map[], [], {}, {}, [], 0, [])

  datatype Event =
    | CallSync
    | CallAsync(receiver: Option<nat>, slot: QString)
    | Received(id: UInt32, value: ReturnValue)
    | Wakes(id: UInt32, expired: bool)       // signalled, or for no reason at all
    | WaitTimesOut(id: UInt32)
    | Destroyed(gone: nat)
    | DisconnectBegins(keys: seq<UInt32>)
    | DisconnectResolves(drain: nat)
    | DisconnectEnds(drain: nat)

  function WakeCallers(callers: map<UInt32, Caller>): map<UInt32, Caller> {
    map id | id in callers :: if callers[id] == Blocked then Signalled else callers[id]
  }

  predicate Waits(s: State, id: UInt32) {
    id in s.callers && (s.callers[id] == Blocked || s.callers[id] == Signalled)
  }

  ghost predicate Enabled(s: State, e: Event) {
    match e
    case Wakes(id, _) => Waits(s, id)
    case WaitTimesOut(id) => Waits(s, id)
    case DisconnectBegins(keys) => Enumerates(keys, s.bus.wm.Keys)
    case DisconnectResolves(d) => d < |s.drains| && s.drains[d].left != []
    case DisconnectEnds(d) => d < |s.drains| && s.drains[d].left == [] && !s.drains[d].finished
    case _ => true
  }

  function ReplyStep(s: State, id: UInt32, value: ReturnValue): State {
    var (bus, effect) := Receive(s.bus, s.dead, id, value);
    var t := s.(bus := bus, history := s.history + [Reply(id, value)]);
    match effect
    case Nothing => t
    case WakeAll => t.(callers := WakeCallers(s.callers))
    case Invoke(post) => t.(posts := s.posts + [post])
    case Drop => t.(dropped := s.dropped + {id})
  }

  function WakeStep(s: State, id: UInt32, expired: bool): State {
    if expired then s.(callers := s.callers[id := GaveUp])
    else if id in s.bus.returnValues then
      s.(callers := s.callers[id := Returned(s.bus.returnValues[id])],
         bus := s.bus.(returnValues := s.bus.returnValues - {id}))
    else s.(callers := s.callers[id := Blocked])
  }

  function Step(s: State, e: Event): State
    requires Enabled(s, e)
  {
    match e
    case CallSync =>
      var id := NextId(s.bus);
      s.(bus := RegisterSync(s.bus), callers := s.callers[id := Blocked],
         issued := s.issued + 1, history := s.history + [Issued(id, true)])
    case CallAsync(receiver, slot) =>
      var id := NextId(s.bus);
      s.(bus := RegisterAsync(s.bus, receiver, slot),
         issued := s.issued + 1, history := s.history + [Issued(id, false)])
    case Received(id, value) => ReplyStep(s, id, value)
    case Wakes(id, expired) => WakeStep(s, id, expired)
    case WaitTimesOut(id) => s.(callers := s.callers[id := GaveUp])
    case Destroyed(gone) => s.(dead := s.dead + {gone})
    case DisconnectBegins(keys) => s.(drains := s.drains + [Drain(s.bus.wm.Keys, keys, false)])
    case DisconnectResolves(d) =>
      var drain := s.drains[d];
      ReplyStep(s, drain.left[0], DISCONNECTED).(drains := s.drains[d := drain.(left := drain.left[1..])])
    case DisconnectEnds(d) =>
      s.(callers := WakeCallers(s.callers), drains := s.drains[d := s.drains[d].(finished := true)])
  }

  ghost predicate Reaches(s: State, events: seq<Event>, t: State)
    decreases |events|
  {
    if events == [] then s == t
    else Enabled(s, events[0]) && Reaches(Step(s, events[0]), events[1..], t)
  }

  // --------------------------------------------------------- what is owed

  /** What a watcher of the bus knows of an id. */
  datatype Standing = Unknown | Pending(sync: bool) | Answered(sync: bool, value: ReturnValue)

  function After(standing: Standing, id: UInt32, entry: Entry): Standing {
    if entry.id != id then standing
    else match entry
      case Issued(_, sync) => Pending(sync)
      case Reply(_, value) => if standing.Pending? then Answered(standing.sync, value) else standing
  }

  function StandingOf(history: seq<Entry>, id: UInt32): Standing
    decreases |history|
  {
    if history == [] then Unknown
    else After(StandingOf(history[..|history| - 1], id), id, history[|history| - 1])
  }

  /** No entry between the two positions concerns the id. */
  ghost predicate Silent(history: seq<Entry>, id: UInt32, from: int, to: int) {
    forall k :: 0 <= from < k < to <= |history| ==> history[k].id != id
  }

  ghost predicate FirstReplyAt(history: seq<Entry>, id: UInt32, sync: bool, value: ReturnValue, i: int, j: int) {
    && 0 <= i < j < |history|
    && history[i] == Issued(id, sync) && history[j] == Reply(id, value)
    && Silent(history, id, i, j)
    && (forall k :: j < k < |history| ==> history[k].id == id ==> history[k].Reply?)
  }

  ghost predicate UnansweredFrom(history: seq<Entry>, id: UInt32, sync: bool, i: int) {
    0 <= i < |history| && history[i] == Issued(id, sync) && Silent(history, id, i, |history|)
  }

  /** An id is answered with a value exactly when that was the first reply to its latest call. */
  lemma {:induction false} StandingMeans(history: seq<Entry>, id: UInt32, sync: bool, value: ReturnValue)
    ensures StandingOf(history, id) == Answered(sync, value) <==>
            exists i, j :: FirstReplyAt(history, id, sync, value, i, j)
    ensures StandingOf(history, id) == Pending(sync) <==> exists i :: UnansweredFrom(history, id, sync, i)
    decreases |history|
  {
    if history != [] {
      var n := |history| - 1;
      var h, e := history[..n], history[n];
      StandingMeans(h, id, sync, value);
      AnsweredExtends(h, id, sync, value, e);
      PendingExtends(h, id, sync, e);
      assert history == h + [e];
    }
  }

  lemma PendingExtends(h: seq<Entry>, id: UInt32, sync: bool, e: Entry)
    ensures (exists i :: UnansweredFrom(h + [e], id, sync, i)) <==>
            e == Issued(id, sync) || (e.id != id && exists i :: UnansweredFrom(h, id, sync, i))
  {
    var g, n := h + [e], |h|;
    if e == Issued(id, sync) {
      assert UnansweredFrom(g, id, sync, n);
    } else {
      forall i | UnansweredFrom(g, id, sync, i)
        ensures e.id != id && UnansweredFrom(h, id, sync, i)
      {
        assert g[n] == e;
        assert forall k :: 0 <= k < n ==> h[k] == g[k];
      }
      forall i | UnansweredFrom(h, id, sync, i) && e.id != id
        ensures UnansweredFrom(g, id, sync, i)
      {
      }
    }
  }

  lemma AnsweredExtends(h: seq<Entry>, id: UInt32, sync: bool, value: ReturnValue, e: Entry)
    ensures (exists i, j :: FirstReplyAt(h + [e], id, sync, value, i, j)) <==>
            || (e == Reply(id, value) && exists i :: UnansweredFrom(h, id, sync, i))
            || ((e.id == id ==> e.Reply?) && exists i, j :: FirstReplyAt(h, id, sync, value, i, j))
  {
    var g, n := h + [e], |h|;
    assert g[n] == e && forall k :: 0 <= k < n ==> h[k] == g[k];
    forall i, j | FirstReplyAt(g, id, sync, value, i, j)
      ensures if j == n then e == Reply(id, value) && UnansweredFrom(h, id, sync, i)
              else (e.id == id ==> e.Reply?) && FirstReplyAt(h, id, sync, value, i, j)
    {
    }
    forall i | UnansweredFrom(h, id, sync, i) && e == Reply(id, value)
      ensures FirstReplyAt(g, id, sync, value, i, n)
    {
    }
    forall i, j | FirstReplyAt(h, id, sync, value, i, j) && (e.id == id ==> e.Reply?)
      ensures FirstReplyAt(g, id, sync, value, i, j)
    {
    }
  }

  // -------------------------------------------------------------- invariant

  /** The ids the first `issued` calls got, while no two got the same. */
  predicate Given(issued: nat, id: UInt32) {
    1 <= id <= issued || (id == 0 && issued >= IDS)
  }

  /** The values posted for an id, in order. */
  function PostedFor(posts: seq<Post>, id: UInt32): seq<ReturnValue>
    decreases |posts|
  {
    if posts == [] then []
    else
      var n := |posts| - 1;
      PostedFor(posts[..n], id) + if posts[n].id == id then [posts[n].value] else []
  }

  /** Where everything about one id is, given what the watcher knows of it. */
  ghost predicate Fate(s: State, id: UInt32) {
    match StandingOf(s.history, id)
    case Unknown =>
      && !Given(s.issued, id)
      && id !in s.bus.wm && id !in s.bus.returnValues && id !in s.callers
      && id !in s.dropped && PostedFor(s.posts, id) == []
    case Pending(sync) =>
      && Given(s.issued, id)
      && id in s.bus.wm && s.bus.wm[id].sync == sync
      && id !in s.bus.returnValues
      && id !in s.dropped && PostedFor(s.posts, id) == []
      && (if sync then id in s.callers && !s.callers[id].Returned? else id !in s.callers)
    case Answered(true, value) =>
      && Given(s.issued, id)
      && id !in s.bus.wm
      && id !in s.dropped && PostedFor(s.posts, id) == []
      && id in s.callers
      && (if id in s.bus.returnValues
          then s.bus.returnValues[id] == value && (s.callers[id] == Signalled || s.callers[id] == GaveUp)
          else s.callers[id] == Returned(value))
    case Answered(false, value) =>
      && Given(s.issued, id)
      && id !in s.bus.wm && id !in s.bus.returnValues && id !in s.callers
      && PostedFor(s.posts, id) == if id in s.dropped then [] else [value]
  }

  /** What a disconnect saw pending is in its list or has its answer. */
  ghost predicate Covered(s: State, d: Drain) {
    && (d.finished ==> d.left == [])
    && forall id :: id in d.snapshot ==> id in d.left || StandingOf(s.history, id).Answered?
  }

  ghost predicate Inv(s: State) {
    && s.bus.curid == s.issued % IDS
    && (forall id: UInt32 :: Fate(s, id))
    && (forall d :: 0 <= d < |s.drains| ==> Covered(s, s.drains[d]))
  }

  lemma StandingSnoc(history: seq<Entry>, e: Entry, id: UInt32)
    ensures StandingOf(history + [e], id) == After(StandingOf(history, id), id, e)
  {
    assert (history + [e])[..|history|] == history;
  }

  lemma PostedSnoc(posts: seq<Post>, p: Post, id: UInt32)
    ensures PostedFor(posts + [p], id) == PostedFor(posts, id) + if p.id == id then [p.value] else []
  {
    assert (posts + [p])[..|posts|] == posts;
  }

  lemma NextIsFresh(s: State)
    requires s.bus.curid == s.issued % IDS && s.issued < IDS
    ensures !Given(s.issued, NextId(s.bus))
    ensures forall id: UInt32 :: Given(s.issued + 1, id) <==> Given(s.issued, id) || id == NextId(s.bus)
    ensures NextId(s.bus) == (s.issued + 1) % IDS
  {
  }

  lemma CallKeeps(s: State, e: Event)
    requires Inv(s) && s.issued < IDS && (e.CallSync? || e.CallAsync?)
    ensures Inv(Step(s, e))
  {
    var t, newId := Step(s, e), NextId(s.bus);
    NextIsFresh(s);
    var entry := t.history[|s.history|];
    assert Fate(s, newId);
    hide StandingOf, PostedFor, NextId, Given;
    forall id: UInt32 ensures Fate(t, id) && StandingOf(t.history, id) == After(StandingOf(s.history, id), id, entry) {
      assert Fate(s, id);
      StandingSnoc(s.history, entry, id);
    }
    forall d | 0 <= d < |t.drains| ensures Covered(t, t.drains[d]) {
      assert Covered(s, s.drains[d]);
      forall id | id in s.drains[d].snapshot && StandingOf(s.history, id).Answered?
        ensures StandingOf(t.history, id).Answered?
      {
        assert Fate(s, id);
      }
    }
  }

  lemma ReplyFate(s: State, id0: UInt32, value: ReturnValue, id: UInt32)
    requires Fate(s, id)
    ensures Fate(ReplyStep(s, id0, value), id)
    ensures StandingOf(s.history, id).Answered? ==> StandingOf(ReplyStep(s, id0, value).history, id).Answered?
    ensures id == id0 && id in s.bus.wm ==> StandingOf(ReplyStep(s, id0, value).history, id).Answered?
  {
    hide StandingOf, PostedFor, Given;
    StandingSnoc(s.history, Reply(id0, value), id);
    var t := ReplyStep(s, id0, value);
    if |t.posts| > |s.posts| {
      PostedSnoc(s.posts, t.posts[|s.posts|], id);
    }
  }

  lemma ReplyKeeps(s: State, id0: UInt32, value: ReturnValue)
    requires Inv(s)
    ensures var t := ReplyStep(s, id0, value); Inv(t) && t.drains == s.drains && t.issued == s.issued
    ensures Given(s.issued, id0) ==> StandingOf(ReplyStep(s, id0, value).history, id0).Answered?
  {
    var t := ReplyStep(s, id0, value);
    forall id: UInt32
      ensures Fate(t, id) && (StandingOf(s.history, id).Answered? ==> StandingOf(t.history, id).Answered?)
      ensures id == id0 && Given(s.issued, id0) ==> StandingOf(t.history, id0).Answered?
    {
      assert Fate(s, id);
      ReplyFate(s, id0, value, id);
    }
    forall d | 0 <= d < |t.drains| ensures Covered(t, t.drains[d]) {
      assert Covered(s, s.drains[d]);
    }
  }

  lemma CallerKeeps(s: State, e: Event)
    requires Inv(s) && Enabled(s, e) && (e.Wakes? || e.WaitTimesOut? || e.Destroyed? || e.DisconnectEnds?)
    ensures Inv(Step(s, e))
  {
    hide StandingOf, PostedFor, Given;
    var t := Step(s, e);
    forall id: UInt32 ensures Fate(t, id) {
      assert Fate(s, id);
    }
    forall d | 0 <= d < |t.drains| ensures Covered(t, t.drains[d]) {
      assert Covered(s, s.drains[d]);
    }
  }

  lemma BeginKeeps(s: State, keys: seq<UInt32>)
    requires Inv(s) && Enumerates(keys, s.bus.wm.Keys)
    ensures Inv(Step(s, DisconnectBegins(keys)))
  {
    var t := Step(s, DisconnectBegins(keys));
    forall id: UInt32 ensures Fate(t, id) {
      assert Fate(s, id);
    }
    forall d | 0 <= d < |t.drains| ensures Covered(t, t.drains[d]) {
      assert d < |s.drains| ==> Covered(s, s.drains[d]);
    }
  }

  ghost predicate SnapshotsGiven(s: State) {
    forall d :: 0 <= d < |s.drains| ==>
      forall id :: id in s.drains[d].snapshot || id in s.drains[d].left ==> Given(s.issued, id)
  }

  lemma ResolveKeeps(s: State, d: nat)
    requires Inv(s) && SnapshotsGiven(s) && Enabled(s, DisconnectResolves(d))
    ensures Inv(Step(s, DisconnectResolves(d)))
  {
    var drain, t := s.drains[d], Step(s, DisconnectResolves(d));
    var id0 := drain.left[0];
    var r := ReplyStep(s, id0, DISCONNECTED);
    ReplyKeeps(s, id0, DISCONNECTED);
    assert id0 in drain.left;
    assert Covered(r, drain);
    forall id: UInt32 ensures Fate(t, id) {
      assert Fate(r, id);
    }
    forall k | 0 <= k < |t.drains| ensures Covered(t, t.drains[k]) {
      assert Covered(r, r.drains[k]);
    }
  }

  lemma SnapshotsKeep(s: State, e: Event)
    requires Inv(s) && SnapshotsGiven(s) && Enabled(s, e)
    ensures SnapshotsGiven(Step(s, e))
  {
    var t := Step(s, e);
    if e.DisconnectBegins? {
      forall id | id in s.bus.wm ensures Given(s.issued, id) {
        assert Fate(s, id);
      }
    }
  }

  lemma StepKeeps(s: State, e: Event)
    requires Inv(s) && SnapshotsGiven(s) && Enabled(s, e) && Step(s, e).issued <= IDS
    ensures Inv(Step(s, e)) && SnapshotsGiven(Step(s, e))
  {
    SnapshotsKeep(s, e);
    match e
    case CallSync => CallKeeps(s, e);
    case CallAsync(_, _) => CallKeeps(s, e);
    case Received(id, value) => ReplyKeeps(s, id, value);
    case DisconnectBegins(keys) => BeginKeeps(s, keys);
    case DisconnectResolves(d) => ResolveKeeps(s, d);
    case _ => CallerKeeps(s, e);
  }

  lemma {:induction false} IssuedGrows(s: State, events: seq<Event>, t: State)
    requires Reaches(s, events, t)
    ensures s.issued <= t.issued
    decreases |events|
  {
    if events != [] {
      IssuedGrows(Step(s, events[0]), events[1..], t);
    }
  }

  lemma {:induction false} InvAlways(s: State, events: seq<Event>, t: State)
    requires Inv(s) && SnapshotsGiven(s) && Reaches(s, events, t) && t.issued <= IDS
    ensures Inv(t) && SnapshotsGiven(t)
    decreases |events|
  {
    if events != [] {
      var u := Step(s, events[0]);
      IssuedGrows(u, events[1..], t);
      StepKeeps(s, events[0]);
      InvAlways(u, events[1..], t);
    }
  }

  ghost predicate Reachable(t: State) {
    t.issued <= IDS && exists events :: Reaches(START, events, t)
  }

  lemma ReachableInv(t: State)
    requires Reachable(t)
    ensures Inv(t) && SnapshotsGiven(t)
  {
    var events :| Reaches(START, events, t);
    assert forall id: UInt32 :: Fate(START, id);
    InvAlways(START, events, t);
  }

  // ---------------------------------------------------------------- results

  /** In every run of at most 2^32 calls, an id that was ever given out is in exactly one place:
      pending, stored for its caller, taken by its caller, posted to its object, or dropped
      with it; nothing is anywhere for an id not given out. */
  lemma OnePlace(t: State, id: UInt32)
    requires Reachable(t)
    ensures Given(t.issued, id) <==> !StandingOf(t.history, id).Unknown?
    ensures var pending, stored := id in t.bus.wm, id in t.bus.returnValues;
      var returned := id in t.callers && t.callers[id].Returned?;
      var posted, dropped := |PostedFor(t.posts, id)|, id in t.dropped;
      posted + (if pending then 1 else 0) + (if stored then 1 else 0)
        + (if returned then 1 else 0) + (if dropped then 1 else 0)
      == if Given(t.issued, id) then 1 else 0
    ensures id in t.bus.wm <==> StandingOf(t.history, id).Pending?
  {
    ReachableInv(t);
    assert Fate(t, id);
  }

  /** A new call gets an id nothing refers to. */
  lemma FreshId(t: State)
    requires Reachable(t) && t.issued < IDS
    ensures var id := NextId(t.bus);
      && !Given(t.issued, id) && StandingOf(t.history, id) == Unknown
      && id !in t.bus.wm && id !in t.bus.returnValues && id !in t.callers
  {
    ReachableInv(t);
    NextIsFresh(t);
    assert Fate(t, NextId(t.bus));
  }

  /** A waiting call that returns a value returns the first reply to its own id, whatever came
      later; and an object is told the first reply to its own call, and once. */
  lemma FirstReplyOnly(t: State, id: UInt32, value: ReturnValue)
    requires Reachable(t)
    requires (id in t.callers && t.callers[id] == Returned(value)) || value in PostedFor(t.posts, id)
    ensures exists i, j :: FirstReplyAt(t.history, id, id in t.callers, value, i, j)
    ensures id !in t.callers ==> PostedFor(t.posts, id) == [value]
  {
    ReachableInv(t);
    assert Fate(t, id);
    StandingMeans(t.history, id, id in t.callers, value);
  }

  /** A reply to an id that is not pending leaves everything but the history as it was. */
  lemma LateReplyIgnored(t: State, id: UInt32, value: ReturnValue)
    requires Reachable(t) && !StandingOf(t.history, id).Pending?
    ensures ReplyStep(t, id, value) == t.(history := t.history + [Reply(id, value)])
    ensures forall k: UInt32 :: StandingOf(ReplyStep(t, id, value).history, k) == StandingOf(t.history, k)
  {
    OnePlace(t, id);
    hide Reachable, StandingOf, PostedFor, Given;
    forall k: UInt32 ensures StandingOf(ReplyStep(t, id, value).history, k) == StandingOf(t.history, k) {
      StandingSnoc(t.history, Reply(id, value), k);
    }
  }

  /** No wake-up is lost: a caller still blocked and not signalled has no reply yet, and a
      caller whose reply is stored will return it when it next runs in time. */
  lemma NoLostWakeUp(t: State, id: UInt32)
    requires Reachable(t) && id in t.callers
    ensures t.callers[id] == Blocked ==> id in t.bus.wm && StandingOf(t.history, id) == Pending(true)
    ensures id in t.bus.returnValues ==>
              && (t.callers[id] == Signalled || t.callers[id] == GaveUp)
              && StandingOf(t.history, id) == Answered(true, t.bus.returnValues[id])
    ensures t.callers[id] == Signalled && StandingOf(t.history, id).Answered? ==>
              Step(t, Wakes(id, false)).callers[id] == Returned(StandingOf(t.history, id).value)
  {
    ReachableInv(t);
    assert Fate(t, id);
  }

  /** When disconnected() is through, whatever else ran meanwhile, every call it saw pending
      has left the bus with its one answer, and no thread blocks on it. */
  lemma DisconnectResolvesAll(t: State, d: nat, id: UInt32)
    requires Reachable(t) && d < |t.drains| && t.drains[d].finished && id in t.drains[d].snapshot
    ensures StandingOf(t.history, id).Answered?
    ensures id !in t.bus.wm
    ensures id in t.callers ==> t.callers[id] != Blocked
  {
    ReachableInv(t);
    assert Covered(t, t.drains[d]);
    assert Fate(t, id);
  }

  /** Another disconnect resolves again nothing that is already resolved: what an id was
      answered with never changes, nor does any outcome already out of the bus. */
  lemma {:induction false} AnswersStand(s: State, events: seq<Event>, t: State, id: UInt32)
    requires Inv(s) && SnapshotsGiven(s) && Reaches(s, events, t) && t.issued <= IDS
    requires StandingOf(s.history, id).Answered?
    ensures StandingOf(t.history, id) == StandingOf(s.history, id)
    ensures PostedFor(t.posts, id) == PostedFor(s.posts, id)
    ensures id in t.dropped <==> id in s.dropped
    ensures id in s.callers && s.callers[id].Returned? ==> id in t.callers && t.callers[id] == s.callers[id]
    decreases |events|
  {
    if events != [] {
      var u := Step(s, events[0]);
      IssuedGrows(u, events[1..], t);
      StepKeeps(s, events[0]);
      AnswerStands(s, events[0], id);
      AnswersStand(u, events[1..], t, id);
    }
  }

  lemma AnswerStands(s: State, e: Event, id: UInt32)
    requires Inv(s) && Enabled(s, e) && Step(s, e).issued <= IDS
    requires StandingOf(s.history, id).Answered?
    ensures var t := Step(s, e);
      && StandingOf(t.history, id) == StandingOf(s.history, id)
      && PostedFor(t.posts, id) == PostedFor(s.posts, id)
      && (id in t.dropped <==> id in s.dropped)
      && (id in s.callers && s.callers[id].Returned? ==> id in t.callers && t.callers[id] == s.callers[id])
  {
    hide StandingOf, PostedFor;
    assert Fate(s, id);
    var t := Step(s, e);
    if s.issued < IDS {
      NextIsFresh(s);
    }
    if |t.history| > |s.history| {
      StandingSnoc(s.history, t.history[|s.history|], id);
    }
    if |t.posts| > |s.posts| {
      PostedSnoc(s.posts, t.posts[|s.posts|], id);
    }
  }

  // ------------------------------------------------------------ wrap-around

  lemma {:induction false} CuridCounts(s: State, events: seq<Event>, t: State)
    requires Reaches(s, events, t) && s.bus.curid == s.issued % IDS
    ensures t.bus.curid == t.issued % IDS
    decreases |events|
  {
    if events != [] {
      CuridCounts(Step(s, events[0]), events[1..], t);
    }
  }

  /** In runs of any length, exactly the calls a multiple of 2^32 apart get the same id. */
  lemma IdsCollideExactly(first: seq<Event>, s: State, next: seq<Event>, t: State)
    requires Reaches(START, first, s) && Reaches(s, next, t)
    ensures NextId(s.bus) == NextId(t.bus) <==> (t.issued - s.issued) % IDS == 0
  {
    hide Reaches, Step, Enabled;
    CuridCounts(START, first, s);
    CuridCounts(s, next, t);
    var m, n := s.issued, t.issued;
    assert NextId(s.bus) == (m + 1) % IDS && NextId(t.bus) == (n + 1) % IDS;
    ModEqual(m + 1, n + 1);
  }

  lemma ModEqual(m: nat, n: nat)
    ensures m % IDS == n % IDS <==> (n - m) % IDS == 0
  {
    var d := n / IDS - m / IDS;
    assert n - m == IDS * d + (n % IDS - m % IDS);
  }

  // ------------------------------------------------------------------ who is told

  /** The calls of a run, in order; the first gets the id 1. */
  function Calls(events: seq<Event>): seq<Event> {
    if events == [] then []
    else (if events[0].CallSync? || events[0].CallAsync? then [events[0]] else []) + Calls(events[1..])
  }

  ghost predicate AskedWith(calls: seq<Event>, id: UInt32, receiver: Option<nat>, slot: QString) {
    1 <= id <= |calls| && calls[id - 1] == CallAsync(receiver, slot)
  }

  /** The call named no object, or one that is gone by now. */
  ghost predicate AskedByNobody(s: State, calls: seq<Event>, id: UInt32) {
    1 <= id <= |calls| && calls[id - 1].CallAsync?
    && (calls[id - 1].receiver.None? || calls[id - 1].receiver.value in s.dead)
  }

  /** What the bus keeps and posts is for the object and the slot the call named, and nothing is
      dropped but what there is nobody to tell. */
  ghost predicate ForAskers(s: State, calls: seq<Event>) {
    && |calls| == s.issued && s.bus.curid == s.issued
    && (forall id :: id in s.bus.wm ==> 1 <= id <= |calls|)
    && (forall id :: id in s.bus.wm && !s.bus.wm[id].sync ==> AskedWith(calls, id, s.bus.wm[id].receiver, s.bus.wm[id].slot))
    && (forall k :: 0 <= k < |s.posts| ==> AskedWith(calls, s.posts[k].id, Some(s.posts[k].receiver), s.posts[k].slot))
    && (forall id :: id in s.dropped ==> AskedByNobody(s, calls, id))
  }

  lemma CallForAskers(s: State, e: Event, calls: seq<Event>)
    requires ForAskers(s, calls) && Enabled(s, e) && s.issued + 1 < IDS && (e.CallSync? || e.CallAsync?)
    ensures ForAskers(Step(s, e), calls + [e])
  {
    var t, more := Step(s, e), calls + [e];
    assert forall i :: 0 <= i < |calls| ==> more[i] == calls[i];
    forall id | id in t.bus.wm && !t.bus.wm[id].sync
      ensures AskedWith(more, id, t.bus.wm[id].receiver, t.bus.wm[id].slot)
    {
      assert id <= |calls| ==> id in s.bus.wm && t.bus.wm[id] == s.bus.wm[id];
    }
  }

  lemma OtherForAskers(s: State, e: Event, calls: seq<Event>)
    requires ForAskers(s, calls) && Enabled(s, e) && !e.CallSync? && !e.CallAsync?
    ensures ForAskers(Step(s, e), calls)
  {
    if e.Received? {
      ReplyForAskers(s, e.id, e.value, calls);
    } else if e.DisconnectResolves? {
      ReplyForAskers(s, s.drains[e.drain].left[0], DISCONNECTED, calls);
    }
    hide AskedWith;
  }

  lemma ReplyForAskers(s: State, id: UInt32, value: ReturnValue, calls: seq<Event>)
    requires ForAskers(s, calls)
    ensures ForAskers(ReplyStep(s, id, value), calls)
  {
    hide Given;
  }

  lemma {:induction false} AskersAlways(s: State, events: seq<Event>, t: State, calls: seq<Event>)
    requires ForAskers(s, calls) && Reaches(s, events, t) && t.issued < IDS
    ensures ForAskers(t, calls + Calls(events))
    decreases |events|
  {
    hide ForAskers, Step, Enabled;
    if events == [] {
      assert calls + [] == calls;
    } else {
      var e, rest := events[0], events[1..];
      var u := Step(s, e);
      IssuedGrows(u, rest, t);
      if e.CallSync? || e.CallAsync? {
        IssuedByCall(s, e);
        CallForAskers(s, e, calls);
        AskersAlways(u, rest, t, calls + [e]);
        assert calls + [e] + Calls(rest) == calls + ([e] + Calls(rest));
      } else {
        OtherForAskers(s, e, calls);
        AskersAlways(u, rest, t, calls);
        assert [] + Calls(rest) == Calls(rest);
      }
    }
  }

  lemma IssuedByCall(s: State, e: Event)
    requires Enabled(s, e) && (e.CallSync? || e.CallAsync?)
    ensures Step(s, e).issued == s.issued + 1
  {
  }

  /** In every run of fewer than 2^32 calls: whatever is posted goes to the object and the slot that
      the call of that number named. */
  lemma PostedToAsker(events: seq<Event>, t: State, k: nat)
    requires Reaches(START, events, t) && t.issued < IDS && k < |t.posts|
    ensures AskedWith(Calls(events), t.posts[k].id, Some(t.posts[k].receiver), t.posts[k].slot)
  {
    hide AskedWith, Calls;
    assert ForAskers(START, []);
    AskersAlways(START, events, t, []);
    assert [] + Calls(events) == Calls(events);
  }

  /** And a reply is dropped only if its call named no object, or one that is gone. */
  lemma DroppedForNobody(events: seq<Event>, t: State, id: UInt32)
    requires Reaches(START, events, t) && t.issued < IDS && id in t.dropped
    ensures AskedByNobody(t, Calls(events), id)
  {
    hide AskedWith, AskedByNobody, Calls;
    assert ForAskers(START, []);
    AskersAlways(START, events, t, []);
    assert [] + Calls(events) == Calls(events);
  }
}
