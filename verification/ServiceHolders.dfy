/** What each proxy and each return value holds after every step, and so whom events reach. */
module ServiceHolders {
  import opened QtTypes
  import opened ServiceSharing

  /** The service an arriving return value stands for: the live one of that number on the
      connection, or a new one. */
  function Arriving(s: State, c: nat, id: UInt32): nat
    requires c in s.conns
  {
    if id in s.conns[c].registry then s.conns[c].registry[id] else s.next
  }

  /** What the proxies hold afterwards: an assignment and a copy take over connection and service;
      no other proxy notices. */
  function ProxiesAfter(s: State, e: Event): map<nat, Proxy>
    requires Pointers(s) && Enabled(s, e)
  {
    match e
    case New(p) => s.proxies[p := Proxy(s.next, None)]
    case Copy(p, from) => s.proxies[p := s.proxies[from]]
    case Delete(p) => s.proxies - {p}
    case Connect(p, _) => s.proxies[p := Proxy(s.next, s.proxies[p].service)]
    case AssignReturn(p, h) => s.proxies[p := Proxy(s.datas[s.handles[h]].conn, Some(s.handles[h]))]
    case AssignProxy(p, from) => s.proxies[p := s.proxies[from]]
    case Deselect(p) => s.proxies[p := Proxy(s.proxies[p].conn, None)]
    case GetOriginal(p) => s.proxies[p := Proxy(s.proxies[p].conn, Some(s.next))]
    case _ => s.proxies
  }

  function HandlesAfter(s: State, e: Event): map<nat, nat>
    requires Pointers(s) && Enabled(s, e)
  {
    match e
    case Arrives(p, h, id) => s.handles[h := Arriving(s, s.proxies[p].conn, id)]
    case CopyReturn(h, other) => s.handles[h := s.handles[other]]
    case DropReturn(h) => s.handles - {h}
    case _ => s.handles
  }

  predicate SameHolders(s: State, t: State) {
    t.proxies == s.proxies && t.handles == s.handles && SameUp(s, t)
  }

  /** No connection has come, come up or gone down. */
  predicate SameUp(s: State, t: State) {
    forall c :: c in t.conns ==> c in s.conns && t.conns[c].up == s.conns[c].up
  }

  lemma UpThrough(s: State, u: State, t: State)
    requires SameUp(s, u) && SameUp(u, t)
    ensures SameUp(s, t)
  {
  }

  /** Connections come with new proxies and with connects, and go down when their bus does. */
  predicate UpAfter(s: State, e: Event, c: nat)
    requires Pointers(s) && Enabled(s, e)
  {
    if c in s.conns then s.conns[c].up && e != GoesDown(c) else c == s.next && e.Connect? && e.up
  }

  lemma ReleaseHolds(s: State, a: nat)
    requires a in s.datas && s.datas[a].conn in s.conns
    ensures SameHolders(s, ReleaseData(s, a))
  {
    hide Held, ConnHeld;
  }

  lemma SetServiceHolds(s: State, p: nat, service: Option<nat>)
    requires Pointers(s) && p in s.proxies
    ensures var t := SetService(s, p, service);
      t.proxies == s.proxies[p := s.proxies[p].(service := service)] && t.handles == s.handles && SameUp(s, t)
  {
    hide ReleaseData;
    var t := SetProxy(s, p, s.proxies[p].(service := service));
    if s.proxies[p].service.Some? {
      ReleaseHolds(t, s.proxies[p].service.value);
    }
  }

  lemma MoveHolds(s: State, p: nat, service: Option<nat>)
    requires Pointers(s) && p in s.proxies && (service.Some? ==> service.value in s.datas)
    ensures var t := Move(s, p, service);
      t.proxies == s.proxies[p := s.proxies[p].(service := service)] && t.handles == s.handles && SameUp(s, t)
  {
    hide SetService, Pointers;
    UnlistPointers(s, p);
    SetServiceHolds(Unlist(s, p), p, service);
    PointsTo(s, p);
  }

  lemma PointsTo(s: State, p: nat)
    requires Pointers(s) && p in s.proxies
    ensures s.proxies[p].service.Some? ==> s.proxies[p].service.value in s.datas
    ensures s.proxies[p].conn in s.conns
    ensures SameHolders(s, Unlist(s, p)) && SameHolders(s, Enlist(s, p))
  {
  }

  lemma SetConnHolds(s: State, p: nat, c: nat)
    requires p in s.proxies
    ensures var t := SetConn(s, p, c);
      t.proxies == s.proxies[p := s.proxies[p].(conn := c)] && t.handles == s.handles && SameUp(s, t)
  {
  }

  lemma ForgetHolds(s: State, p: nat)
    requires Pointers(s) && p in s.proxies
    ensures var t := Forget(s, p); t.proxies == s.proxies - {p} && t.handles == s.handles && SameUp(s, t)
  {
    hide ConnHeld, Held;
  }

  lemma AssignHolds(s: State, p: nat, a: nat)
    requires Pointers(s) && p in s.proxies && a in s.datas
    ensures var t := AssignFromReturn(s, p, a);
      t.proxies == s.proxies[p := Proxy(s.datas[a].conn, Some(a))] && t.handles == s.handles && SameUp(s, t)
  {
    hide Move, SetConn, Enlist, Unlist, SameUp, Calm, Ends;
    var t := Move(s, p, Some(a));
    var c := t.datas[a].conn;
    MoveHolds(s, p, Some(a));
    SetConnPointers(t, p, c);
    SetConnHolds(t, p, c);
    PointsTo(SetConn(t, p, c), p);
    UpThrough(s, t, SetConn(t, p, c));
    UpThrough(s, SetConn(t, p, c), AssignFromReturn(s, p, a));
    KeptConn(s, p, a);
  }

  lemma KeptConn(s: State, p: nat, a: nat)
    requires Pointers(s) && p in s.proxies && a in s.datas
    ensures a in Move(s, p, Some(a)).datas && Move(s, p, Some(a)).datas[a].conn == s.datas[a].conn
  {
    hide Move, Pointers;
    MoveEnds(s, p, Some(a), if s.proxies[p].service.Some? then s.proxies[p].service.value else a);
    assert Move(s, p, Some(a)).proxies[p].service == Some(a);
    PointsTo(Move(s, p, Some(a)), p);
  }

  lemma AssignProxyHolds(s: State, p: nat, from: nat)
    requires Pointers(s) && p in s.proxies && from in s.proxies
    ensures var t := AssignFromProxy(s, p, from);
      t.proxies == s.proxies[p := s.proxies[from]] && t.handles == s.handles && SameUp(s, t)
  {
    hide Move, SetConn, Enlist, Unlist, SameUp;
    var c, service := s.proxies[from].conn, s.proxies[from].service;
    var t := SetConn(s, p, c);
    SetConnPointers(s, p, c);
    SetConnHolds(s, p, c);
    MoveHolds(t, p, service);
    PointsTo(Move(t, p, service), p);
    UpThrough(s, t, Move(t, p, service));
    UpThrough(s, Move(t, p, service), AssignFromProxy(s, p, from));
  }

  lemma OriginalHolds(s: State, p: nat)
    requires Pointers(s) && p in s.proxies
    ensures var t := SelectOriginal(s, p);
      t.proxies == s.proxies[p := s.proxies[p].(service := Some(s.next))] && t.handles == s.handles && SameUp(s, t)
  {
    hide Move, Enlist;
    var t := Create(s, s.proxies[p].conn, 0);
    CreatePointers(s, s.proxies[p].conn, 0);
    MoveHolds(t, p, Some(s.next));
    PointsTo(Move(t, p, Some(s.next)), p);
  }

  /** After any step every proxy and every return value holds what the step gives it, and what it
      held before if the step is none of its business. */
  lemma HoldersAfter(s: State, e: Event)
    requires Pointers(s) && Enabled(s, e)
    ensures Step(s, e).proxies == ProxiesAfter(s, e) && Step(s, e).handles == HandlesAfter(s, e)
    ensures forall c :: c in Step(s, e).conns ==> (Step(s, e).conns[c].up <==> UpAfter(s, e, c))
  {
    hide Move, SetConn, Forget, AssignFromProxy, AssignFromReturn, SelectOriginal, Enlist, Unlist, DropHandle;
    match e
    case Copy(p, from) => CopyHolds(s, p, from);
    case Delete(p) =>
      UnlistPointers(s, p);
      PointsTo(s, p);
      ForgetHolds(Unlist(s, p), p);
    case Connect(p, up) => SetConnHolds(NewConn(s, up), p, s.next);
    case DropReturn(h) => DropHolds(s, h);
    case AssignReturn(p, h) => AssignHolds(s, p, s.handles[h]);
    case AssignProxy(p, from) => AssignProxyHolds(s, p, from);
    case Deselect(p) => MoveHolds(s, p, None);
    case GetOriginal(p) => OriginalHolds(s, p);
    case _ =>
  }

  lemma CopyHolds(s: State, p: nat, from: nat)
    requires Pointers(s) && p !in s.proxies && from in s.proxies
    ensures var t := SetProxy(s, p, s.proxies[from]);
      && (t.proxies[p].service.Some? ==> t.proxies[p].service.value in t.datas)
      && SameHolders(t, Enlist(t, p))
  {
  }

  lemma DropHolds(s: State, h: nat)
    requires Pointers(s) && h in s.handles
    ensures var t := DropHandle(s, h); t.proxies == s.proxies && t.handles == s.handles - {h} && SameUp(s, t)
  {
  }

  /** What an arriving return value holds is live afterwards, on the connection and under the number
      it came with; and what is live keeps its number and connection while it lives. */
  lemma ArrivesLive(s: State, p: nat, h: nat, id: UInt32)
    requires Reachable(s) && Pointers(s) && Enabled(s, Arrives(p, h, id))
    ensures var t, a := Step(s, Arrives(p, h, id)), Arriving(s, s.proxies[p].conn, id);
      && a in t.datas && t.datas[a].id == id && t.datas[a].conn == s.proxies[p].conn
      && (a in s.datas <==> id in s.conns[s.proxies[p].conn].registry)
  {
    hide Reachable, Listed, AllHeld, SentOnce;
    ReachableInv(s);
  }

  lemma NumbersStay(s: State, e: Event, a: nat)
    requires Pointers(s) && Enabled(s, e) && a in s.datas && a in Step(s, e).datas
    ensures Step(s, e).datas[a].id == s.datas[a].id && Step(s, e).datas[a].conn == s.datas[a].conn
  {
    hide Step, Enabled, Pointers;
    StepSays(s, e);
  }

  /** So events reach a proxy through the service a step has given it, and through no other. */
  lemma ReachedThrough(s: State, e: Event, p: nat, a: nat)
    requires Reachable(s) && Pointers(s) && Enabled(s, e) && a in Step(s, e).datas
    ensures p in Step(s, e).datas[a].sharing.list <==> p in ProxiesAfter(s, e) && ProxiesAfter(s, e)[p].service == Some(a)
  {
    hide Reachable, Step, Enabled, Registered, AllHeld, SentOnce;
    ReachableInv(s);
    StepKeeps(s, e);
    HoldersAfter(s, e);
  }

  /** And the service is there. */
  lemma HeldIsThere(s: State, e: Event, p: nat)
    requires Reachable(s) && Pointers(s) && Enabled(s, e) && p in ProxiesAfter(s, e)
    ensures var x := ProxiesAfter(s, e)[p];
      x.conn in Step(s, e).conns && (x.service.Some? ==> x.service.value in Step(s, e).datas)
  {
    hide Reachable, Step, Enabled, Registered, AllHeld, SentOnce, Listed;
    ReachableInv(s);
    StepKeeps(s, e);
    HoldersAfter(s, e);
  }

  // ------------------------------------------------------ the list, and the primary

  /** Taking a proxy out of a list leaves the others in their order. */
  lemma {:induction false} RemoveAllCuts(a: seq<nat>, p: nat, b: seq<nat>)
    requires p !in a && p !in b
    ensures RemoveAll(a + [p] + b, p) == a + b && RemoveAll(a + b, p) == a + b
  {
    if a == [] {
      assert [] + [p] + b == [p] + b && [] + b == b && ([p] + b)[1..] == b;
      RemoveNone(b, p);
    } else {
      RemoveAllCuts(a[1..], p, b);
      assert (a + [p] + b)[1..] == a[1..] + [p] + b && (a + b)[1..] == a[1..] + b;
    }
  }

  lemma {:induction false} RemoveNone(list: seq<nat>, p: nat)
    requires p !in list
    ensures RemoveAll(list, p) == list
  {
    if list != [] {
      RemoveNone(list[1..], p);
    }
  }

  /** Leaving a service, and joining it: at the end of the list, and as primary if there is none. */
  function Left(x: Sharing, p: nat): Sharing {
    var rest := RemoveAll(x.list, p);
    Sharing(rest, if x.primary != Some(p) then x.primary else if rest == [] then None else Some(rest[0]))
  }

  function Joined(x: Sharing, p: nat): Sharing {
    Sharing(x.list + [p], if x.primary.Some? then x.primary else Some(p))
  }

  function Mover(e: Event): Option<nat> {
    match e
    case Copy(p, _) => Some(p)
    case Delete(p) => Some(p)
    case AssignReturn(p, _) => Some(p)
    case AssignProxy(p, _) => Some(p)
    case Deselect(p) => Some(p)
    case GetOriginal(p) => Some(p)
    case _ => None
  }

  /** Who shares a service after a step: the proxy that moves leaves, and joins if it holds the
      service afterwards; nobody else's place changes. */
  function SharingAfter(s: State, e: Event, a: nat): Sharing
    requires Pointers(s) && Enabled(s, e)
  {
    var x := if a in s.datas then s.datas[a].sharing else NOBODY;
    match Mover(e)
    case None => x
    case Some(p) =>
      if p in ProxiesAfter(s, e) && ProxiesAfter(s, e)[p].service == Some(a) then Joined(Left(x, p), p) else Left(x, p)
  }

  predicate SameSharing(s: State, t: State) {
    forall a :: a in t.datas ==> a in s.datas && t.datas[a].sharing == s.datas[a].sharing
  }

  /** As `s`, but for the place of this proxy. */
  predicate LeftBy(s: State, t: State, p: nat) {
    forall a :: a in t.datas ==> t.datas[a].sharing == Left(if a in s.datas then s.datas[a].sharing else NOBODY, p)
  }

  lemma ReleaseShares(s: State, a: nat)
    requires a in s.datas && s.datas[a].conn in s.conns
    ensures SameSharing(s, ReleaseData(s, a))
  {
    hide Held, ConnHeld;
  }

  lemma MoveShares(s: State, p: nat, service: Option<nat>)
    requires Pointers(s) && Listed(s, {}) && p in s.proxies && (service.Some? ==> service.value in s.datas)
    ensures LeftBy(s, Move(s, p, service), p)
  {
    hide SetService, Pointers;
    UnlistPointers(s, p);
    UnlistLeaves(s, p);
    SetServiceShares(Unlist(s, p), p, service);
    hide Unlist, Listed, Left;
  }

  lemma UnlistLeaves(s: State, p: nat)
    requires Pointers(s) && Listed(s, {}) && p in s.proxies
    ensures LeftBy(s, Unlist(s, p), p) && Unlist(s, p).datas.Keys == s.datas.Keys
  {
    PointsTo(s, p);
    var t := Unlist(s, p);
    forall a | a in t.datas ensures t.datas[a].sharing == Left(s.datas[a].sharing, p) {
      if s.proxies[p].service != Some(a) {
        assert p !in s.datas[a].sharing.list;
        RemoveNone(s.datas[a].sharing.list, p);
      }
    }
  }

  lemma SetServiceShares(s: State, p: nat, service: Option<nat>)
    requires Pointers(s) && p in s.proxies
    ensures SameSharing(s, SetService(s, p, service))
  {
    hide ReleaseData;
    var t := SetProxy(s, p, s.proxies[p].(service := service));
    if s.proxies[p].service.Some? {
      ReleaseShares(t, s.proxies[p].service.value);
    }
  }

  lemma SetConnShares(s: State, p: nat, c: nat)
    requires p in s.proxies
    ensures SetConn(s, p, c).datas == s.datas
  {
  }

  lemma EnlistJoins(s: State, p: nat)
    requires Pointers(s) && p in s.proxies
    ensures var t := Enlist(s, p);
      && t.datas.Keys == s.datas.Keys
      && forall a :: a in t.datas ==>
          t.datas[a].sharing == if s.proxies[p].service == Some(a) then Joined(s.datas[a].sharing, p) else s.datas[a].sharing
  {
  }

  lemma ForgetShares(s: State, p: nat)
    requires Pointers(s) && p in s.proxies
    ensures SameSharing(s, Forget(s, p))
  {
    hide ConnHeld, Held;
  }

  /** The step of a proxy that moves: out of its list, perhaps into another. */
  lemma MovedShares(s: State, t: State, u: State, p: nat, a: nat)
    requires LeftBy(s, t, p) && Pointers(t) && p in t.proxies && u == Enlist(t, p) && a in u.datas
    ensures var x := Left(if a in s.datas then s.datas[a].sharing else NOBODY, p);
      u.datas[a].sharing == if t.proxies[p].service == Some(a) then Joined(x, p) else x
  {
    hide Left, Joined, Enlist;
    EnlistJoins(t, p);
  }

  lemma AssignShares(s: State, p: nat, service: nat, a: nat)
    requires Pointers(s) && Listed(s, {}) && p in s.proxies && service in s.datas
    requires a in AssignFromReturn(s, p, service).datas
    ensures var x := Left(if a in s.datas then s.datas[a].sharing else NOBODY, p);
      AssignFromReturn(s, p, service).datas[a].sharing == if service == a then Joined(x, p) else x
  {
    hide Move, SetConn, Enlist, Left, Joined, Pointers, Listed;
    var t := Move(s, p, Some(service));
    PointsTo(t, p);
    DataPoints(t, service);
    var c := t.datas[service].conn;
    MoveShares(s, p, Some(service));
    AssignHolds(s, p, service);
    SetConnPointers(t, p, c);
    SetConnShares(t, p, c);
    MovedShares(s, SetConn(t, p, c), AssignFromReturn(s, p, service), p, a);
    SetConnHolds(t, p, c);
  }

  lemma DataPoints(s: State, a: nat)
    requires Pointers(s) && a in s.datas
    ensures s.datas[a].conn in s.conns
  {
  }

  lemma AssignProxyShares(s: State, p: nat, from: nat, a: nat)
    requires Pointers(s) && Listed(s, {}) && p in s.proxies && from in s.proxies
    requires a in AssignFromProxy(s, p, from).datas
    ensures var x := Left(if a in s.datas then s.datas[a].sharing else NOBODY, p);
      AssignFromProxy(s, p, from).datas[a].sharing == if s.proxies[from].service == Some(a) then Joined(x, p) else x
  {
    hide Move, SetConn, Enlist, Left, Joined, Pointers, Listed;
    PointsTo(s, from);
    var c, service := s.proxies[from].conn, s.proxies[from].service;
    var t := SetConn(s, p, c);
    SetConnPointers(s, p, c);
    SetConnShares(s, p, c);
    SetConnHolds(s, p, c);
    SetConnListed(s, p, c);
    MoveShares(t, p, service);
    MoveHolds(t, p, service);
    MovedShares(t, Move(t, p, service), AssignFromProxy(s, p, from), p, a);
  }

  lemma SetConnListed(s: State, p: nat, c: nat)
    requires Listed(s, {}) && p in s.proxies
    ensures Listed(SetConn(s, p, c), {})
  {
    hide Orderly;
    SetConnShares(s, p, c);
    SetConnHolds(s, p, c);
    hide SetConn;
  }

  lemma OriginalShares(s: State, p: nat, a: nat)
    requires Pointers(s) && Listed(s, {}) && p in s.proxies && a in SelectOriginal(s, p).datas
    ensures var x := Left(if a in s.datas then s.datas[a].sharing else NOBODY, p);
      SelectOriginal(s, p).datas[a].sharing == if a == s.next then Joined(x, p) else x
  {
    hide Move, Enlist, Joined;
    var t := Create(s, s.proxies[p].conn, 0);
    CreatePointers(s, s.proxies[p].conn, 0);
    CreateListed(s, s.proxies[p].conn, 0);
    hide Pointers, Listed;
    MoveShares(t, p, Some(s.next));
    MoveHolds(t, p, Some(s.next));
    MovedShares(t, Move(t, p, Some(s.next)), SelectOriginal(s, p), p, a);
  }

  lemma CreateListed(s: State, c: nat, id: UInt32)
    requires Pointers(s) && Listed(s, {}) && c in s.conns
    ensures Listed(Create(s, c, id), {}) && s.next !in s.datas
  {
  }

  /** In every reachable state: the step of one proxy leaves every other proxy in its place in the
      list of its service, and the primary as it was, unless it is the one that leaves. */
  lemma SharersAfter(s: State, e: Event, a: nat)
    requires Reachable(s) && Pointers(s) && Enabled(s, e) && a in Step(s, e).datas
    ensures Step(s, e).datas[a].sharing == SharingAfter(s, e, a)
  {
    hide Reachable, Registered, AllHeld, SentOnce, Listed;
    ReachableInv(s);
    hide Pointers, Left, Joined, Step;
    if Mover(e).Some? {
      MoverShares(s, e, a);
    } else {
      OthersShare(s, e, a);
    }
  }

  lemma MoverShares(s: State, e: Event, a: nat)
    requires Pointers(s) && Listed(s, {}) && Enabled(s, e) && Mover(e).Some? && a in Step(s, e).datas
    ensures Step(s, e).datas[a].sharing == SharingAfter(s, e, a)
  {
    hide Pointers, Listed, Move, SetConn, Forget, Enlist, Unlist, Left, Joined;
    hide AssignFromProxy, AssignFromReturn, SelectOriginal;
    match e
    case Copy(p, from) => CopyShares(s, p, from, a);
    case Delete(p) =>
      PointsTo(s, p);
      UnlistPointers(s, p);
      UnlistLeaves(s, p);
      ForgetShares(Unlist(s, p), p);
    case AssignReturn(p, h) =>
      HandleThere(s, h);
      AssignShares(s, p, s.handles[h], a);
    case AssignProxy(p, from) => AssignProxyShares(s, p, from, a);
    case Deselect(p) => MoveShares(s, p, None);
    case GetOriginal(p) => OriginalShares(s, p, a);
  }

  lemma OthersShare(s: State, e: Event, a: nat)
    requires Pointers(s) && Enabled(s, e) && Mover(e).None? && a in Step(s, e).datas
    ensures Step(s, e).datas[a].sharing == if a in s.datas then s.datas[a].sharing else NOBODY
  {
    hide SetConn, DropHandle, Listed;
    if e.Connect? {
      SetConnShares(NewConn(s, e.up), e.p, s.next);
    } else if e.DropReturn? {
      DropShares(s, e.h);
    }
  }

  lemma HandleThere(s: State, h: nat)
    requires Pointers(s) && h in s.handles
    ensures s.handles[h] in s.datas
  {
  }

  lemma CopyShares(s: State, p: nat, from: nat, a: nat)
    requires Pointers(s) && Listed(s, {}) && p !in s.proxies && from in s.proxies
    requires a in Enlist(SetProxy(s, p, s.proxies[from]), p).datas
    ensures a in s.datas && var x := Left(s.datas[a].sharing, p);
      Enlist(SetProxy(s, p, s.proxies[from]), p).datas[a].sharing ==
      if s.proxies[from].service == Some(a) then Joined(x, p) else x
  {
    var t := SetProxy(s, p, s.proxies[from]);
    assert a in s.datas ==> p !in s.datas[a].sharing.list;
    EnlistJoins(t, p);
    if a in s.datas {
      RemoveNone(s.datas[a].sharing.list, p);
    }
  }

  lemma DropShares(s: State, h: nat)
    requires Pointers(s) && h in s.handles
    ensures SameSharing(s, DropHandle(s, h))
  {
  }

  // -------------------------------------------------------------- the route

  /** The service a message is for: by its number, or in version 0 whichever is listed first. */
  function Routed(registry: map<UInt32, nat>, version: UInt32, service: UInt32, first: UInt32): Option<nat> {
    var id := if version == 0 then first else service;
    if id in registry then Some(registry[id]) else None
  }

  /** The object's table is the registry of its connection, by address. */
  ghost predicate Mirrors(c: ConnectionData, objects: map<nat, ServiceData>, s: State, conn: nat)
    reads c, objects.Values
    requires conn in s.conns
  {
    && c.serviceDataObjects.Keys == s.conns[conn].registry.Keys
    && forall id :: id in s.conns[conn].registry ==>
        var a := s.conns[conn].registry[id];
        a in objects && a in s.datas && c.serviceDataObjects[id] == objects[a] && objects[a].Contents() == s.datas[a].sharing
  }

  /** What the object's sendEvent reaches are the sharers of the service addressed, in every run. */
  lemma SendEventReaches(
    c: ConnectionData, objects: map<nat, ServiceData>, t: State, conn: nat, version: UInt32, service: UInt32, first: UInt32)
    requires Reachable(t) && conn in t.conns && Mirrors(c, objects, t, conn)
    requires t.conns[conn].registry != map[] ==> first in t.conns[conn].registry
    ensures var data := c.Route(version, service, first);
      var to := Routed(t.conns[conn].registry, version, service, first);
      && (data == null <==> to.None?)
      && (to.Some? ==>
            && to.value in t.datas && t.datas[to.value].conn == conn
            && (version != 0 ==> t.datas[to.value].id == service)
            && forall p :: p in data.list <==> p in t.proxies && t.proxies[p].service == to)
  {
    hide Reachable;
    ReachableInv(t);
    hide AllHeld, SentOnce, Pointers;
  }
}
