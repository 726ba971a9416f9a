/** lib/clientproxy.cpp: how proxies and return values share the client's end of a service,
    when the server is told to let the service go, and whom its events reach. */
module ServiceSharing {
  import opened QtTypes

  // ------------------------------------------------------- one shared service

  /** The proxies that share a service, and the one that gets its callbacks. */
  datatype Sharing = Sharing(list: seq<nat>, primary: Option<nat>)

  const NOBODY := Sharing([], None)

  /** QList::removeAll. */
  function RemoveAll(list: seq<nat>, p: nat): (r: seq<nat>)
    ensures forall q :: q in r <==> q in list && q != p
  {
    if list == [] then []
    else (if list[0] == p then [] else [list[0]]) + RemoveAll(list[1..], p)
  }

  function AddProxy(x: Sharing, p: nat): Sharing {
    Sharing(x.list + [p], if x.primary.None? then Some(p) else x.primary)
  }

  function RemoveProxy(x: Sharing, p: nat): Sharing {
    var rest := RemoveAll(x.list, p);
    if x.primary != Some(p) then Sharing(rest, x.primary)
    else Sharing(rest, if rest == [] then None else Some(rest[0]))
  }

  ghost predicate Distinct(list: seq<nat>) {
    forall i, j :: 0 <= i < j < |list| ==> list[i] != list[j]
  }

  /** Each sharer is listed once, and one of them is the primary if there is any. */
  ghost predicate Orderly(x: Sharing) {
    && Distinct(x.list)
    && (x.primary.None? <==> x.list == [])
    && (x.primary.Some? ==> x.primary.value in x.list)
  }

  lemma {:induction false} RemoveAllDistinct(list: seq<nat>, p: nat)
    requires Distinct(list)
    ensures Distinct(RemoveAll(list, p))
  {
    if list != [] {
      RemoveAllDistinct(list[1..], p);
      var rest := RemoveAll(list[1..], p);
      assert list[0] !in list[1..];
      assert list[0] !in rest;
    }
  }

  lemma AddOrderly(x: Sharing, p: nat)
    requires Orderly(x) && p !in x.list
    ensures Orderly(AddProxy(x, p)) && forall q :: q in AddProxy(x, p).list <==> q in x.list || q == p
  {
  }

  lemma RemoveOrderly(x: Sharing, p: nat)
    requires Orderly(x)
    ensures Orderly(RemoveProxy(x, p)) && forall q :: q in RemoveProxy(x, p).list <==> q in x.list && q != p
  {
    RemoveAllDistinct(x.list, p);
    var rest := RemoveAll(x.list, p);
    assert rest != [] ==> rest[0] in rest;
  }

  class ServiceData {
    const id: UInt32
    var list: seq<nat>
    var primary: Option<nat>

    constructor (id: UInt32)
      ensures this.id == id && Contents() == NOBODY
    {
      this.id := id;
      list, primary := [], None;
    }

    ghost function Contents(): Sharing
      reads this
    {
      Sharing(list, primary)
    }

    method Add(p: nat)
      modifies this
      ensures Contents() == AddProxy(old(Contents()), p)
    {
      if primary.None? {
        primary := Some(p);
      }
      list := list + [p];
    }

    method Remove(p: nat)
      modifies this
      ensures Contents() == RemoveProxy(old(Contents()), p)
    {
      list := RemoveAll(list, p);
      if primary == Some(p) {
        if |list| > 0 {
          primary := Some(list[0]);
        } else {
          primary := None;
        }
      }
    }

    /** The proxies whose receiveEvent is called, in order. */
    method SendEvent() returns (reached: seq<nat>)
      ensures reached == list
    {
      reached := [];
      for i := 0 to |list|
        invariant reached == list[..i]
      {
        reached := reached + [list[i]];
      }
    }

    /** The proxy whose receiveCallback is called; a primary that is gone is replaced. */
    method SendCallback() returns (reached: Option<nat>)
      modifies this`primary
      ensures Orderly(old(Contents())) ==> Contents() == old(Contents()) && reached == primary
      ensures reached == primary && (primary.None? ==> list == [])
    {
      if primary.None? {
        if |list| > 0 {
          primary := Some(list[0]);
        } else {
          return None;
        }
      }
      reached := primary;
    }
  }

  class ConnectionData {
    var serviceDataObjects: map<UInt32, ServiceData?>

    constructor ()
      ensures serviceDataObjects == map[]
    {
      serviceDataObjects := map[];
    }

    method RegisterServiceData(id: UInt32, srv: ServiceData)
      modifies this
      ensures serviceDataObjects == old(serviceDataObjects)[id := srv]
    {
      serviceDataObjects := serviceDataObjects[id := srv];
    }

    method UnregisterServiceData(id: UInt32)
      modifies this
      ensures serviceDataObjects == old(serviceDataObjects) - {id}
    {
      serviceDataObjects := serviceDataObjects - {id};
    }

    /** Version 0 shares no services: its messages go to whichever the hash lists first. */
    function Route(version: UInt32, service: UInt32, first: UInt32): ServiceData?
      reads this
      requires serviceDataObjects != map[] ==> first in serviceDataObjects
    {
      if serviceDataObjects == map[] then null
      else if version == 0 then serviceDataObjects[first]
      else if service in serviceDataObjects then serviceDataObjects[service]
      else null
    }

    method SendEvent(version: UInt32, service: UInt32, first: UInt32) returns (reached: seq<nat>)
      requires serviceDataObjects != map[] ==> first in serviceDataObjects
      ensures var data := Route(version, service, first); reached == if data == null then [] else data.list
    {
      if |serviceDataObjects| < 1 {
        return [];
      }
      var to := if version == 0 then first else service;
      if to !in serviceDataObjects {
        return [];
      }
      var data := serviceDataObjects[to];
      if data == null {
        return [];
      }
      reached := data.SendEvent();
    }
  }

  // ------------------------------------------------------------ the whole heap

  /** A live ServiceData, by address. */
  datatype Data = Data(id: UInt32, conn: nat, sharing: Sharing)

  /** A live ConnectionData; `up` when it has a bus and is not disconnected. */
  datatype Conn = Conn(up: bool, registry: map<UInt32, nat>)

  datatype Proxy = Proxy(conn: nat, service: Option<nat>)

  /** A destroyService call, with the address of the object whose end it was. */
  datatype Sent = Sent(data: nat, conn: nat, id: UInt32)

  datatype State = State(
    datas: map<nat, Data>,
    conns: map<nat, Conn>,
    proxies: map<nat, Proxy>,
    handles: map<nat, nat>,    // return values that hold a service
    next: nat,                 // addresses are never used twice
    sent: seq<Sent>)

  const START := State(map[], map[], map[], map[], 0, [])

  ghost predicate Held(s: State, a: nat) {
    || (exists p :: p in s.proxies && s.proxies[p].service == Some(a))
    || (exists h :: h in s.handles && s.handles[h] == a)
  }

  ghost predicate ConnHeld(s: State, c: nat) {
    || (exists p :: p in s.proxies && s.proxies[p].conn == c)
    || (exists a :: a in s.datas && s.datas[a].conn == c)
  }

  /** Nothing points to what is gone. */
  ghost predicate Pointers(s: State) {
    && (forall p :: p in s.proxies ==>
          s.proxies[p].conn in s.conns && (s.proxies[p].service.Some? ==> s.proxies[p].service.value in s.datas))
    && (forall h :: h in s.handles ==> s.handles[h] in s.datas)
    && (forall a :: a in s.datas ==> a < s.next && s.datas[a].conn in s.conns)
    && (forall c :: c in s.conns ==> c < s.next)
  }

  /** The last shared pointer to a connection lets go. */
  ghost function ReleaseConn(s: State, c: nat): State {
    if ConnHeld(s, c) then s else s.(conns := s.conns - {c})
  }

  /** The destructor of ServiceData. */
  ghost function Destroy(s: State, a: nat): State
    requires a in s.datas && s.datas[a].conn in s.conns
  {
    var d := s.datas[a];
    var conn := s.conns[d.conn];
    s.(datas := s.datas - {a},
       conns := s.conns[d.conn := conn.(registry := conn.registry - {d.id})],
       sent := if conn.up then s.sent + [Sent(a, d.conn, d.id)] else s.sent)
  }

  /** The last shared pointer to a service lets go. */
  ghost function ReleaseData(s: State, a: nat): State
    requires a in s.datas && s.datas[a].conn in s.conns
  {
    if Held(s, a) then s else ReleaseConn(Destroy(s, a), s.datas[a].conn)
  }

  function Unlist(s: State, p: nat): State
    requires p in s.proxies && (s.proxies[p].service.Some? ==> s.proxies[p].service.value in s.datas)
  {
    match s.proxies[p].service
    case None => s
    case Some(a) => s.(datas := s.datas[a := s.datas[a].(sharing := RemoveProxy(s.datas[a].sharing, p))])
  }

  function Enlist(s: State, p: nat): State
    requires p in s.proxies && (s.proxies[p].service.Some? ==> s.proxies[p].service.value in s.datas)
  {
    match s.proxies[p].service
    case None => s
    case Some(a) => s.(datas := s.datas[a := s.datas[a].(sharing := AddProxy(s.datas[a].sharing, p))])
  }

  ghost function SetService(s: State, p: nat, service: Option<nat>): State
    requires Pointers(s) && p in s.proxies
  {
    var t := s.(proxies := s.proxies[p := s.proxies[p].(service := service)]);
    match s.proxies[p].service
    case None => t
    case Some(a) => ReleaseData(t, a)
  }

  ghost function SetConn(s: State, p: nat, c: nat): State
    requires p in s.proxies
  {
    ReleaseConn(s.(proxies := s.proxies[p := s.proxies[p].(conn := c)]), s.proxies[p].conn)
  }

  ghost function Forget(s: State, p: nat): State
    requires Pointers(s) && p in s.proxies
  {
    var t := s.(proxies := s.proxies - {p});
    var u := match s.proxies[p].service
      case None => t
      case Some(a) => ReleaseData(t, a);
    ReleaseConn(u, s.proxies[p].conn)
  }

  /** A new ServiceData in the registry, where it replaces what was there under its id. */
  function Create(s: State, c: nat, id: UInt32): State
    requires c in s.conns
  {
    s.(datas := s.datas[s.next := Data(id, c, NOBODY)],
       conns := s.conns[c := s.conns[c].(registry := s.conns[c].registry[id := s.next])],
       next := s.next + 1)
  }

  // -------------------------------------------------------------- invariant

  /** Each registry knows exactly the live services of its connection, each by its id. */
  ghost predicate Registered(s: State) {
    && (forall c, id :: c in s.conns && id in s.conns[c].registry ==>
          var a := s.conns[c].registry[id];
          a in s.datas && s.datas[a].conn == c && s.datas[a].id == id)
    && (forall a :: a in s.datas ==>
          var d := s.datas[a];
          d.conn in s.conns && d.id in s.conns[d.conn].registry && s.conns[d.conn].registry[d.id] == a)
  }

  /** A proxy is in the list of its own service, once, and in no other; those in `hole`
      are between two services. */
  ghost predicate Listed(s: State, hole: set<nat>) {
    forall a :: a in s.datas ==>
      && Orderly(s.datas[a].sharing)
      && forall p :: p in s.datas[a].sharing.list <==>
                     p in s.proxies && s.proxies[p].service == Some(a) && p !in hole
  }

  /** Everything live is held by something, but for what is being let go of. */
  ghost predicate AllHeld(s: State, datas: set<nat>, conns: set<nat>) {
    && (forall a {:trigger Held(s, a)} :: a in s.datas && a !in datas ==> Held(s, a))
    && (forall c {:trigger ConnHeld(s, c)} :: c in s.conns && c !in conns ==> ConnHeld(s, c))
  }

  /** The server has been told at most once of each object, and of none alive. */
  ghost predicate SentOnce(s: State) {
    && (forall i :: 0 <= i < |s.sent| ==> s.sent[i].data < s.next && s.sent[i].data !in s.datas)
    && (forall i, j :: 0 <= i < j < |s.sent| ==> s.sent[i].data != s.sent[j].data)
  }

  ghost predicate Between(s: State, hole: set<nat>, datas: set<nat>, conns: set<nat>) {
    Pointers(s) && Registered(s) && Listed(s, hole) && AllHeld(s, datas, conns) && SentOnce(s)
  }

  ghost predicate Inv(s: State) {
    Between(s, {}, {}, {})
  }

  lemma ReleaseConnHeld(s: State, c: nat, ds: set<nat>, cs: set<nat>)
    requires AllHeld(s, ds, cs)
    ensures AllHeld(ReleaseConn(s, c), ds, cs - {c})
  {
    var t := ReleaseConn(s, c);
    forall k | k in t.conns && k !in cs - {c} ensures ConnHeld(t, k) {
      assert k != c ==> ConnHeld(s, k);
    }
    forall k | k in t.datas && k !in ds ensures Held(t, k) {
      assert Held(s, k);
    }
  }

  lemma ReleaseConnRegistered(s: State, c: nat)
    requires Registered(s)
    ensures Registered(ReleaseConn(s, c))
  {
  }

  lemma ReleaseConnPointers(s: State, c: nat)
    requires Pointers(s)
    ensures Pointers(ReleaseConn(s, c))
  {
  }

  lemma ReleaseConnListed(s: State, c: nat, hole: set<nat>)
    requires Listed(s, hole) && SentOnce(s)
    ensures Listed(ReleaseConn(s, c), hole) && SentOnce(ReleaseConn(s, c))
  {
    hide Orderly;
  }

  lemma ReleaseConnKeeps(s: State, c: nat, hole: set<nat>, ds: set<nat>, cs: set<nat>)
    requires Between(s, hole, ds, cs)
    ensures Between(ReleaseConn(s, c), hole, ds, cs - {c})
  {
    hide AllHeld, SentOnce, Registered, Listed, Pointers, ReleaseConn;
    ReleaseConnHeld(s, c, ds, cs);
    ReleaseConnRegistered(s, c);
    ReleaseConnPointers(s, c);
    ReleaseConnListed(s, c, hole);
  }

  lemma DestroyHeld(s: State, a: nat, ds: set<nat>, cs: set<nat>)
    requires Pointers(s) && AllHeld(s, ds, cs) && a in s.datas
    ensures AllHeld(Destroy(s, a), ds - {a}, cs + {s.datas[a].conn})
  {
    var t := Destroy(s, a);
    forall k | k in t.datas && k !in ds - {a} ensures Held(t, k) {
      assert Held(s, k);
    }
    forall c | c in t.conns && c !in cs && c != s.datas[a].conn ensures ConnHeld(t, c) {
      assert ConnHeld(s, c);
      if p :| p in s.proxies && s.proxies[p].conn == c {
        assert t.proxies[p].conn == c;
      } else {
        var k :| k in s.datas && s.datas[k].conn == c;
        assert k in t.datas && t.datas[k].conn == c;
      }
    }
  }

  lemma DestroyRegistered(s: State, a: nat)
    requires Registered(s) && a in s.datas
    ensures Registered(Destroy(s, a))
  {
  }

  lemma DestroyListed(s: State, a: nat, hole: set<nat>)
    requires Listed(s, hole) && SentOnce(s) && Pointers(s) && a in s.datas
    ensures Listed(Destroy(s, a), hole) && SentOnce(Destroy(s, a))
  {
    hide Orderly;
  }

  lemma DestroyKeeps(s: State, a: nat, hole: set<nat>, ds: set<nat>, cs: set<nat>)
    requires Between(s, hole, ds, cs) && a in s.datas && !Held(s, a)
    ensures Between(Destroy(s, a), hole, ds - {a}, cs + {s.datas[a].conn})
  {
    assert s.datas[a].conn in s.conns;
    hide AllHeld, SentOnce, Registered, Listed, Pointers, Destroy;
    DestroyHeld(s, a, ds, cs);
    DestroyRegistered(s, a);
    DestroyListed(s, a, hole);
  }

  lemma ReleaseDataKeeps(s: State, a: nat, hole: set<nat>, ds: set<nat>, cs: set<nat>)
    requires Between(s, hole, ds, cs) && a in s.datas
    ensures Between(ReleaseData(s, a), hole, ds - {a}, cs - {s.datas[a].conn})
  {
    var c := s.datas[a].conn;
    if Held(s, a) {
      StillHeld(s, a, ds, cs);
    } else {
      DestroyKeeps(s, a, hole, ds, cs);
      hide AllHeld, SentOnce, Registered, Listed, Pointers, Destroy, Held, ReleaseConn;
      ReleaseConnKeeps(Destroy(s, a), c, hole, ds - {a}, cs + {c});
      assert cs + {c} - {c} == cs - {c};
    }
  }

  lemma StillHeld(s: State, a: nat, ds: set<nat>, cs: set<nat>)
    requires AllHeld(s, ds, cs) && Held(s, a) && a in s.datas
    ensures AllHeld(s, ds - {a}, cs - {s.datas[a].conn})
  {
    assert ConnHeld(s, s.datas[a].conn);
  }

  function Shared(s: State, a: nat, x: Sharing): State
    requires a in s.datas
  {
    s.(datas := s.datas[a := s.datas[a].(sharing := x)])
  }

  /** A list and primary alone say nothing about who holds what. */
  lemma SharedHeld(s: State, a: nat, x: Sharing, ds: set<nat>, cs: set<nat>)
    requires a in s.datas && AllHeld(s, ds, cs)
    ensures AllHeld(Shared(s, a, x), ds, cs)
  {
    var t := Shared(s, a, x);
    forall k | k in t.datas && k !in ds ensures Held(t, k) {
      assert Held(s, k);
    }
    forall c | c in t.conns && c !in cs ensures ConnHeld(t, c) {
      assert ConnHeld(s, c);
      if k :| k in s.datas && s.datas[k].conn == c {
        assert k in t.datas && t.datas[k].conn == c;
      }
    }
  }

  lemma SharedRegistered(s: State, a: nat, x: Sharing)
    requires a in s.datas && Registered(s)
    ensures Registered(Shared(s, a, x))
  {
  }

  lemma SharedPointers(s: State, a: nat, x: Sharing)
    requires a in s.datas && Pointers(s)
    ensures Pointers(Shared(s, a, x)) && (SentOnce(s) ==> SentOnce(Shared(s, a, x)))
  {
  }

  lemma UnlistListed(s: State, p: nat, a: nat)
    requires Listed(s, {}) && p in s.proxies && s.proxies[p].service == Some(a) && a in s.datas
    ensures Listed(Shared(s, a, RemoveProxy(s.datas[a].sharing, p)), {p})
  {
    RemoveOrderly(s.datas[a].sharing, p);
    hide RemoveProxy, Orderly;
    var t := Shared(s, a, RemoveProxy(s.datas[a].sharing, p));
    forall k | k in t.datas
      ensures Orderly(t.datas[k].sharing)
      ensures forall q :: q in t.datas[k].sharing.list <==> q in t.proxies && t.proxies[q].service == Some(k) && q !in {p}
    {
      assert k in s.datas;
    }
  }

  lemma EnlistListed(s: State, p: nat, a: nat)
    requires Listed(s, {p}) && p in s.proxies && s.proxies[p].service == Some(a) && a in s.datas
    ensures Listed(Shared(s, a, AddProxy(s.datas[a].sharing, p)), {})
  {
    AddOrderly(s.datas[a].sharing, p);
    hide AddProxy, Orderly;
    var t := Shared(s, a, AddProxy(s.datas[a].sharing, p));
    forall k | k in t.datas
      ensures Orderly(t.datas[k].sharing)
      ensures forall q :: q in t.datas[k].sharing.list <==> q in t.proxies && t.proxies[q].service == Some(k)
    {
      assert k in s.datas;
    }
  }

  lemma HoleAnywhere(s: State, p: nat)
    requires p in s.proxies ==> s.proxies[p].service.None?
    ensures Listed(s, {p}) <==> Listed(s, {})
  {
    hide Orderly;
  }

  lemma ServicePointer(s: State, p: nat)
    requires Pointers(s) && p in s.proxies
    ensures s.proxies[p].conn in s.conns
    ensures s.proxies[p].service.Some? ==>
              s.proxies[p].service.value in s.datas && s.datas[s.proxies[p].service.value].conn in s.conns
  {
  }

  lemma UnlistKeeps(s: State, p: nat, ds: set<nat>, cs: set<nat>)
    requires Between(s, {}, ds, cs) && p in s.proxies
    ensures Between(Unlist(s, p), {p}, ds, cs)
  {
    hide AllHeld, Orderly, SentOnce, Registered, RemoveProxy, Listed, Pointers;
    ServicePointer(s, p);
    if s.proxies[p].service.Some? {
      var a := s.proxies[p].service.value;
      var x := RemoveProxy(s.datas[a].sharing, p);
      UnlistListed(s, p, a);
      SharedHeld(s, a, x, ds, cs);
      SharedRegistered(s, a, x);
      SharedPointers(s, a, x);
    } else {
      HoleAnywhere(s, p);
    }
  }

  lemma EnlistKeeps(s: State, p: nat, ds: set<nat>, cs: set<nat>)
    requires Between(s, {p}, ds, cs) && p in s.proxies
    ensures Between(Enlist(s, p), {}, ds, cs)
  {
    hide AllHeld, Orderly, SentOnce, Registered, AddProxy, Listed, Pointers;
    ServicePointer(s, p);
    if s.proxies[p].service.Some? {
      var a := s.proxies[p].service.value;
      var x := AddProxy(s.datas[a].sharing, p);
      EnlistListed(s, p, a);
      SharedHeld(s, a, x, ds, cs);
      SharedRegistered(s, a, x);
      SharedPointers(s, a, x);
    } else {
      HoleAnywhere(s, p);
    }
  }

  // ------------------------------------------- pointers, one change at a time

  function SetProxy(s: State, p: nat, x: Proxy): State {
    s.(proxies := s.proxies[p := x])
  }

  ghost function ServiceSet(x: Option<nat>): set<nat> {
    if x.Some? then {x.value} else {}
  }

  ghost function OldService(s: State, p: nat): set<nat> {
    if p in s.proxies then ServiceSet(s.proxies[p].service) else {}
  }

  ghost function OldConn(s: State, p: nat): set<nat> {
    if p in s.proxies then {s.proxies[p].conn} else {}
  }

  lemma SetProxyHeld(s: State, p: nat, x: Proxy, ds: set<nat>, cs: set<nat>)
    requires AllHeld(s, ds, cs)
    ensures AllHeld(SetProxy(s, p, x), ds + OldService(s, p) - ServiceSet(x.service), cs + OldConn(s, p) - {x.conn})
  {
    var t := SetProxy(s, p, x);
    forall k | k in t.datas && k !in ds + OldService(s, p) - ServiceSet(x.service) ensures Held(t, k) {
      if x.service == Some(k) {
        assert t.proxies[p].service == Some(k);
      } else {
        assert Held(s, k);
        if q :| q in s.proxies && s.proxies[q].service == Some(k) {
          assert t.proxies[q].service == Some(k);
        }
      }
    }
    forall c | c in t.conns && c !in cs + OldConn(s, p) - {x.conn} ensures ConnHeld(t, c) {
      if x.conn == c {
        assert t.proxies[p].conn == c;
      } else {
        assert ConnHeld(s, c);
        if q :| q in s.proxies && s.proxies[q].conn == c {
          assert t.proxies[q].conn == c;
        }
      }
    }
  }

  lemma SetProxyListed(s: State, p: nat, x: Proxy, hole: set<nat>)
    requires Listed(s, hole)
    requires p in hole || (p in s.proxies && s.proxies[p].service == x.service)
    ensures Listed(SetProxy(s, p, x), hole)
  {
    hide Orderly;
  }

  lemma SetProxyOthers(s: State, p: nat, x: Proxy)
    requires Pointers(s)
    requires x.conn in s.conns && (x.service.Some? ==> x.service.value in s.datas)
    ensures Pointers(SetProxy(s, p, x))
    ensures Registered(s) ==> Registered(SetProxy(s, p, x))
    ensures SentOnce(s) ==> SentOnce(SetProxy(s, p, x))
  {
  }

  lemma SetProxyKeeps(s: State, p: nat, x: Proxy, hole: set<nat>, ds: set<nat>, cs: set<nat>)
    requires Between(s, hole, ds, cs)
    requires x.conn in s.conns && (x.service.Some? ==> x.service.value in s.datas)
    requires p in hole || (p in s.proxies && s.proxies[p].service == x.service)
    ensures Between(SetProxy(s, p, x), hole,
      ds + OldService(s, p) - ServiceSet(x.service), cs + OldConn(s, p) - {x.conn})
  {
    hide AllHeld, SentOnce, Registered, Listed, Pointers, SetProxy;
    SetProxyHeld(s, p, x, ds, cs);
    SetProxyListed(s, p, x, hole);
    SetProxyOthers(s, p, x);
  }

  lemma SetServiceKeeps(s: State, p: nat, service: Option<nat>, ds: set<nat>)
    requires Between(s, {p}, ds, {}) && p in s.proxies
    requires service.Some? ==> service.value in s.datas
    ensures Between(SetService(s, p, service), {p}, ds - ServiceSet(service), {})
  {
    hide AllHeld, SentOnce, Registered, Listed, Pointers, ReleaseData;
    ServicePointer(s, p);
    var x := s.proxies[p].(service := service);
    var t := SetProxy(s, p, x);
    SetProxyKeeps(s, p, x, {p}, ds, {});
    var ds1, cs1 := ds + OldService(s, p) - ServiceSet(service), {} + OldConn(s, p) - {x.conn};
    assert cs1 == {};
    if s.proxies[p].service.Some? {
      var a := s.proxies[p].service.value;
      ReleaseDataKeeps(t, a, {p}, ds1, {});
      BetweenMore(ReleaseData(t, a), {p}, ds1 - {a}, ds - ServiceSet(service), {} - {t.datas[a].conn}, {});
    } else {
      assert ds1 == ds - ServiceSet(service);
    }
  }

  lemma BetweenMore(s: State, hole: set<nat>, ds: set<nat>, ds2: set<nat>, cs: set<nat>, cs2: set<nat>)
    requires Between(s, hole, ds, cs) && ds <= ds2 && cs <= cs2
    ensures Between(s, hole, ds2, cs2)
  {
    hide SentOnce, Registered, Listed, Pointers, Held, ConnHeld;
  }

  lemma SetConnKeeps(s: State, p: nat, c: nat, hole: set<nat>, cs: set<nat>)
    requires Between(s, hole, {}, cs) && p in s.proxies && c in s.conns && cs <= {c}
    ensures Between(SetConn(s, p, c), hole, {}, {})
  {
    hide AllHeld, SentOnce, Registered, Listed, Pointers, ReleaseConn;
    ServicePointer(s, p);
    var x := s.proxies[p].(conn := c);
    SetProxyKeeps(s, p, x, hole, {}, cs);
    var ds1, cs1 := {} + OldService(s, p) - ServiceSet(x.service), cs + OldConn(s, p) - {c};
    ReleaseConnKeeps(SetProxy(s, p, x), s.proxies[p].conn, hole, ds1, cs1);
    BetweenMore(SetConn(s, p, c), hole, ds1, {}, cs1 - {s.proxies[p].conn}, {});
  }

  /** A return value gets hold of a service, or lets go of one. */
  function SetHandle(s: State, h: nat, a: nat): State {
    s.(handles := s.handles[h := a])
  }

  ghost function DropHandle(s: State, h: nat): State
    requires Pointers(s) && h in s.handles
  {
    ReleaseData(s.(handles := s.handles - {h}), s.handles[h])
  }

  lemma SetHandleHeld(s: State, h: nat, a: nat, ds: set<nat>)
    requires AllHeld(s, ds, {}) && h !in s.handles && ds <= {a}
    ensures AllHeld(SetHandle(s, h, a), {}, {})
  {
    var t := SetHandle(s, h, a);
    assert t.handles[h] == a;
    forall k | k in t.datas ensures Held(t, k) {
      if k != a {
        assert Held(s, k);
        if g :| g in s.handles && s.handles[g] == k {
          assert t.handles[g] == k;
        }
      }
    }
    forall c | c in t.conns ensures ConnHeld(t, c) {
      assert ConnHeld(s, c);
    }
  }

  lemma SetHandleKeeps(s: State, h: nat, a: nat, ds: set<nat>)
    requires Between(s, {}, ds, {}) && h !in s.handles && a in s.datas && ds <= {a}
    ensures Inv(SetHandle(s, h, a))
  {
    hide AllHeld, SentOnce, Registered, Listed, Orderly;
    SetHandleHeld(s, h, a, ds);
    HandlesElsewhere(s, SetHandle(s, h, a));
    assert Pointers(SetHandle(s, h, a));
  }

  /** Who holds a return value matters to nothing but what is held. */
  lemma HandlesElsewhere(s: State, t: State)
    requires t == s.(handles := t.handles)
    ensures Registered(s) ==> Registered(t)
    ensures SentOnce(s) ==> SentOnce(t)
    ensures Listed(s, {}) ==> Listed(t, {})
  {
    hide Orderly;
  }

  lemma DropHandleHeld(s: State, h: nat)
    requires AllHeld(s, {}, {}) && h in s.handles
    ensures AllHeld(s.(handles := s.handles - {h}), {s.handles[h]}, {})
  {
    var t := s.(handles := s.handles - {h});
    forall k | k in t.datas && k != s.handles[h] ensures Held(t, k) {
      assert Held(s, k);
      if g :| g in s.handles && s.handles[g] == k {
        assert t.handles[g] == k;
      }
    }
    forall c | c in t.conns ensures ConnHeld(t, c) {
      assert ConnHeld(s, c);
    }
  }

  lemma DropHandleKeeps(s: State, h: nat)
    requires Inv(s) && h in s.handles
    ensures Inv(DropHandle(s, h))
  {
    hide SentOnce, Registered, Listed, Pointers, ReleaseData, AllHeld;
    var t, a := s.(handles := s.handles - {h}), s.handles[h];
    HandlesElsewhere(s, t);
    DropHandleHeld(s, h);
    HandlePointer(s, h);
    ReleaseDataKeeps(t, a, {}, {a}, {});
    BetweenMore(ReleaseData(t, a), {}, {a} - {a}, {}, {} - {t.datas[a].conn}, {});
  }

  lemma HandlePointer(s: State, h: nat)
    requires Pointers(s) && h in s.handles
    ensures s.handles[h] in s.datas && s.datas[s.handles[h]].conn in s.conns
    ensures Pointers(s.(handles := s.handles - {h}))
  {
  }

  function NewConn(s: State, up: bool): State {
    s.(conns := s.conns[s.next := Conn(up, map[])], next := s.next + 1)
  }

  lemma NewConnHeld(s: State, up: bool)
    requires AllHeld(s, {}, {})
    ensures AllHeld(NewConn(s, up), {}, {s.next})
  {
    var t := NewConn(s, up);
    forall k | k in t.datas ensures Held(t, k) {
      assert Held(s, k);
    }
    forall c | c in t.conns && c != s.next ensures ConnHeld(t, c) {
      assert ConnHeld(s, c);
    }
  }

  lemma NewConnOthers(s: State, up: bool)
    requires Pointers(s)
    ensures Pointers(NewConn(s, up)) && s.next !in s.conns
    ensures Registered(s) ==> Registered(NewConn(s, up))
    ensures Listed(s, {}) ==> Listed(NewConn(s, up), {})
    ensures SentOnce(s) ==> SentOnce(NewConn(s, up))
  {
    hide Orderly;
  }

  lemma NewConnKeeps(s: State, up: bool)
    requires Inv(s)
    ensures Between(NewConn(s, up), {}, {}, {s.next})
  {
    hide SentOnce, Registered, Listed, Pointers, AllHeld, NewConn;
    NewConnHeld(s, up);
    NewConnOthers(s, up);
  }

  lemma CreatePointers(s: State, c: nat, id: UInt32)
    requires Pointers(s) && c in s.conns
    ensures Pointers(Create(s, c, id)) && s.next !in s.datas
  {
  }

  lemma CreateRegistered(s: State, c: nat, id: UInt32)
    requires Registered(s) && Pointers(s) && c in s.conns && id !in s.conns[c].registry
    ensures Registered(Create(s, c, id))
  {
  }

  lemma CreateListed(s: State, c: nat, id: UInt32)
    requires Listed(s, {}) && SentOnce(s) && Pointers(s) && c in s.conns
    ensures Listed(Create(s, c, id), {}) && SentOnce(Create(s, c, id))
  {
    hide Orderly;
    var t := Create(s, c, id);
    assert Orderly(NOBODY) by { EmptyOrderly(); }
    forall p | p in s.proxies ensures s.proxies[p].service != Some(s.next) {
    }
  }

  lemma EmptyOrderly()
    ensures Orderly(NOBODY)
  {
  }

  lemma CreateKeeps(s: State, c: nat, id: UInt32)
    requires Inv(s) && c in s.conns && id !in s.conns[c].registry
    ensures Between(Create(s, c, id), {}, {s.next}, {})
  {
    hide SentOnce, Registered, Listed, Pointers, AllHeld, Create;
    CreatePointers(s, c, id);
    CreateRegistered(s, c, id);
    CreateListed(s, c, id);
    CreateHeld(s, c, id);
  }

  lemma CreateHeld(s: State, c: nat, id: UInt32)
    requires AllHeld(s, {}, {}) && c in s.conns && s.next !in s.datas
    ensures AllHeld(Create(s, c, id), {s.next}, {})
  {
    var t := Create(s, c, id);
    forall k | k in t.datas && k != s.next ensures Held(t, k) {
      assert Held(s, k);
    }
    forall k | k in t.conns ensures ConnHeld(t, k) {
      assert ConnHeld(s, k);
      if a :| a in s.datas && s.datas[a].conn == k {
        assert t.datas[a].conn == k;
      }
    }
  }

  lemma ForgetKeeps(s: State, p: nat)
    requires Between(s, {p}, {}, {}) && p in s.proxies
    ensures Inv(Forget(s, p))
  {
    hide SentOnce, Registered, Listed, Pointers, AllHeld, ReleaseData, ReleaseConn;
    ServicePointer(s, p);
    var t, c := s.(proxies := s.proxies - {p}), s.proxies[p].conn;
    var ds := OldService(s, p);
    RemoveProxyKeeps(s, p);
    if s.proxies[p].service.Some? {
      var a := s.proxies[p].service.value;
      var u := ReleaseData(t, a);
      ReleaseDataKeeps(t, a, {}, ds, {c});
      ReleaseConnKeeps(u, c, {}, ds - {a}, {c} - {t.datas[a].conn});
      BetweenMore(ReleaseConn(u, c), {}, ds - {a}, {}, {c} - {t.datas[a].conn} - {c}, {});
    } else {
      ReleaseConnKeeps(t, c, {}, {}, {c});
      BetweenMore(ReleaseConn(t, c), {}, {}, {}, {c} - {c}, {});
    }
  }

  lemma RemoveProxyHeld(s: State, p: nat)
    requires AllHeld(s, {}, {}) && p in s.proxies
    ensures AllHeld(s.(proxies := s.proxies - {p}), OldService(s, p), {s.proxies[p].conn})
  {
    var t := s.(proxies := s.proxies - {p});
    forall k | k in t.datas && k !in OldService(s, p) ensures Held(t, k) {
      assert Held(s, k);
      if q :| q in s.proxies && s.proxies[q].service == Some(k) {
        assert t.proxies[q].service == Some(k);
      }
    }
    forall c | c in t.conns && c != s.proxies[p].conn ensures ConnHeld(t, c) {
      assert ConnHeld(s, c);
      if q :| q in s.proxies && s.proxies[q].conn == c {
        assert t.proxies[q].conn == c;
      }
    }
  }

  lemma RemoveProxyOthers(s: State, p: nat)
    requires Pointers(s) && p in s.proxies
    ensures var t := s.(proxies := s.proxies - {p});
      && Pointers(t)
      && (Registered(s) ==> Registered(t))
      && (Listed(s, {p}) ==> Listed(t, {}))
      && (SentOnce(s) ==> SentOnce(t))
  {
    hide Orderly;
  }

  lemma RemoveProxyKeeps(s: State, p: nat)
    requires Between(s, {p}, {}, {}) && p in s.proxies
    ensures Between(s.(proxies := s.proxies - {p}), {}, OldService(s, p), {s.proxies[p].conn})
  {
    hide SentOnce, Registered, Listed, Pointers, AllHeld;
    RemoveProxyHeld(s, p);
    RemoveProxyOthers(s, p);
  }

  // ------------------------------------------------------------------ steps

  lemma UnlistPointers(s: State, p: nat)
    requires Pointers(s) && p in s.proxies
    ensures Pointers(Unlist(s, p))
    ensures Unlist(s, p).proxies == s.proxies && Unlist(s, p).datas.Keys == s.datas.Keys
  {
    hide RemoveProxy;
    if s.proxies[p].service.Some? {
      var a := s.proxies[p].service.value;
      SharedPointers(s, a, RemoveProxy(s.datas[a].sharing, p));
    }
  }

  lemma SetServicePointers(s: State, p: nat, service: Option<nat>)
    requires Pointers(s) && p in s.proxies && (service.Some? ==> service.value in s.datas)
    ensures var t := SetService(s, p, service);
      && Pointers(t) && t.proxies == s.proxies[p := s.proxies[p].(service := service)]
      && (service.Some? ==> service.value in t.datas && t.datas[service.value].conn in t.conns)
  {
    var x := s.proxies[p].(service := service);
    var t := SetProxy(s, p, x);
    SetProxyOthers(s, p, x);
    if s.proxies[p].service.Some? {
      ReleaseDataPointers(t, s.proxies[p].service.value);
    }
    hide ReleaseData;
    assert SetService(s, p, service).proxies[p] == x;
  }

  lemma ReleaseDataPointers(s: State, a: nat)
    requires Pointers(s) && a in s.datas
    ensures Pointers(ReleaseData(s, a)) && ReleaseData(s, a).proxies == s.proxies
  {
    if !Held(s, a) {
      ReleaseConnPointers(Destroy(s, a), s.datas[a].conn);
    }
  }

  lemma SetConnPointers(s: State, p: nat, c: nat)
    requires Pointers(s) && p in s.proxies && c in s.conns
    ensures var t := SetConn(s, p, c);
      Pointers(t) && t.datas == s.datas && t.proxies == s.proxies[p := s.proxies[p].(conn := c)]
  {
    SetProxyOthers(s, p, s.proxies[p].(conn := c));
    ReleaseConnPointers(SetProxy(s, p, s.proxies[p].(conn := c)), s.proxies[p].conn);
  }

  /** Out of the old list, over to the new service. */
  ghost function Move(s: State, p: nat, service: Option<nat>): (t: State)
    requires Pointers(s) && p in s.proxies && (service.Some? ==> service.value in s.datas)
    ensures Pointers(t) && p in t.proxies && t.proxies[p] == s.proxies[p].(service := service)
  {
    UnlistPointers(s, p);
    SetServicePointers(Unlist(s, p), p, service);
    SetService(Unlist(s, p), p, service)
  }

  /** Assignment from a return value: the service first, then its connection. */
  ghost function AssignFromReturn(s: State, p: nat, a: nat): State
    requires Pointers(s) && p in s.proxies && a in s.datas
  {
    var t := Move(s, p, Some(a));
    SetConnPointers(t, p, t.datas[a].conn);
    Enlist(SetConn(t, p, t.datas[a].conn), p)
  }

  /** Assignment from a proxy: the connection first. */
  ghost function AssignFromProxy(s: State, p: nat, from: nat): State
    requires Pointers(s) && p in s.proxies && from in s.proxies
  {
    var t := SetConn(s, p, s.proxies[from].conn);
    SetConnPointers(s, p, s.proxies[from].conn);
    Enlist(Move(t, p, s.proxies[from].service), p)
  }

  /** parseReturn: the registered service if there is one, else a new one. */
  function ParseReturn(s: State, c: nat, h: nat, id: UInt32): State
    requires c in s.conns
  {
    if id in s.conns[c].registry then SetHandle(s, h, s.conns[c].registry[id])
    else SetHandle(Create(s, c, id), h, s.next)
  }

  /** The original protocol's getService: a new object under 0, whatever was there. */
  ghost function SelectOriginal(s: State, p: nat): State
    requires Pointers(s) && p in s.proxies
  {
    CreatePointers(s, s.proxies[p].conn, 0);
    Enlist(Move(Create(s, s.proxies[p].conn, 0), p, Some(s.next)), p)
  }

  datatype Event =
    | New(p: nat)
    | Copy(p: nat, from: nat)
    | Delete(p: nat)
    | Connect(p: nat, up: bool)
    | GoesDown(conn: nat)
    | Arrives(p: nat, h: nat, id: UInt32)    // a service return value, parsed on behalf of p
    | CopyReturn(h: nat, other: nat)
    | DropReturn(h: nat)
    | AssignReturn(p: nat, h: nat)
    | AssignProxy(p: nat, from: nat)
    | Deselect(p: nat)
    | GetOriginal(p: nat)

  /** Only a proxy with a service can be assigned from; only one client selects a service of
      the original protocol per connection, and once (see SelectOriginalExactly). */
  ghost predicate Enabled(s: State, e: Event)
    requires Pointers(s)
  {
    match e
    case New(p) => p !in s.proxies
    case Copy(p, from) => p !in s.proxies && from in s.proxies
    case Delete(p) => p in s.proxies
    case Connect(p, _) => p in s.proxies
    case GoesDown(c) => c in s.conns
    case Arrives(p, h, _) => p in s.proxies && h !in s.handles
    case CopyReturn(h, other) => h !in s.handles && other in s.handles
    case DropReturn(h) => h in s.handles
    case AssignReturn(p, h) => p in s.proxies && h in s.handles
    case AssignProxy(p, from) => p in s.proxies && from in s.proxies && s.proxies[from].service.Some?
    case Deselect(p) => p in s.proxies
    case GetOriginal(p) => p in s.proxies && 0 !in s.conns[s.proxies[p].conn].registry
  }

  ghost function Step(s: State, e: Event): State
    requires Pointers(s) && Enabled(s, e)
  {
    match e
    case New(p) => SetProxy(NewConn(s, false), p, Proxy(s.next, None))
    case Copy(p, from) => Enlist(SetProxy(s, p, s.proxies[from]), p)
    case Delete(p) => UnlistPointers(s, p); Forget(Unlist(s, p), p)
    case Connect(p, up) => SetConn(NewConn(s, up), p, s.next)
    case GoesDown(c) => Down(s, c)
    case Arrives(p, h, id) => ParseReturn(s, s.proxies[p].conn, h, id)
    case CopyReturn(h, other) => SetHandle(s, h, s.handles[other])
    case DropReturn(h) => DropHandle(s, h)
    case AssignReturn(p, h) => AssignFromReturn(s, p, s.handles[h])
    case AssignProxy(p, from) => AssignFromProxy(s, p, from)
    case Deselect(p) => Move(s, p, None)
    case GetOriginal(p) => SelectOriginal(s, p)
  }

  lemma MoveKeeps(s: State, p: nat, service: Option<nat>, ds: set<nat>)
    requires Between(s, {}, ds, {}) && p in s.proxies && (service.Some? ==> service.value in s.datas)
    requires ds <= ServiceSet(service)
    ensures Between(Move(s, p, service), {p}, {}, {})
  {
    hide SentOnce, Registered, Listed, Pointers, AllHeld, SetService, Unlist;
    ServicePointer(s, p);
    UnlistKeeps(s, p, ds, {});
    UnlistPointers(s, p);
    SetServiceKeeps(Unlist(s, p), p, service, ds);
    assert ds - ServiceSet(service) == {};
  }

  lemma AssignKeeps(s: State, p: nat, from: nat, a: nat)
    requires Inv(s) && p in s.proxies
    ensures a in s.datas ==> Inv(AssignFromReturn(s, p, a))
    ensures from in s.proxies ==> Inv(AssignFromProxy(s, p, from))
  {
    hide SentOnce, Registered, Listed, Pointers, AllHeld, SetConn, Enlist, Move;
    if a in s.datas {
      var t := Move(s, p, Some(a));
      MoveKeeps(s, p, Some(a), {});
      ServicePointer(t, p);
      SetConnKeeps(t, p, t.datas[a].conn, {p}, {});
      SetConnPointers(t, p, t.datas[a].conn);
      EnlistKeeps(SetConn(t, p, t.datas[a].conn), p, {}, {});
    }
    if from in s.proxies {
      var c, service := s.proxies[from].conn, s.proxies[from].service;
      ServicePointer(s, from);
      SetConnKeeps(s, p, c, {}, {});
      SetConnPointers(s, p, c);
      var t := SetConn(s, p, c);
      MoveKeeps(t, p, service, {});
      EnlistKeeps(Move(t, p, service), p, {}, {});
    }
  }

  lemma SelectOriginalKeeps(s: State, p: nat)
    requires Inv(s) && p in s.proxies && 0 !in s.conns[s.proxies[p].conn].registry
    ensures Inv(SelectOriginal(s, p))
  {
    hide SentOnce, Registered, Listed, Pointers, AllHeld, Enlist, Move;
    ServicePointer(s, p);
    var t := Create(s, s.proxies[p].conn, 0);
    CreateKeeps(s, s.proxies[p].conn, 0);
    MoveKeeps(t, p, Some(s.next), {s.next});
    EnlistKeeps(Move(t, p, Some(s.next)), p, {}, {});
  }

  lemma ParseReturnKeeps(s: State, c: nat, h: nat, id: UInt32)
    requires Inv(s) && c in s.conns && h !in s.handles
    ensures Inv(ParseReturn(s, c, h, id))
  {
    if id in s.conns[c].registry {
      SetHandleKeeps(s, h, s.conns[c].registry[id], {});
    } else {
      hide SentOnce, Registered, Listed, Pointers, AllHeld;
      CreateKeeps(s, c, id);
      SetHandleKeeps(Create(s, c, id), h, s.next, {s.next});
    }
  }

  lemma NewKeeps(s: State, p: nat)
    requires Inv(s) && p !in s.proxies
    ensures Inv(SetProxy(NewConn(s, false), p, Proxy(s.next, None)))
  {
    hide SentOnce, Registered, Listed, Pointers, AllHeld;
    var u, x := NewConn(s, false), Proxy(s.next, None);
    NewConnKeeps(s, false);
    HoleAnywhere(u, p);
    SetProxyKeeps(u, p, x, {p}, {}, {s.next});
    HoleAnywhere(SetProxy(u, p, x), p);
    BetweenMore(SetProxy(u, p, x), {}, {} + OldService(u, p) - {}, {}, {s.next} + OldConn(u, p) - {s.next}, {});
  }

  lemma CopyKeeps(s: State, p: nat, from: nat)
    requires Inv(s) && p !in s.proxies && from in s.proxies
    ensures Inv(Enlist(SetProxy(s, p, s.proxies[from]), p))
  {
    var x := s.proxies[from];
    ServicePointer(s, from);
    hide SentOnce, Registered, Listed, Pointers, AllHeld, Enlist;
    HoleAnywhere(s, p);
    SetProxyKeeps(s, p, x, {p}, {}, {});
    var t := SetProxy(s, p, x);
    BetweenMore(t, {p}, {} + OldService(s, p) - ServiceSet(x.service), {}, {} + OldConn(s, p) - {x.conn}, {});
    EnlistKeeps(t, p, {}, {});
  }

  function Down(s: State, c: nat): State
    requires c in s.conns
  {
    s.(conns := s.conns[c := s.conns[c].(up := false)])
  }

  lemma DownHeld(s: State, c: nat)
    requires AllHeld(s, {}, {}) && c in s.conns
    ensures AllHeld(Down(s, c), {}, {})
  {
    var t := Down(s, c);
    forall a | a in t.datas ensures Held(t, a) {
      assert Held(s, a);
    }
    forall k | k in t.conns ensures ConnHeld(t, k) {
      assert ConnHeld(s, k);
    }
  }

  lemma DownOthers(s: State, c: nat)
    requires c in s.conns
    ensures Pointers(s) ==> Pointers(Down(s, c))
    ensures Registered(s) ==> Registered(Down(s, c))
    ensures Listed(s, {}) ==> Listed(Down(s, c), {})
    ensures SentOnce(s) ==> SentOnce(Down(s, c))
  {
    hide Orderly;
  }

  lemma DownKeeps(s: State, c: nat)
    requires Inv(s) && c in s.conns
    ensures Inv(Down(s, c))
  {
    hide SentOnce, Registered, Listed, Pointers, AllHeld, Down;
    DownHeld(s, c);
    DownOthers(s, c);
  }

  lemma StepKeeps(s: State, e: Event)
    requires Inv(s) && Enabled(s, e)
    ensures Inv(Step(s, e))
  {
    hide SentOnce, Registered, Listed, AllHeld, Move, Enlist, Unlist, SetConn, Forget, DropHandle;
    match e
    case New(p) => NewKeeps(s, p);
    case Copy(p, from) => CopyKeeps(s, p, from);
    case Delete(p) =>
      UnlistKeeps(s, p, {}, {});
      UnlistPointers(s, p);
      ForgetKeeps(Unlist(s, p), p);
    case Connect(p, up) =>
      NewConnKeeps(s, up);
      SetConnKeeps(NewConn(s, up), p, s.next, {}, {s.next});
    case GoesDown(c) => DownKeeps(s, c);
    case Arrives(p, h, id) => ParseReturnKeeps(s, s.proxies[p].conn, h, id);
    case CopyReturn(h, other) => SetHandleKeeps(s, h, s.handles[other], {});
    case DropReturn(h) => DropHandleKeeps(s, h);
    case AssignReturn(p, h) => AssignKeeps(s, p, p, s.handles[h]);
    case AssignProxy(p, from) => AssignKeeps(s, p, from, 0);
    case Deselect(p) =>
      MoveKeeps(s, p, None, {});
      HoleAnywhere(Move(s, p, None), p);
    case GetOriginal(p) => SelectOriginalKeeps(s, p);
  }

  ghost predicate Reaches(s: State, events: seq<Event>, t: State)
    decreases |events|
  {
    if events == [] then s == t
    else Pointers(s) && Enabled(s, events[0]) && Reaches(Step(s, events[0]), events[1..], t)
  }

  lemma {:induction false} InvAlways(s: State, events: seq<Event>, t: State)
    requires Inv(s) && Reaches(s, events, t)
    ensures Inv(t)
    decreases |events|
  {
    hide SentOnce, Registered, Listed, AllHeld, Step, Enabled;
    if events != [] {
      StepKeeps(s, events[0]);
      InvAlways(Step(s, events[0]), events[1..], t);
    }
  }

  ghost predicate Reachable(t: State) {
    exists events :: Reaches(START, events, t)
  }

  lemma ReachableInv(t: State)
    requires Reachable(t)
    ensures Inv(t)
  {
    hide Step, Enabled;
    var events :| Reaches(START, events, t);
    assert Inv(START);
    InvAlways(START, events, t);
  }

  // ------------------------------------------------------- what the server hears

  /** Nobody gone and nothing said. */
  ghost predicate Calm(s: State, t: State) {
    && t.sent == s.sent
    && forall a :: a in s.datas ==>
         && a in t.datas && t.datas[a].conn == s.datas[a].conn && t.datas[a].id == s.datas[a].id
         && s.datas[a].conn in s.conns && s.datas[a].conn in t.conns
         && s.conns[s.datas[a].conn].up == t.conns[s.datas[a].conn].up
  }

  /** One service gone; the server heard of it if the connection was up. */
  ghost predicate Ends(s: State, t: State, a: nat) {
    && a in s.datas && a !in t.datas && s.datas[a].conn in s.conns
    && (forall k :: k in s.datas && k != a ==>
          k in t.datas && t.datas[k].conn == s.datas[k].conn && t.datas[k].id == s.datas[k].id)
    && var d := s.datas[a];
      t.sent == s.sent + if s.conns[d.conn].up then [Sent(a, d.conn, d.id)] else []
  }

  lemma CalmThenEnds(s: State, u: State, t: State, a: nat)
    requires Calm(s, u)
    requires Calm(u, t) || (Ends(u, t, a) && a in s.datas)
    ensures Calm(s, t) || Ends(s, t, a)
  {
  }

  lemma CalmTransitive(s: State, u: State, t: State)
    requires Calm(s, u) && Calm(u, t)
    ensures Calm(s, t)
  {
  }

  lemma EndsThenCalm(s: State, u: State, t: State, a: nat)
    requires Calm(s, u) || Ends(s, u, a)
    requires Calm(u, t) && t.datas.Keys == u.datas.Keys
    ensures Calm(s, t) || Ends(s, t, a)
  {
  }

  lemma PointersCalm(s: State, t: State)
    requires Pointers(s) && t.sent == s.sent && t.datas == s.datas
    requires forall c :: c in s.conns && ConnHeld(s, c) ==> c in t.conns && t.conns[c].up == s.conns[c].up
    ensures Calm(s, t)
  {
    forall a | a in s.datas ensures ConnHeld(s, s.datas[a].conn) {
    }
  }

  lemma ReleaseDataEnds(s: State, a: nat)
    requires Pointers(s) && a in s.datas
    ensures Calm(s, ReleaseData(s, a)) || Ends(s, ReleaseData(s, a), a)
  {
    if Held(s, a) {
      PointersCalm(s, s);
    }
  }

  lemma UnlistCalm(s: State, p: nat)
    requires Pointers(s) && p in s.proxies
    ensures Calm(s, Unlist(s, p)) && Unlist(s, p).datas.Keys == s.datas.Keys
    ensures Calm(s, Enlist(s, p)) && Enlist(s, p).datas.Keys == s.datas.Keys
  {
    hide AddProxy, RemoveProxy;
  }

  lemma SetConnCalm(s: State, p: nat, c: nat)
    requires Pointers(s) && p in s.proxies && c in s.conns
    ensures Calm(s, SetConn(s, p, c))
  {
    var t := SetConn(s, p, c);
    var u := SetProxy(s, p, s.proxies[p].(conn := c));
    forall k | k in s.conns && k !in t.conns ensures !ConnHeld(s, k) || k == s.proxies[p].conn {
    }
    forall a | a in s.datas ensures s.datas[a].conn in t.conns {
      assert ConnHeld(u, s.datas[a].conn);
    }
  }

  /** The service a proxy leaves is the only one that can end. */
  lemma MoveEnds(s: State, p: nat, service: Option<nat>, a: nat)
    requires Pointers(s) && p in s.proxies && (service.Some? ==> service.value in s.datas)
    requires s.proxies[p].service.Some? ==> a == s.proxies[p].service.value
    ensures Calm(s, Move(s, p, service)) || (s.proxies[p].service.Some? && Ends(s, Move(s, p, service), a))
  {
    hide Pointers, Unlist, ReleaseData, Calm, Ends;
    ServicePointer(s, p);
    UnlistPointers(s, p);
    UnlistCalm(s, p);
    ServicePointer(Unlist(s, p), p);
    var u, x := Unlist(s, p), s.proxies[p].(service := service);
    var v := SetProxy(u, p, x);
    SetProxyOthers(u, p, x);
    PointersCalm(u, v);
    CalmTransitive(s, u, v);
    if s.proxies[p].service.Some? {
      ReleaseDataEnds(v, a);
      CalmThenEnds(s, v, ReleaseData(v, a), a);
    }
  }

  lemma AssignEnds(s: State, p: nat, from: nat, to: nat, a: nat)
    requires Pointers(s) && p in s.proxies && (s.proxies[p].service.Some? ==> a == s.proxies[p].service.value)
    ensures to in s.datas ==> Calm(s, AssignFromReturn(s, p, to)) || Ends(s, AssignFromReturn(s, p, to), a)
    ensures from in s.proxies ==> Calm(s, AssignFromProxy(s, p, from)) || Ends(s, AssignFromProxy(s, p, from), a)
  {
    hide Pointers, Calm, Ends, Move, SetConn, Enlist;
    if to in s.datas {
      var t := Move(s, p, Some(to));
      MoveEnds(s, p, Some(to), a);
      ServicePointer(t, p);
      var u := SetConn(t, p, t.datas[to].conn);
      SetConnPointers(t, p, t.datas[to].conn);
      SetConnCalm(t, p, t.datas[to].conn);
      EndsThenCalm(s, t, u, a);
      UnlistCalm(u, p);
      EndsThenCalm(s, u, Enlist(u, p), a);
    }
    if from in s.proxies {
      var c, service := s.proxies[from].conn, s.proxies[from].service;
      ServicePointer(s, from);
      SetConnPointers(s, p, c);
      SetConnCalm(s, p, c);
      var t := SetConn(s, p, c);
      MoveEnds(t, p, service, a);
      var u := Move(t, p, service);
      MovedFrom(s, t, u, a);
      UnlistCalm(u, p);
      EndsThenCalm(s, u, Enlist(u, p), a);
    }
  }

  lemma MovedFrom(s: State, t: State, u: State, a: nat)
    requires Calm(s, t) && t.datas.Keys == s.datas.Keys && (Calm(t, u) || Ends(t, u, a))
    ensures Calm(s, u) || Ends(s, u, a)
  {
  }

  lemma SelectOriginalEnds(s: State, p: nat, a: nat)
    requires Pointers(s) && p in s.proxies && (s.proxies[p].service.Some? ==> a == s.proxies[p].service.value)
    ensures Calm(s, SelectOriginal(s, p)) || Ends(s, SelectOriginal(s, p), a)
  {
    ServicePointer(s, p);
    CreatePointers(s, s.proxies[p].conn, 0);
    var t := Create(s, s.proxies[p].conn, 0);
    MoveEnds(t, p, Some(s.next), a);
    hide Pointers, Calm, Ends, Move, Enlist;
    var u := Move(t, p, Some(s.next));
    CalmThenEnds(s, t, u, a);
    UnlistCalm(u, p);
    EndsThenCalm(s, u, Enlist(u, p), a);
  }

  lemma ForgetEnds(s: State, p: nat, a: nat)
    requires Pointers(s) && p in s.proxies && (s.proxies[p].service.Some? ==> a == s.proxies[p].service.value)
    ensures Calm(s, Forget(s, p)) || Ends(s, Forget(s, p), a)
  {
    ServicePointer(s, p);
    RemoveProxyOthers(s, p);
    var t := s.(proxies := s.proxies - {p});
    PointersCalm(s, t);
    hide Pointers, Calm, Ends, ReleaseData, ReleaseConn;
    if s.proxies[p].service.Some? {
      ReleaseDataEnds(t, a);
      ReleaseDataPointers(t, a);
      CalmThenEnds(s, t, ReleaseData(t, a), a);
      ReleaseConnCalm(ReleaseData(t, a), s.proxies[p].conn);
      EndsThenCalm(s, ReleaseData(t, a), Forget(s, p), a);
    } else {
      ReleaseConnCalm(t, s.proxies[p].conn);
      CalmTransitive(s, t, Forget(s, p));
    }
  }

  lemma ReleaseConnCalm(s: State, c: nat)
    requires Pointers(s)
    ensures Calm(s, ReleaseConn(s, c)) && ReleaseConn(s, c).datas == s.datas
  {
    PointersCalm(s, ReleaseConn(s, c));
  }

  lemma DropHandleEnds(s: State, h: nat)
    requires Pointers(s) && h in s.handles
    ensures Calm(s, DropHandle(s, h)) || Ends(s, DropHandle(s, h), s.handles[h])
  {
    var t := s.(handles := s.handles - {h});
    HandlePointer(s, h);
    PointersCalm(s, t);
    ReleaseDataEnds(t, s.handles[h]);
    CalmThenEnds(s, t, DropHandle(s, h), s.handles[h]);
  }

  /** What a step says to the server: nothing while every service it found is still alive;
      else destroyService for the one that is not, if its connection is up. */
  ghost predicate SaidExactly(s: State, t: State) {
    || (t.sent == s.sent && Remain(s, t))
    || exists a :: Ends(s, t, a)
  }

  ghost predicate Remain(s: State, t: State) {
    forall a :: a in s.datas ==> a in t.datas && t.datas[a].conn == s.datas[a].conn && t.datas[a].id == s.datas[a].id
  }

  lemma SaidIf(s: State, t: State, a: nat)
    requires Calm(s, t) || Ends(s, t, a)
    ensures SaidExactly(s, t)
  {
  }

  lemma StepSays(s: State, e: Event)
    requires Pointers(s) && Enabled(s, e)
    ensures SaidExactly(s, Step(s, e))
  {
    var t := Step(s, e);
    if e.Delete? || e.AssignReturn? || e.AssignProxy? || e.Deselect? || e.GetOriginal? {
      MovingSays(s, e);
    } else if e.DropReturn? {
      DropHandleEnds(s, e.h);
      SaidIf(s, t, s.handles[e.h]);
    }
  }

  lemma MovingSays(s: State, e: Event)
    requires Pointers(s) && Enabled(s, e)
    requires e.Delete? || e.AssignReturn? || e.AssignProxy? || e.Deselect? || e.GetOriginal?
    ensures SaidExactly(s, Step(s, e))
  {
    hide Calm, Ends, SaidExactly, Move, Forget, AssignFromProxy, AssignFromReturn, SelectOriginal;
    var p := e.p;
    var a := if s.proxies[p].service.Some? then s.proxies[p].service.value else 0;
    match e {
      case Delete(p) =>
        UnlistPointers(s, p);
        UnlistCalm(s, p);
        ForgetEnds(Unlist(s, p), p, a);
        MovedFrom(s, Unlist(s, p), Step(s, e), a);
      case AssignReturn(p, h) => AssignEnds(s, p, p, s.handles[h], a);
      case AssignProxy(p, from) => AssignEnds(s, p, from, 0, a);
      case Deselect(p) => MoveEnds(s, p, None, a);
      case GetOriginal(p) => SelectOriginalEnds(s, p, a);
    }
    SaidIf(s, Step(s, e), a);
  }

  // ---------------------------------------------------------------- results

  /** In every run, a connection's registry knows an id exactly when a service of that id is
      alive on it; there are never two; and the connection is still there. */
  lemma RegistryExactly(t: State, c: nat, id: UInt32, a: nat, b: nat)
    requires Reachable(t)
    ensures c in t.conns ==>
              (id in t.conns[c].registry && t.conns[c].registry[id] == a <==>
               a in t.datas && t.datas[a].conn == c && t.datas[a].id == id)
    ensures a in t.datas ==> t.datas[a].conn in t.conns
    ensures a in t.datas && b in t.datas && t.datas[a].conn == t.datas[b].conn && t.datas[a].id == t.datas[b].id ==> a == b
  {
    hide Reachable;
    ReachableInv(t);
  }

  /** A service is alive exactly while a proxy or a return value holds it. */
  lemma AliveExactly(t: State, a: nat)
    requires Reachable(t)
    ensures a in t.datas <==> Held(t, a)
  {
    hide Reachable;
    ReachableInv(t);
  }

  /** destroyService goes out exactly once for each service whose last holder lets go while
      the connection is up: in the step that lets go, and in no other. */
  lemma DestroyServiceExactly(s: State, e: Event)
    requires Reachable(s) && Pointers(s) && Enabled(s, e)
    ensures var t := Step(s, e);
      || (t.sent == s.sent && forall a :: a in s.datas ==> Held(t, a))
      || exists a :: Ends(s, t, a) && Held(s, a) && !Held(t, a)
    ensures forall i, j :: 0 <= i < j < |Step(s, e).sent| ==> Step(s, e).sent[i].data != Step(s, e).sent[j].data
  {
    ReachableInv(s);
    StepKeeps(s, e);
    hide Step, Enabled, Reachable, Registered, Listed;
    var t := Step(s, e);
    StepSays(s, e);
    HeldExactly(s);
    HeldExactly(t);
  }

  lemma HeldExactly(s: State)
    requires Pointers(s) && AllHeld(s, {}, {})
    ensures forall a :: a in s.datas <==> Held(s, a)
  {
  }

  /** An event reaches every proxy that shares the service it is addressed to, once each, and
      no other; a callback reaches exactly one of them. */
  lemma EventsReachSharers(t: State, c: nat, id: UInt32)
    requires Reachable(t) && c in t.conns && id in t.conns[c].registry
    ensures t.conns[c].registry[id] in t.datas
    ensures var x := t.datas[t.conns[c].registry[id]].sharing;
      && (forall p :: p in x.list <==> p in t.proxies && t.proxies[p].service == Some(t.conns[c].registry[id]))
      && Distinct(x.list)
      && (x.primary.Some? <==> exists p :: p in t.proxies && t.proxies[p].service == Some(t.conns[c].registry[id]))
      && (x.primary.Some? ==>
            x.primary.value in t.proxies && t.proxies[x.primary.value].service == Some(t.conns[c].registry[id]))
  {
    ReachableInv(t);
    hide Reachable, AllHeld, SentOnce;
    var a := t.conns[c].registry[id];
    var x := t.datas[a].sharing;
    assert x.list != [] ==> x.list[0] in x.list;
  }

  /** A proxy is in the list of its own service and no other. */
  lemma OneList(t: State, p: nat, a: nat)
    requires Reachable(t) && a in t.datas
    ensures p in t.datas[a].sharing.list <==> p in t.proxies && t.proxies[p].service == Some(a)
  {
    ReachableInv(t);
  }

  // --------------------------------------------------- the original protocol

  /** Where the promise ends: selecting a service of the original protocol keeps the registry
      and the live services in step exactly when no service is registered under 0 yet. */
  lemma SelectOriginalExactly(s: State, p: nat)
    requires Inv(s) && p in s.proxies
    ensures Inv(SelectOriginal(s, p)) <==> 0 !in s.conns[s.proxies[p].conn].registry
  {
    if 0 in s.conns[s.proxies[p].conn].registry {
      SecondOriginal(s, p);
    } else {
      SelectOriginalKeeps(s, p);
    }
  }

  lemma SecondOriginal(s: State, p: nat)
    requires Pointers(s) && Registered(s) && p in s.proxies && 0 in s.conns[s.proxies[p].conn].registry
    ensures !Registered(SelectOriginal(s, p))
  {
    ServicePointer(s, p);
    var c, a := s.proxies[p].conn, s.next;
    var b := s.conns[c].registry[0];
    CreatePointers(s, c, 0);
    var t := Create(s, c, 0);
    var u := Move(t, p, Some(a));
    var left := if s.proxies[p].service.Some? then s.proxies[p].service.value else a;
    MoveEnds(t, p, Some(a), left);
    assert b in t.datas && b != a && t.datas[b] == s.datas[b];
    if !Calm(t, u) && left == b {
      MoveUnregisters(t, p, a, b);
    }
    assert !Registered(u);
    EnlistRegistered(u, p);
  }

  lemma MoveUnregisters(t: State, p: nat, a: nat, b: nat)
    requires Pointers(t) && p in t.proxies && t.proxies[p].service == Some(b)
    requires a in t.datas && a != b && b in t.datas
    requires t.datas[a].conn == t.datas[b].conn && t.datas[a].id == t.datas[b].id
    requires b !in Move(t, p, Some(a)).datas
    ensures !Registered(Move(t, p, Some(a)))
  {
    hide RemoveProxy;
    UnlistPointers(t, p);
    var v := SetProxy(Unlist(t, p), p, t.proxies[p].(service := Some(a)));
    var u, c := Move(t, p, Some(a)), t.datas[a].conn;
    assert u == ReleaseData(v, b);
    assert u == ReleaseConn(Destroy(v, b), c);
    assert a in u.datas && u.datas[a].conn == c && u.datas[a].id == t.datas[b].id;
    assert c in u.conns ==> t.datas[b].id !in u.conns[c].registry;
  }

  lemma EnlistRegistered(u: State, p: nat)
    requires Pointers(u) && p in u.proxies && !Registered(u)
    ensures !Registered(Enlist(u, p))
  {
    if u.proxies[p].service.Some? {
      var a := u.proxies[p].service.value;
      var v := Shared(u, a, AddProxy(u.datas[a].sharing, p));
      assert u == Shared(v, a, u.datas[a].sharing);
      if Registered(v) {
        SharedRegistered(v, a, u.datas[a].sharing);
      }
    }
  }
}
