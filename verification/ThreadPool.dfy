/** lib/server.cpp: how the server spreads instances over its pool of threads. */
module ThreadPool {

  // ------------------------------------------------------------ the choice

  /** The last position below `limit`, or 0. */
  function LastBelow(counts: seq<int>, limit: int): (i: nat)
    ensures i <= |counts|
    ensures counts != [] ==> i < |counts|
  {
    if counts == [] then 0
    else
      var last := |counts| - 1;
      if counts[last] < limit then last else LastBelow(counts[..last], limit)
  }

  function FirstZero(counts: seq<int>): (i: nat)
    requires 0 in counts
    ensures i < |counts| && counts[i] == 0 && forall j :: 0 <= j < i ==> counts[j] != 0
  {
    if counts[0] == 0 then 0 else FirstZero(counts[1..]) + 1
  }

  /** An idle thread if there is one; else, since `lowest` is never lowered, the last
      thread busier than none but less busy than thread 0; else thread 0. */
  function Chosen(counts: seq<int>): (i: nat)
    requires counts != []
    ensures i < |counts|
  {
    if 0 in counts then FirstZero(counts) else LastBelow(counts, counts[0])
  }

  class Server {
    var threadCount: seq<int>

    constructor (threads: nat)
      requires threads > 0
      ensures threadCount == Idle(threads)
    {
      threadCount := [];
      new;
      for i := 0 to threads
        invariant threadCount == Idle(i)
      {
        threadCount := threadCount + [0];
      }
    }

    method RequestThread() returns (thread: nat)
      requires threadCount != []
      modifies this
      ensures thread == Chosen(old(threadCount))
      ensures threadCount == old(threadCount)[thread := old(threadCount)[thread] + 1]
    {
      thread := 0;
      var lowest := threadCount[0];
      for i := 0 to |threadCount|
        invariant threadCount == old(threadCount)
        invariant forall j :: 0 <= j < i ==> threadCount[j] != 0
        invariant thread < |threadCount| && thread == LastBelow(threadCount[..i], lowest)
      {
        assert threadCount[..i + 1] == threadCount[..i] + [threadCount[i]];
        if threadCount[i] == 0 {
          thread := i;
          assert FirstZero(threadCount) == i by { FirstZeroUnique(threadCount, i); }
          threadCount := threadCount[i := threadCount[i] + 1];
          return;
        }
        if lowest > threadCount[i] {
          thread := i;
        }
      }
      assert threadCount[..|threadCount|] == threadCount;
      threadCount := threadCount[thread := threadCount[thread] + 1];
    }

    /** Runs in the thread of the instance that goes away. */
    method RemoveService(current: nat)
      requires current < |threadCount|
      modifies this
      ensures threadCount == old(threadCount)[current := old(threadCount)[current] - 1]
    {
      threadCount := threadCount[current := threadCount[current] - 1];
    }
  }

  lemma FirstZeroUnique(counts: seq<int>, i: nat)
    requires i < |counts| && counts[i] == 0 && forall j :: 0 <= j < i ==> counts[j] != 0
    ensures 0 in counts && FirstZero(counts) == i
  {
    var f := FirstZero(counts);
    assert counts[f] == 0;
  }

  lemma LastBelowMeans(counts: seq<int>, limit: int)
    requires counts != []
    ensures var i := LastBelow(counts, limit);
      && (counts[i] < limit || (i == 0 && forall j :: 0 <= j < |counts| ==> counts[j] >= limit))
      && forall j :: i < j < |counts| ==> counts[j] >= limit
  {
    var last := |counts| - 1;
    if counts[last] >= limit && last > 0 {
      LastBelowMeans(counts[..last], limit);
    }
  }

  // ------------------------------------------------------------------ runs

  /** The pool, and the thread of each instance still alive. */
  datatype Pool = Pool(counts: seq<int>, live: seq<nat>)

  /** A new connection, or the end of the k-th live instance. */
  datatype Event = Request | Remove(k: nat)

  function Idle(n: nat): (counts: seq<int>)
    ensures |counts| == n && forall i :: 0 <= i < n ==> counts[i] == 0
  {
    if n == 0 then [] else Idle(n - 1) + [0]
  }

  function Apply(p: Pool, e: Event): Pool
    requires p.counts != []
    requires forall i :: 0 <= i < |p.live| ==> p.live[i] < |p.counts|
  {
    match e
    case Request =>
      var t := Chosen(p.counts);
      Pool(p.counts[t := p.counts[t] + 1], p.live + [t])
    case Remove(k) =>
      if k < |p.live| then
        var t := p.live[k];
        Pool(p.counts[t := p.counts[t] - 1], p.live[..k] + p.live[k + 1..])
      else p
  }

  function Run(n: nat, events: seq<Event>): (p: Pool)
    requires n > 0
    ensures |p.counts| == n && forall i :: 0 <= i < |p.live| ==> p.live[i] < n
    decreases |events|
  {
    if events == [] then Pool(Idle(n), [])
    else Apply(Run(n, events[..|events| - 1]), events[|events| - 1])
  }

  function Max(a: int, b: int): int {
    if a < b then b else a
  }

  function MaxOf(counts: seq<int>): (m: int)
    requires counts != []
    ensures m in counts && forall i :: 0 <= i < |counts| ==> counts[i] <= m
  {
    if |counts| == 1 then counts[0]
    else
      assert counts == [counts[0]] + counts[1..];
      Max(counts[0], MaxOf(counts[1..]))
  }

  /** The most instances alive at any time of the run. */
  function Peak(n: nat, events: seq<Event>): nat
    requires n > 0
    decreases |events|
  {
    if events == [] then 0
    else Max(Peak(n, events[..|events| - 1]), |Run(n, events).live|)
  }

  /** The largest count of any thread at any time of the run. */
  function HighWater(n: nat, events: seq<Event>): int
    requires n > 0
    decreases |events|
  {
    if events == [] then 0
    else Max(HighWater(n, events[..|events| - 1]), MaxOf(Run(n, events).counts))
  }

  function CeilDiv(p: nat, n: nat): nat
    requires n > 0
  {
    (p + n - 1) / n
  }

  // ------------------------------------------------------------ conservation

  function Occurrences(live: seq<nat>, t: nat): nat {
    if live == [] then 0 else (if live[0] == t then 1 else 0) + Occurrences(live[1..], t)
  }

  function Sum(counts: seq<int>): int {
    if counts == [] then 0 else counts[0] + Sum(counts[1..])
  }

  lemma {:induction false} OccurrencesConcat(a: seq<nat>, b: seq<nat>, t: nat)
    ensures Occurrences(a + b, t) == Occurrences(a, t) + Occurrences(b, t)
  {
    if a == [] {
      assert a + b == b;
    } else {
      assert (a + b)[1..] == a[1..] + b;
      OccurrencesConcat(a[1..], b, t);
    }
  }

  lemma {:induction false} SumUpdate(counts: seq<int>, t: nat, x: int)
    requires t < |counts|
    ensures Sum(counts[t := x]) == Sum(counts) - counts[t] + x
  {
    if t == 0 {
      assert counts[t := x][1..] == counts[1..];
    } else {
      assert counts[t := x][1..] == counts[1..][t - 1 := x];
      SumUpdate(counts[1..], t - 1, x);
    }
  }

  lemma {:induction false} SumIdle(n: nat)
    ensures Sum(Idle(n)) == 0
  {
    SumBounds(Idle(n), 0, 0);
  }

  lemma {:induction false} SumBounds(counts: seq<int>, low: int, high: int)
    requires forall i :: 0 <= i < |counts| ==> low <= counts[i] <= high
    ensures |counts| * low <= Sum(counts) <= |counts| * high
  {
    if counts != [] {
      SumBounds(counts[1..], low, high);
      assert |counts| * low == (|counts| - 1) * low + low;
      assert |counts| * high == (|counts| - 1) * high + high;
    }
  }

  lemma {:induction false} SumUpper(counts: seq<int>, high: int)
    requires forall i :: 0 <= i < |counts| ==> counts[i] <= high
    ensures Sum(counts) <= |counts| * high
  {
    if counts != [] {
      SumUpper(counts[1..], high);
      assert |counts| * high == (|counts| - 1) * high + high;
    }
  }

  /** Each count is the number of live instances on its thread, and together they are all of them. */
  ghost predicate Counted(p: Pool) {
    && (forall t :: 0 <= t < |p.counts| ==> p.counts[t] == Occurrences(p.live, t))
    && Sum(p.counts) == |p.live|
  }

  lemma {:induction false} CountsConserved(n: nat, events: seq<Event>)
    requires n > 0
    ensures Counted(Run(n, events))
    decreases |events|
  {
    if events == [] {
      SumIdle(n);
    } else {
      var p := Run(n, events[..|events| - 1]);
      CountsConserved(n, events[..|events| - 1]);
      hide Counted, Chosen;
      if events[|events| - 1].Request? {
        RequestCounted(p);
      } else if events[|events| - 1].k < |p.live| {
        RemoveCounted(p, events[|events| - 1].k);
      }
    }
  }

  lemma RequestCounted(p: Pool)
    requires p.counts != [] && Counted(p)
    requires forall i :: 0 <= i < |p.live| ==> p.live[i] < |p.counts|
    ensures Counted(Apply(p, Request))
  {
    hide Chosen;
    var c := Chosen(p.counts);
    SumUpdate(p.counts, c, p.counts[c] + 1);
    forall t | 0 <= t < |p.counts|
      ensures Occurrences(p.live + [c], t) == Occurrences(p.live, t) + if t == c then 1 else 0
    {
      OccurrencesConcat(p.live, [c], t);
    }
  }

  lemma RemoveCounted(p: Pool, k: nat)
    requires p.counts != [] && Counted(p) && k < |p.live|
    requires forall i :: 0 <= i < |p.live| ==> p.live[i] < |p.counts|
    ensures Counted(Apply(p, Remove(k)))
  {
    var c := p.live[k];
    SumUpdate(p.counts, c, p.counts[c] - 1);
    forall t | 0 <= t < |p.counts|
      ensures Occurrences(p.live[..k] + p.live[k + 1..], t) == Occurrences(p.live, t) - if t == c then 1 else 0
    {
      assert p.live == p.live[..k] + ([c] + p.live[k + 1..]);
      OccurrencesConcat(p.live[..k], [c] + p.live[k + 1..], t);
      OccurrencesConcat([c], p.live[k + 1..], t);
      OccurrencesConcat(p.live[..k], p.live[k + 1..], t);
    }
  }

  // ------------------------------------------------------------- load bound

  lemma MulMonotone(n: nat, a: int, b: int)
    requires a <= b
    ensures n * a <= n * b
  {
    assert n * (b - a) >= 0;
  }

  lemma UniqueQuotient(x: nat, n: nat, q: nat, r: nat)
    requires n > 0 && x == n * q + r && r < n
    ensures x / n == q && x % n == r
  {
    var d := x / n;
    if d < q { MulMonotone(n, d + 1, q); }
    if q < d { MulMonotone(n, q + 1, d); }
  }

  /** Rounding up: the least whole number whose n-fold reaches p. */
  lemma CeilLeast(p: nat, n: nat, q: nat)
    requires n > 0
    ensures p <= n * q <==> CeilDiv(p, n) <= q
  {
    var c, x := CeilDiv(p, n), p + n - 1;
    assert n * c <= x < n * c + n;
    if c <= q { MulMonotone(n, c, q); }
    if c > q { MulMonotone(n, q + 1, c); }
  }

  lemma CeilMonotone(p: nat, q: nat, n: nat)
    requires n > 0 && p <= q
    ensures CeilDiv(p, n) <= CeilDiv(q, n)
  {
    CeilLeast(q, n, CeilDiv(q, n));
    CeilLeast(p, n, CeilDiv(q, n));
  }

  lemma RequestBounded(p: Pool, bound: nat, peak: nat)
    requires p.counts != [] && Counted(p) && peak > |p.live|
    requires forall t :: 0 <= t < |p.counts| ==> p.counts[t] <= bound
    requires bound <= CeilDiv(peak, |p.counts|)
    ensures p.counts[Chosen(p.counts)] + 1 <= CeilDiv(peak, |p.counts|)
  {
    var n, c, first := |p.counts|, Chosen(p.counts), p.counts[0];
    if 0 in p.counts {
      CeilLeast(peak, n, 0);
    } else {
      LastBelowMeans(p.counts, first);
      if p.counts[c] >= first {
        SumBounds(p.counts, first, bound);
        CeilLeast(peak, n, first);
      }
    }
  }

  lemma {:induction false} NeverAbove(n: nat, events: seq<Event>)
    requires n > 0
    ensures HighWater(n, events) <= CeilDiv(Peak(n, events), n)
    ensures forall t :: 0 <= t < n ==> Run(n, events).counts[t] <= CeilDiv(Peak(n, events), n)
    decreases |events|
  {
    if events != [] {
      var before := events[..|events| - 1];
      var p, peak := Run(n, before), Peak(n, events);
      NeverAbove(n, before);
      CountsConserved(n, before);
      CeilMonotone(Peak(n, before), peak, n);
      if events[|events| - 1].Request? {
        RequestBounded(p, CeilDiv(Peak(n, before), n), peak);
      }
    }
  }

  lemma {:induction false} NeverBelow(n: nat, events: seq<Event>)
    requires n > 0
    ensures HighWater(n, events) >= CeilDiv(Peak(n, events), n)
    ensures HighWater(n, events) >= 0
    decreases |events|
  {
    if events != [] {
      var before, p := events[..|events| - 1], Run(n, events);
      NeverBelow(n, before);
      if Peak(n, events) == |p.live| {
        CountsConserved(n, events);
        Pigeonhole(p.counts);
      }
    } else {
      CeilLeast(0, n, 0);
    }
  }

  /** However instances are spread, some thread has at least its share: no choice of threads
      has a lower peak than the one above. */
  lemma Pigeonhole(counts: seq<int>)
    requires counts != [] && Sum(counts) >= 0
    ensures MaxOf(counts) >= CeilDiv(Sum(counts), |counts|)
  {
    var m := MaxOf(counts);
    SumUpper(counts, m);
    if m < 0 { MulMonotone(|counts|, m, -1); }
    CeilLeast(Sum(counts), |counts|, m);
  }

  /** The busiest any thread ever gets is exactly the peak load divided by the pool, rounded up. */
  lemma PeakLoadExactly(n: nat, events: seq<Event>)
    requires n > 0
    ensures HighWater(n, events) == CeilDiv(Peak(n, events), n)
  {
    NeverAbove(n, events);
    NeverBelow(n, events);
  }

  // ---------------------------------------------------------- requests only

  /** The counts after q full rounds and r more requests. */
  function Spread(n: nat, q: nat, r: nat): (counts: seq<int>)
    ensures |counts| == n
  {
    seq(n, i => if q == 0 then (if i < r then 1 else 0)
                else q + if r > 0 && (i == 0 || i > n - r) then 1 else 0)
  }

  lemma SpreadNext(n: nat, q: nat, r: nat)
    requires r < n
    ensures var s := Spread(n, q, r);
      var c := Chosen(s);
      s[c := s[c] + 1] == if r + 1 < n then Spread(n, q, r + 1) else Spread(n, q + 1, 0)
  {
    var s := Spread(n, q, r);
    var c := if q == 0 then r else if r == 0 then 0 else n - r;
    if q == 0 {
      assert forall i :: 0 <= i < r ==> s[..r][i] == 1;
      FirstZeroUnique(s, r);
    } else {
      LastBelowMeans(s, s[0]);
    }
    assert Chosen(s) == c;
    var t := if r + 1 < n then Spread(n, q, r + 1) else Spread(n, q + 1, 0);
    assert forall i :: 0 <= i < n ==> s[c := s[c] + 1][i] == t[i];
  }

  function Requests(k: nat): (events: seq<Event>)
    ensures |events| == k
  {
    if k == 0 then [] else Requests(k - 1) + [Request]
  }

  /** The counts after k requests. */
  function After(n: nat, k: nat): (counts: seq<int>)
    requires n > 0
    ensures |counts| == n
  {
    Spread(n, k / n, k % n)
  }

  lemma AfterNext(n: nat, j: nat)
    requires n > 0
    ensures var s := After(n, j); s[Chosen(s) := s[Chosen(s)] + 1] == After(n, j + 1)
  {
    NextQuotient(j, n);
    hide Chosen, Spread;
    SpreadNext(n, j / n, j % n);
  }

  lemma {:induction false} RequestsOnly(n: nat, k: nat)
    requires n > 0
    ensures Run(n, Requests(k)).counts == After(n, k)
    decreases k
  {
    hide Chosen, After, Spread;
    if k == 0 {
      AfterNone(n);
    } else {
      var j, events := k - 1, Requests(k);
      RequestsOnly(n, j);
      assert events[..j] == Requests(j) && events[j] == Request;
      AfterNext(n, j);
    }
  }

  lemma AfterNone(n: nat)
    requires n > 0
    ensures Idle(n) == After(n, 0)
  {
    UniqueQuotient(0, n, 0, 0);
    assert Idle(n) == Spread(n, 0, 0);
  }

  lemma NextQuotient(j: nat, n: nat)
    requires n > 0
    ensures if j % n + 1 < n then (j + 1) / n == j / n && (j + 1) % n == j % n + 1
            else (j + 1) / n == j / n + 1 && (j + 1) % n == 0
  {
    var q, r := j / n, j % n;
    if r + 1 < n {
      UniqueQuotient(j + 1, n, q, r + 1);
    } else {
      UniqueQuotient(j + 1, n, q + 1, 0);
    }
  }

  /** While instances only arrive, the threads never differ by more than one. */
  lemma RequestsBalance(n: nat, k: nat, s: nat, t: nat)
    requires s < n && t < n
    ensures var counts := Run(n, Requests(k)).counts; counts[s] - counts[t] <= 1
  {
    RequestsOnly(n, k);
  }
}
