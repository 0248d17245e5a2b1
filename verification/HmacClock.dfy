/** The gate's trusted clock, read off the dates of the responses it received, and the paged task listing
    whose responses feed it. */
module HmacClock {
  import opened Optional

  /** A server date in whole seconds and the local monotonic time at which it arrived. */
  datatype Observation = Observation(server: nat, received: real)

  const MAX_SPREAD: real := 10.0
  const MAX_SKEW: real := 60.0

  datatype Reading = Unavailable | Disagreement | ManifestStale | Now(now: int)

  function Offset(o: Observation): real {
    o.server as real - o.received
  }

  function MaxOffset(os: seq<Observation>): (r: real)
    requires os != []
    ensures forall i :: 0 <= i < |os| ==> Offset(os[i]) <= r
    ensures exists i :: 0 <= i < |os| && Offset(os[i]) == r
  {
    var first := Offset(os[0]);
    if |os| == 1 then first
    else
      var rest := MaxOffset(os[1..]);
      assert forall i :: 0 < i < |os| ==> os[i] == os[1..][i - 1];
      if first >= rest then first else rest
  }

  function MinOffset(os: seq<Observation>): (r: real)
    requires os != []
    ensures forall i :: 0 <= i < |os| ==> r <= Offset(os[i])
    ensures exists i :: 0 <= i < |os| && Offset(os[i]) == r
  {
    var first := Offset(os[0]);
    if |os| == 1 then first
    else
      var rest := MinOffset(os[1..]);
      assert forall i :: 0 < i < |os| ==> os[i] == os[1..][i - 1];
      if first <= rest then first else rest
  }

  /** Conversion to an integer drops the fraction, towards zero. */
  function Truncated(x: real): int {
    if x >= 0.0 then x.Floor else -((-x).Floor)
  }

  function Distance(a: real, b: real): real {
    if a >= b then a - b else b - a
  }

  function ReadingAt(os: seq<Observation>, manifestNow: Option<int>, started: real, monotonic: real): Reading {
    if os == [] then Unavailable
    else if MaxOffset(os) - MinOffset(os) > MAX_SPREAD then Disagreement
    else
      var now := Truncated(MaxOffset(os) + monotonic);
      if manifestNow.None? || Distance(manifestNow.value as real + (monotonic - started), now as real) > MAX_SKEW then ManifestStale
      else Now(now)
  }

  class TrustedClock {
    var observed: seq<Observation>
    const started: real
    const manifestNow: Option<int>

    constructor (started: real, manifestNow: Option<int>)
      ensures observed == [] && this.started == started && this.manifestNow == manifestNow
    {
      this.observed := [];
      this.started := started;
      this.manifestNow := manifestNow;
    }

    method Observe(server: nat, received: real)
      modifies this
      ensures observed == old(observed) + [Observation(server, received)]
    {
      observed := observed + [Observation(server, received)];
    }

    method Read(monotonic: real) returns (r: Reading)
      ensures r == ReadingAt(observed, manifestNow, started, monotonic)
    {
      r := ReadingAt(observed, manifestNow, started, monotonic);
    }
  }

  predicate Agree(os: seq<Observation>) {
    forall i, j :: 0 <= i < |os| && 0 <= j < |os| ==> Offset(os[i]) - Offset(os[j]) <= MAX_SPREAD
  }

  /** The latest of the times that the observations give. */
  predicate Latest(os: seq<Observation>, monotonic: real, now: int) {
    && (exists i :: 0 <= i < |os| && now == Truncated(Offset(os[i]) + monotonic))
    && (forall i :: 0 <= i < |os| ==> Truncated(Offset(os[i]) + monotonic) <= now)
  }

  lemma AgreeIff(os: seq<Observation>)
    requires os != []
    ensures MaxOffset(os) - MinOffset(os) <= MAX_SPREAD <==> Agree(os)
  {
    var a :| 0 <= a < |os| && Offset(os[a]) == MaxOffset(os);
    var b :| 0 <= b < |os| && Offset(os[b]) == MinOffset(os);
    assert Offset(os[a]) - Offset(os[b]) == MaxOffset(os) - MinOffset(os);
  }

  lemma LatestIff(os: seq<Observation>, monotonic: real, now: int)
    requires os != []
    ensures Latest(os, monotonic, now) <==> now == Truncated(MaxOffset(os) + monotonic)
  {
    var hi := MaxOffset(os);
    var a :| 0 <= a < |os| && Offset(os[a]) == hi;
    forall i | 0 <= i < |os| ensures Truncated(Offset(os[i]) + monotonic) <= Truncated(hi + monotonic) {
      TruncatedMonotone(Offset(os[i]) + monotonic, hi + monotonic);
    }
  }

  /** A time is read exactly when something was observed, all dates agree within ten seconds once the local
      clock is taken out, and the manifest's own time, projected, is within a minute of it. */
  lemma ReadingIff(os: seq<Observation>, manifestNow: Option<int>, started: real, monotonic: real, now: int)
    ensures ReadingAt(os, manifestNow, started, monotonic) == Now(now) <==>
      && os != [] && manifestNow.Some? && Agree(os) && Latest(os, monotonic, now)
      && Distance(manifestNow.value as real + (monotonic - started), now as real) <= MAX_SKEW
  {
    if os != [] {
      AgreeIff(os);
      LatestIff(os, monotonic, now);
    }
  }

  lemma TruncatedMonotone(a: real, b: real)
    requires a <= b
    ensures Truncated(a) <= Truncated(b)
  {
  }

  /** More observations and a later local clock never turn the reading back. */
  lemma NeverBack(os: seq<Observation>, more: seq<Observation>, manifestNow: Option<int>, started: real, t: real, u: real)
    requires os <= more && t <= u
    requires ReadingAt(os, manifestNow, started, t).Now? && ReadingAt(more, manifestNow, started, u).Now?
    ensures ReadingAt(os, manifestNow, started, t).now <= ReadingAt(more, manifestNow, started, u).now
  {
    var a :| 0 <= a < |os| && Offset(os[a]) == MaxOffset(os);
    assert more[a] == os[a];
    TruncatedMonotone(MaxOffset(os) + t, MaxOffset(more) + u);
  }

  /** A response is dated by a server clock that stands at origin + t at local time t, some time between
      sending the request, at most `lag` before its arrival, and its arrival. */
  predicate Dated(o: Observation, origin: real, stamped: real, lag: real) {
    o.received - lag <= stamped <= o.received && o.server == (origin + stamped).Floor
  }

  predicate AllDated(os: seq<Observation>, origin: real, stamps: seq<real>, lag: real) {
    |stamps| == |os| && forall i :: 0 <= i < |os| ==> Dated(os[i], origin, stamps[i], lag)
  }

  /** The reading is never ahead of the server clock, so no deadline is seen before it is reached, and it is
      behind by less than the longest response time plus two seconds. */
  lemma NeverAhead(os: seq<Observation>, stamps: seq<real>, origin: real, lag: real,
                   manifestNow: Option<int>, started: real, monotonic: real)
    requires AllDated(os, origin, stamps, lag)
    requires forall i :: 0 <= i < |os| ==> os[i].received <= monotonic
    requires ReadingAt(os, manifestNow, started, monotonic).Now?
    ensures var now := ReadingAt(os, manifestNow, started, monotonic).now as real;
            now <= origin + monotonic && origin + monotonic < now + lag + 2.0
  {
    var a :| 0 <= a < |os| && Offset(os[a]) == MaxOffset(os);
    assert Dated(os[a], origin, stamps[a], lag);
    assert MaxOffset(os) + monotonic >= os[a].server as real >= 0.0;
  }

  // ---------------------------------------------------------------- paged listings

  const INVENTORY_LIMIT := 10_000

  datatype Reply = Malformed | Page(arns: seq<string>, next: Option<string>)

  datatype Listing = Listed(arns: seq<string>) | Incomplete | Waiting

  predicate PageOk(p: Reply) {
    p.Page? && (forall i :: 0 <= i < |p.arns| ==> p.arns[i] != "") && p.next != Some("")
  }

  function Together(replies: seq<Reply>): seq<string> {
    if replies == [] then []
    else Together(replies[..|replies| - 1]) + (if replies[|replies| - 1].Page? then replies[|replies| - 1].arns else [])
  }

  predicate Distinct(s: seq<string>) {
    forall i, j :: 0 <= i < j < |s| ==> s[i] != s[j]
  }

  /** The first n replies each continue with a token of their own. */
  predicate Continues(replies: seq<Reply>, n: nat) {
    && n <= |replies|
    && (forall i :: 0 <= i < n ==> PageOk(replies[i]) && replies[i].next.Some?)
    && (forall i, j :: 0 <= i < j < n ==> replies[i].next != replies[j].next)
  }

  /** The listing ends with reply n: nothing repeats, neither a task nor a token, and the limit is kept. */
  predicate Complete(replies: seq<Reply>, n: nat) {
    && n < |replies| && Continues(replies, n)
    && PageOk(replies[n]) && replies[n].next.None?
    && Distinct(Together(replies[..n + 1])) && |Together(replies[..n + 1])| <= INVENTORY_LIMIT
  }

  lemma {:induction false} TogetherGrows(replies: seq<Reply>, m: nat, n: nat)
    requires m <= n <= |replies|
    ensures Together(replies[..m]) <= Together(replies[..n])
    decreases n
  {
    if m < n {
      TogetherGrows(replies, m, n - 1);
      assert replies[..n][..n - 1] == replies[..n - 1];
    }
  }

  /** A listing that went wrong at reply k cannot be complete at any reply. */
  lemma NotComplete(replies: seq<Reply>, k: nat, n: nat)
    requires k < |replies| && Continues(replies, k)
    requires || !PageOk(replies[k])
             || !Distinct(Together(replies[..k + 1])) || |Together(replies[..k + 1])| > INVENTORY_LIMIT
             || (replies[k].next.Some? && exists i :: 0 <= i < k && replies[i].next == replies[k].next)
    ensures !Complete(replies, n)
  {
    if k <= n < |replies| {
      TogetherGrows(replies, k + 1, n + 1);
      PrefixDistinct(Together(replies[..k + 1]), Together(replies[..n + 1]));
    }
  }

  lemma PrefixDistinct(some: seq<string>, all: seq<string>)
    requires some <= all
    ensures Distinct(all) ==> Distinct(some)
  {
    assert forall i :: 0 <= i < |some| ==> some[i] == all[i];
  }

  /** The listing is returned exactly when some reply completes it, and then it is all the pages, in order. */
  method ListedTaskArns(replies: seq<Reply>) returns (r: Listing)
    ensures r.Listed? <==> exists n: nat :: Complete(replies, n)
    ensures r.Listed? ==> exists n: nat :: Complete(replies, n) && r.arns == Together(replies[..n + 1])
    ensures r.Waiting? <==> Continues(replies, |replies|) && Distinct(Together(replies)) && |Together(replies)| <= INVENTORY_LIMIT
  {
    var arns: seq<string> := [];
    var seen: set<string> := {};
    for k := 0 to |replies|
      invariant Continues(replies, k)
      invariant arns == Together(replies[..k]) && Distinct(arns) && |arns| <= INVENTORY_LIMIT
      invariant forall x :: x in seen <==> exists i :: 0 <= i < k && replies[i].next == Some(x)
    {
      var page := replies[k];
      ghost var soFar := Together(replies[..k + 1]);
      assert replies[..k + 1][..k] == replies[..k];
      if !PageOk(page) {
        Refuse(replies, k);
        return Incomplete;
      }
      arns := arns + page.arns;
      if |arns| > INVENTORY_LIMIT || !Distinct(arns) {
        Refuse(replies, k);
        return Incomplete;
      }
      if page.next.None? {
        assert Complete(replies, k);
        assert !Continues(replies, |replies|);
        return Listed(arns);
      }
      if page.next.value in seen {
        Refuse(replies, k);
        return Incomplete;
      }
      seen := seen + {page.next.value};
    }
    assert replies[..|replies|] == replies;
    assert forall n: nat :: n < |replies| ==> replies[n].next.Some?;
    r := Waiting;
  }

  lemma Refuse(replies: seq<Reply>, k: nat)
    requires k < |replies| && Continues(replies, k)
    requires || !PageOk(replies[k])
             || !Distinct(Together(replies[..k + 1])) || |Together(replies[..k + 1])| > INVENTORY_LIMIT
             || (replies[k].next.Some? && exists i :: 0 <= i < k && replies[i].next == replies[k].next)
    ensures forall n: nat :: !Complete(replies, n)
    ensures !(Continues(replies, |replies|) && Distinct(Together(replies)) && |Together(replies)| <= INVENTORY_LIMIT)
  {
    forall n: nat ensures !Complete(replies, n) {
      NotComplete(replies, k, n);
    }
    TogetherGrows(replies, k + 1, |replies|);
    assert replies[..|replies|] == replies;
    PrefixDistinct(Together(replies[..k + 1]), Together(replies));
  }
}
