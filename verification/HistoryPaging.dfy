/**
 Paged history download. The server holds a fixed history and answers one page at a time; attempts
 may time out, be rate limited or be rejected. The loop refines a single query for the newest candles.
 */
module HistoryPaging {
  import opened Numeric
  import opened Trading

  ghost predicate Sorted(h: seq<Candle>) {
    forall i, j :: 0 <= i < j < |h| ==> h[i].epoch < h[j].epoch
  }

  // ---------- The server ----------

  /** How many candles lie at or before the end of the query; no end means all of them. */
  function UpTo(h: seq<Candle>, end: Option<int>): (n: nat)
    ensures n <= |h|
  {
    if h == [] then 0
    else if end.None? || h[|h| - 1].epoch <= end.value then |h|
    else UpTo(h[..|h| - 1], end)
  }

  /** The newest `count` candles at or before the end. */
  function Query(h: seq<Candle>, end: Option<int>, count: nat): seq<Candle> {
    LastN(h[..UpTo(h, end)], count)
  }

  /** The fate of one attempt. */
  datatype Answer = Timeout | RateLimited | Refused | Delivered

  type Network = (nat, nat) -> Answer

  datatype PageResult = PageTimeout | PageRefused | PageDelivered

  /** The fate of a page after its retries. */
  function PageFate(net: Network, page: nat, attempt: nat, maxRetries: nat): PageResult
    requires attempt <= maxRetries
    decreases maxRetries - attempt
  {
    match net(page, attempt)
    case Timeout => if attempt >= MinInt(maxRetries, 2) then PageTimeout else PageFate(net, page, attempt + 1, maxRetries)
    case RateLimited => if attempt < maxRetries then PageFate(net, page, attempt + 1, maxRetries) else PageRefused
    case Refused => PageRefused
    case Delivered => PageDelivered
  }

  datatype Fetched = Raised | Returned(candles: seq<Candle>)

  datatype Request = Request(goal: nat, chunk: nat, maxRetries: nat)

  /** The whole download seen from outside: only how many of the newest candles are in hand matters. */
  function Fetch(h: seq<Candle>, net: Network, r: Request, page: nat, have: nat): Fetched
    requires r.chunk >= 1 && have <= |h|
    decreases r.goal - have
  {
    if have >= r.goal then Returned(LastN(h, r.goal))
    else
      match PageFate(net, page, 0, r.maxRetries)
      case PageTimeout => Raised
      case PageRefused => Returned(LastN(h, have))
      case PageDelivered =>
        var got := MinInt(MinInt(r.chunk, r.goal - have), |h| - have);
        if got == 0 then Returned(LastN(h, have)) else Fetch(h, net, r, page + 1, have + got)
  }

  // ---------- What the download promises ----------

  predicate Clean(net: Network, page: nat, maxRetries: nat) {
    PageFate(net, page, 0, maxRetries) == PageDelivered
  }

  /** When every page arrives, the download is exactly the newest min(goal, size) candles. */
  lemma {:induction false} CleanFetchIsOneQuery(h: seq<Candle>, net: Network, r: Request, page: nat, have: nat)
    requires r.chunk >= 1 && have <= |h|
    requires forall k: nat :: k >= page ==> Clean(net, k, r.maxRetries)
    ensures Fetch(h, net, r, page, have) == Returned(Query(h, None, r.goal))
    decreases r.goal - have
  {
    WholeQuery(h, r.goal);
    if have >= r.goal {
      FetchEnough(h, net, r, page, have);
    } else {
      FetchStep(h, net, r, page, have);
      assert Clean(net, page, r.maxRetries);
      WholeHistory(h, have);
      WholeHistory(h, r.goal);
      hide Fetch, PageFate, LastN, Query;
      var got := MinInt(MinInt(r.chunk, r.goal - have), |h| - have);
      if got > 0 {
        CleanFetchIsOneQuery(h, net, r, page + 1, have + got);
      }
    }
  }

  lemma WholeQuery(h: seq<Candle>, count: nat)
    ensures Query(h, None, count) == LastN(h, count)
  {
    assert UpTo(h, None) == |h| && h[..|h|] == h;
    hide LastN;
  }

  lemma WholeHistory(h: seq<Candle>, n: nat)
    ensures n >= |h| ==> LastN(h, n) == h
  {
  }

  lemma FetchEnough(h: seq<Candle>, net: Network, r: Request, page: nat, have: nat)
    requires r.chunk >= 1 && have <= |h| && have >= r.goal
    ensures Fetch(h, net, r, page, have) == Returned(LastN(h, r.goal))
  {
    hide LastN;
  }

  /** Whatever happens, what is returned is the newest part of the history, never less than was in hand. */
  lemma {:induction false} FetchReturnsSuffix(h: seq<Candle>, net: Network, r: Request, page: nat, have: nat)
    requires r.chunk >= 1 && have <= |h|
    ensures match Fetch(h, net, r, page, have)
            case Returned(c) => c == LastN(h, |c|) && |c| <= r.goal && (have <= r.goal ==> |c| >= have)
            case Raised => true
    decreases r.goal - have
  {
    if have >= r.goal {
      LengthOfLast(h, r.goal);
    } else {
      FetchStep(h, net, r, page, have);
      LengthOfLast(h, have);
      hide Fetch, PageFate, LastN;
      var got := MinInt(MinInt(r.chunk, r.goal - have), |h| - have);
      if PageFate(net, page, 0, r.maxRetries) == PageDelivered && got > 0 {
        FetchReturnsSuffix(h, net, r, page + 1, have + got);
      }
    }
  }

  lemma LengthOfLast(h: seq<Candle>, n: nat)
    ensures |LastN(h, n)| <= n && (n <= |h| ==> |LastN(h, n)| == n) && LastN(h, n) == LastN(h, |LastN(h, n)|)
  {
  }

  /** Some page from this one on ends with the given fate. */
  ghost predicate SomePage(net: Network, page: nat, maxRetries: nat, fate: PageResult) {
    exists k: nat :: k >= page && PageFate(net, k, 0, maxRetries) == fate
  }

  lemma SomePageLater(net: Network, page: nat, maxRetries: nat, fate: PageResult)
    requires SomePage(net, page + 1, maxRetries, fate)
    ensures SomePage(net, page, maxRetries, fate)
  {
    hide PageFate;
  }

  /** Less than was asked for and is there comes back only after a refused page, and an error only after timeouts. */
  lemma {:induction false} ShortOnlyAfterFailure(h: seq<Candle>, net: Network, r: Request, page: nat, have: nat)
    requires r.chunk >= 1 && have <= |h|
    ensures match Fetch(h, net, r, page, have)
            case Returned(c) => |c| < MinInt(r.goal, |h|) ==> SomePage(net, page, r.maxRetries, PageRefused)
            case Raised => SomePage(net, page, r.maxRetries, PageTimeout)
    decreases r.goal - have
  {
    hide PageFate;
    if have < r.goal && PageFate(net, page, 0, r.maxRetries) == PageDelivered {
      var got := MinInt(MinInt(r.chunk, r.goal - have), |h| - have);
      if got > 0 {
        ShortOnlyAfterFailure(h, net, r, page + 1, have + got);
        hide SomePage;
        if SomePage(net, page + 1, r.maxRetries, PageRefused) { SomePageLater(net, page, r.maxRetries, PageRefused); }
        if SomePage(net, page + 1, r.maxRetries, PageTimeout) { SomePageLater(net, page, r.maxRetries, PageTimeout); }
      }
    }
  }

  /** Attempt a delivers, and every attempt before it failed in a way that is retried. */
  ghost predicate DeliveredAt(net: Network, page: nat, attempt: nat, maxRetries: nat, a: nat) {
    && attempt <= a <= maxRetries && net(page, a) == Delivered
    && forall b: nat :: attempt <= b < a ==>
         net(page, b) == RateLimited || (net(page, b) == Timeout && b < MinInt(maxRetries, 2))
  }

  predicate Retried(net: Network, page: nat, attempt: nat, maxRetries: nat) {
    || (net(page, attempt) == RateLimited && attempt < maxRetries)
    || (net(page, attempt) == Timeout && attempt < MinInt(maxRetries, 2))
  }

  lemma RetryStep(net: Network, page: nat, attempt: nat, maxRetries: nat, a: nat)
    requires attempt < maxRetries && net(page, attempt) != Delivered
    ensures DeliveredAt(net, page, attempt, maxRetries, a) <==>
            Retried(net, page, attempt, maxRetries) && DeliveredAt(net, page, attempt + 1, maxRetries, a)
  {
  }

  /** A page arrives exactly when some attempt delivers after nothing but retried failures. */
  lemma {:induction false} PageArrivesWhen(net: Network, page: nat, attempt: nat, maxRetries: nat)
    requires attempt <= maxRetries
    ensures PageFate(net, page, attempt, maxRetries) == PageDelivered <==>
            exists a: nat :: DeliveredAt(net, page, attempt, maxRetries, a)
    decreases maxRetries - attempt
  {
    if net(page, attempt) == Delivered {
      assert DeliveredAt(net, page, attempt, maxRetries, attempt);
    } else if attempt < maxRetries {
      PageArrivesWhen(net, page, attempt + 1, maxRetries);
      forall a: nat
        ensures DeliveredAt(net, page, attempt, maxRetries, a) <==>
                Retried(net, page, attempt, maxRetries) && DeliveredAt(net, page, attempt + 1, maxRetries, a)
      {
        RetryStep(net, page, attempt, maxRetries, a);
      }
      if Retried(net, page, attempt, maxRetries) {
        assert PageFate(net, page, attempt, maxRetries) == PageFate(net, page, attempt + 1, maxRetries);
        if PageFate(net, page, attempt, maxRetries) == PageDelivered {
          var a: nat :| DeliveredAt(net, page, attempt + 1, maxRetries, a);
          assert DeliveredAt(net, page, attempt, maxRetries, a);
        }
      } else {
        assert PageFate(net, page, attempt, maxRetries) != PageDelivered;
      }
    }
  }

  // ---------- Merging pages ----------

  /** One candle for each epoch; a later one overrides an earlier one. */
  function ByEpoch(s: seq<Candle>): map<int, Candle> {
    if s == [] then map[] else ByEpoch(s[..|s| - 1])[s[|s| - 1].epoch := s[|s| - 1]]
  }

  predicate Empty(m: map<int, Candle>) {
    forall e: int | e in m :: false
  }

  lemma {:induction false} LeastExists(m: map<int, Candle>)
    requires !Empty(m)
    ensures exists k: int :: k in m && forall j: int :: j in m ==> k <= j
    decreases |m|
  {
    var k: int :| k in m;
    var rest := m - {k};
    if Empty(rest) {
      assert forall j: int :: j in m && j != k ==> j in rest;
    } else {
      LeastExists(rest);
      var l: int :| l in rest && forall j: int :: j in rest ==> l <= j;
      var least := if k <= l then k else l;
      forall j: int | j in m ensures least <= j {
        assert j == k || j in rest;
      }
      assert least in m;
    }
  }

  function Least(m: map<int, Candle>): (k: int)
    requires !Empty(m)
    ensures k in m && forall j: int :: j in m ==> k <= j
  {
    LeastExists(m);
    var k: int :| k in m && forall j: int :: j in m ==> k <= j;
    k
  }

  /** The candles of a map in ascending order of epoch. */
  function InOrder(m: map<int, Candle>): (s: seq<Candle>)
    decreases |m|
  {
    if Empty(m) then []
    else
      var k := Least(m);
      [m[k]] + InOrder(m - {k})
  }

  lemma InOrderStep(m: map<int, Candle>)
    requires !Empty(m)
    ensures InOrder(m) == [m[Least(m)]] + InOrder(m - {Least(m)})
  {
    hide Least, Empty;
  }

  function MergePages(existing: seq<Candle>, batch: seq<Candle>): seq<Candle> {
    if batch == [] then existing
    else if existing == [] then batch
    else InOrder(ByEpoch(existing + batch))
  }

  method MergeCandlePages(existing: seq<Candle>, batch: seq<Candle>) returns (merged: seq<Candle>)
    ensures merged == MergePages(existing, batch)
  {
    if batch == [] {
      return existing;
    }
    if existing == [] {
      return batch;
    }
    var byEpoch := ByEpoch(existing);
    assert existing + batch[..0] == existing;
    for i := 0 to |batch|
      invariant byEpoch == ByEpoch(existing + batch[..i])
    {
      assert (existing + batch[..i + 1])[..|existing| + i] == existing + batch[..i];
      byEpoch := byEpoch[batch[i].epoch := batch[i]];
    }
    assert batch[..|batch|] == batch;
    merged := InOrder(byEpoch);
  }

  /** m maps the epoch of every candle of s to it, and nothing else. */
  ghost predicate Lists(m: map<int, Candle>, s: seq<Candle>) {
    && (forall i :: 0 <= i < |s| ==> s[i].epoch in m && m[s[i].epoch] == s[i])
    && (forall e :: e in m ==> exists i :: 0 <= i < |s| && s[i].epoch == e)
  }

  lemma ListsTail(m: map<int, Candle>, s: seq<Candle>)
    requires s != [] && Sorted(s) && Lists(m, s)
    ensures !Empty(m) && Sorted(s[1..]) && Lists(m - {s[0].epoch}, s[1..]) && Least(m) == s[0].epoch
  {
    FirstIsLeast(m, s);
    var k, t := s[0].epoch, s[1..];
    assert forall i :: 0 <= i < |t| ==> t[i] == s[i + 1];
    hide Least, Empty;
    forall e: int | e in m - {k} ensures exists i :: 0 <= i < |t| && t[i].epoch == e {
      var i :| 0 <= i < |s| && s[i].epoch == e;
      assert t[i - 1].epoch == e;
    }
  }

  lemma FirstIsLeast(m: map<int, Candle>, s: seq<Candle>)
    requires s != [] && Sorted(s) && Lists(m, s)
    ensures !Empty(m) && Least(m) == s[0].epoch
  {
    var k := s[0].epoch;
    assert k in m;
    forall e: int | e in m ensures k <= e {
      var i :| 0 <= i < |s| && s[i].epoch == e;
      assert i > 0 ==> s[0].epoch < s[i].epoch;
    }
    hide Lists, Sorted;
  }

  lemma FirstListed(m: map<int, Candle>, s: seq<Candle>)
    requires s != [] && Lists(m, s)
    ensures s[0].epoch in m && m[s[0].epoch] == s[0]
  {
  }

  /** A sorted sequence is the ordered listing of its own map. */
  lemma {:induction false} InOrderOfSorted(s: seq<Candle>, m: map<int, Candle>)
    requires Sorted(s) && Lists(m, s)
    ensures InOrder(m) == s
  {
    if s == [] {
      assert Empty(m);
    } else {
      ListsTail(m, s);
      FirstListed(m, s);
      InOrderStep(m);
      hide *;
      InOrderOfSorted(s[1..], m - {s[0].epoch});
      assert s == [s[0]] + s[1..];
    }
  }

  ghost predicate Distinct(s: seq<Candle>) {
    forall i, j :: 0 <= i < j < |s| ==> s[i].epoch != s[j].epoch
  }

  lemma ListsExtended(m: map<int, Candle>, s: seq<Candle>, c: Candle)
    requires Lists(m, s) && c.epoch !in m
    ensures Lists(m[c.epoch := c], s + [c])
  {
    var m', t := m[c.epoch := c], s + [c];
    assert t[|s|] == c && forall i :: 0 <= i < |s| ==> t[i] == s[i];
    forall e | e in m' ensures exists i :: 0 <= i < |t| && t[i].epoch == e {
      if e in m {
        var i :| 0 <= i < |s| && s[i].epoch == e;
        assert t[i].epoch == e;
      }
    }
  }

  lemma ListsFresh(m: map<int, Candle>, s: seq<Candle>, c: Candle)
    requires Lists(m, s) && Distinct(s + [c])
    ensures c.epoch !in m
  {
    forall e | e in m ensures e != c.epoch {
      var i :| 0 <= i < |s| && s[i].epoch == e;
      assert (s + [c])[i] == s[i] && (s + [c])[|s|] == c;
    }
  }

  lemma {:induction false} ByEpochOfDistinct(s: seq<Candle>)
    requires Distinct(s)
    ensures Lists(ByEpoch(s), s)
  {
    if s != [] {
      var t, c := s[..|s| - 1], s[|s| - 1];
      assert s == t + [c];
      assert Distinct(t);
      ByEpochOfDistinct(t);
      hide Distinct, Lists;
      ListsFresh(ByEpoch(t), t, c);
      ListsExtended(ByEpoch(t), t, c);
    }
  }

  lemma ListsSwapped(m: map<int, Candle>, a: seq<Candle>, b: seq<Candle>)
    requires Lists(m, a + b)
    ensures Lists(m, b + a)
  {
    var s, t := a + b, b + a;
    forall i | 0 <= i < |t| ensures t[i].epoch in m && m[t[i].epoch] == t[i] {
      assert t[i] == s[if i < |b| then |a| + i else i - |b|];
    }
    forall e | e in m ensures exists i :: 0 <= i < |t| && t[i].epoch == e {
      var i :| 0 <= i < |s| && s[i].epoch == e;
      assert t[if i < |a| then |b| + i else i - |a|] == s[i];
    }
  }

  lemma SortedRotated(a: seq<Candle>, b: seq<Candle>)
    requires Sorted(a + b)
    ensures Distinct(b + a)
  {
    var s, t := a + b, b + a;
    forall i, j | 0 <= i < j < |t| ensures t[i].epoch != t[j].epoch {
      var x := if i < |b| then |a| + i else i - |b|;
      var y := if j < |b| then |a| + j else j - |b|;
      assert t[i] == s[x] && t[j] == s[y] && x != y;
    }
  }

  /** Merging an older page in front of what is in hand just puts the two together. */
  lemma MergeOfAdjacent(batch: seq<Candle>, existing: seq<Candle>)
    requires Sorted(batch + existing)
    ensures MergePages(existing, batch) == batch + existing
  {
    hide Sorted, Distinct, Lists, ByEpoch, InOrder;
    if batch != [] && existing != [] {
      SortedRotated(batch, existing);
      ByEpochOfDistinct(existing + batch);
      ListsSwapped(ByEpoch(existing + batch), existing, batch);
      InOrderOfSorted(batch + existing, ByEpoch(existing + batch));
    }
  }

  /** Candle i of s is the last one with its epoch. */
  ghost predicate LastOfEpoch(s: seq<Candle>, i: nat) {
    i < |s| && forall j :: i < j < |s| ==> s[j].epoch != s[i].epoch
  }

  /** m holds the last candle of every epoch that occurs in s, and nothing else. */
  ghost predicate HoldsLast(m: map<int, Candle>, s: seq<Candle>) {
    && (forall i: nat :: LastOfEpoch(s, i) ==> s[i].epoch in m && m[s[i].epoch] == s[i])
    && (forall e: int :: e in m ==> exists i: nat :: LastOfEpoch(s, i) && s[i].epoch == e)
  }

  lemma HoldsLastStep(m: map<int, Candle>, s: seq<Candle>, c: Candle)
    requires HoldsLast(m, s)
    ensures HoldsLast(m[c.epoch := c], s + [c])
  {
    var m', t := m[c.epoch := c], s + [c];
    forall i: nat | LastOfEpoch(t, i) ensures t[i].epoch in m' && m'[t[i].epoch] == t[i] {
      if i < |s| {
        assert LastOfEpoch(s, i) by {
          assert forall j :: i < j < |s| ==> s[j] == t[j];
        }
        assert t[|s|] == c;
      }
    }
    forall e: int | e in m' ensures exists i: nat :: LastOfEpoch(t, i) && t[i].epoch == e {
      if e == c.epoch {
        assert LastOfEpoch(t, |s|);
      } else {
        var i: nat :| LastOfEpoch(s, i) && s[i].epoch == e;
        assert LastOfEpoch(t, i);
      }
    }
  }

  lemma {:induction false} ByEpochHoldsLast(s: seq<Candle>)
    ensures HoldsLast(ByEpoch(s), s)
  {
    if s != [] {
      var t, c := s[..|s| - 1], s[|s| - 1];
      ByEpochHoldsLast(t);
      HoldsLastStep(ByEpoch(t), t, c);
      assert s == t + [c];
    }
  }

  lemma SortedCons(m: map<int, Candle>, rest: seq<Candle>)
    requires !Empty(m) && m[Least(m)].epoch == Least(m) && Sorted(rest) && Lists(m - {Least(m)}, rest)
    ensures Sorted([m[Least(m)]] + rest)
  {
    var k := Least(m);
    assert forall i :: 0 <= i < |rest| ==> rest[i].epoch in m - {k};
  }

  lemma ListsCons(m: map<int, Candle>, k: int, rest: seq<Candle>)
    requires k in m && m[k].epoch == k && Lists(m - {k}, rest)
    ensures Lists(m, [m[k]] + rest)
  {
    var all := [m[k]] + rest;
    forall i | 0 <= i < |all| ensures all[i].epoch in m && m[all[i].epoch] == all[i] {
      assert i > 0 ==> all[i] == rest[i - 1];
    }
    forall e: int | e in m ensures exists i :: 0 <= i < |all| && all[i].epoch == e {
      if e == k {
        assert all[0].epoch == e;
      } else {
        assert e in m - {k};
        var i :| 0 <= i < |rest| && rest[i].epoch == e;
        assert all[i + 1].epoch == e;
      }
    }
  }

  lemma {:induction false} InOrderIsSorted(m: map<int, Candle>)
    requires forall e: int :: e in m ==> m[e].epoch == e
    ensures Sorted(InOrder(m)) && Lists(m, InOrder(m))
    decreases |m|
  {
    if !Empty(m) {
      var k := Least(m);
      InOrderStep(m);
      hide *;
      InOrderIsSorted(m - {k});
      SortedCons(m, InOrder(m - {k}));
      ListsCons(m, k, InOrder(m - {k}));
    }
  }

  /** A merge of any two pages is sorted, without duplicates, and holds the last candle of every epoch. */
  lemma MergeIsSortedUnion(existing: seq<Candle>, batch: seq<Candle>)
    requires existing != [] && batch != []
    ensures Sorted(MergePages(existing, batch))
    ensures forall c :: c in MergePages(existing, batch) <==>
                        exists i: nat :: LastOfEpoch(existing + batch, i) && (existing + batch)[i] == c
  {
    var s := existing + batch;
    var m := ByEpoch(s);
    ByEpochHoldsLast(s);
    InOrderIsSorted(m);
    var out := InOrder(m);
    forall c | c in out ensures exists i: nat :: LastOfEpoch(s, i) && s[i] == c {
      assert c.epoch in m;
      var i: nat :| LastOfEpoch(s, i) && s[i].epoch == c.epoch;
    }
    forall i: nat | LastOfEpoch(s, i) ensures s[i] in out {
      var j :| 0 <= j < |out| && out[j].epoch == s[i].epoch;
    }
  }

  /** Asking for what precedes candle j yields the candles just before it. */
  lemma {:induction false} QueryBefore(h: seq<Candle>, j: nat, count: nat)
    requires Sorted(h) && j < |h|
    ensures Query(h, Some(h[j].epoch - 1), count) == h[j - MinInt(count, j)..j]
    decreases |h|
  {
    UpToBefore(h, j);
    assert h[..j][j - MinInt(count, j)..] == h[j - MinInt(count, j)..j];
  }

  lemma {:induction false} UpToBefore(h: seq<Candle>, j: nat)
    requires Sorted(h) && j < |h|
    ensures UpTo(h, Some(h[j].epoch - 1)) == j
    decreases |h|
  {
    var n := |h| - 1;
    if j < n {
      assert h[..n][j] == h[j];
      UpToBefore(h[..n], j);
    } else {
      UpToBelow(h[..n], h[j].epoch - 1);
    }
  }

  lemma UpToBelow(h: seq<Candle>, end: int)
    requires forall i :: 0 <= i < |h| ==> h[i].epoch <= end
    ensures UpTo(h, Some(end)) == |h|
  {
  }

  // ---------- The operation ----------

  /** Retries one page; the attempts and their fates are those of the specification. */
  method RequestPage(h: seq<Candle>, net: Network, page: nat, end: Option<int>, count: nat, maxRetries: nat)
    returns (fate: PageResult, batch: seq<Candle>)
    ensures fate == PageFate(net, page, 0, maxRetries)
    ensures fate == PageDelivered ==> batch == Query(h, end, count)
  {
    var attempt: nat := 0;
    batch := [];
    while true
      invariant attempt <= maxRetries
      invariant PageFate(net, page, attempt, maxRetries) == PageFate(net, page, 0, maxRetries)
      decreases maxRetries - attempt
    {
      match net(page, attempt) {
        case Timeout =>
          if attempt >= MinInt(maxRetries, 2) {
            return PageTimeout, [];
          }
        case Delivered =>
          return PageDelivered, Query(h, end, count);
        case RateLimited =>
          if attempt >= maxRetries {
            return PageRefused, [];
          }
        case Refused =>
          return PageRefused, [];
      }
      attempt := attempt + 1;
    }
  }

  /** What one page adds to the part of the history in hand. */
  lemma {:induction false} PageBatch(h: seq<Candle>, have: nat, end: Option<int>, need: nat)
    requires Sorted(h) && have <= |h|
    requires end == Before(LastN(h, have))
    ensures var got := MinInt(need, |h| - have); var batch := Query(h, end, need);
            && |batch| == got && MergePages(LastN(h, have), batch) == LastN(h, have + got)
            && (got > 0 ==> LastN(h, have + got) != [] && batch[0] == LastN(h, have + got)[0])
  {
    var j := |h| - have;
    var got := MinInt(need, j);
    FirstOfPage(h, have, end, need);
    NewestPart(h, have);
    NewestPart(h, have + got);
    hide Query, MergePages, LastN, Before;
    assert h[j - got..j] + h[j..] == h[j - got..];
    SortedPart(h, j - got);
    MergeOfAdjacent(h[j - got..j], h[j..]);
  }

  lemma NewestPart(h: seq<Candle>, n: nat)
    requires n <= |h|
    ensures LastN(h, n) == h[|h| - n..]
  {
  }

  lemma SortedPart(h: seq<Candle>, i: nat)
    requires Sorted(h) && i <= |h|
    ensures Sorted(h[i..])
  {
  }

  lemma FirstOfPage(h: seq<Candle>, have: nat, end: Option<int>, need: nat)
    requires Sorted(h) && have <= |h| && end == Before(LastN(h, have))
    ensures var j := |h| - have; Query(h, end, need) == h[j - MinInt(need, j)..j]
  {
    var j := |h| - have;
    assert LastN(h, have) == h[j..];
    if have > 0 {
      QueryBefore(h, j, need);
    } else {
      assert h[..|h|] == h;
    }
  }

  /** Where the next page ends: just before the oldest candle in hand. */
  function Before(merged: seq<Candle>): Option<int> {
    if merged == [] then None else Some(merged[0].epoch - 1)
  }

  lemma FetchStep(h: seq<Candle>, net: Network, r: Request, page: nat, have: nat)
    requires r.chunk >= 1 && have <= |h| && have < r.goal
    ensures var got := MinInt(MinInt(r.chunk, r.goal - have), |h| - have);
            Fetch(h, net, r, page, have) ==
            match PageFate(net, page, 0, r.maxRetries)
            case PageTimeout => Raised
            case PageRefused => Returned(LastN(h, have))
            case PageDelivered => if got == 0 then Returned(LastN(h, have)) else Fetch(h, net, r, page + 1, have + got)
  {
    hide PageFate, LastN;
  }

  /** The paged loop, started from nothing or from a suffix of the history that is already in hand. */
  method FetchPaginated(h: seq<Candle>, net: Network, target: int, chunk: nat, maxRetries: nat, existing: seq<Candle>)
    returns (result: Fetched)
    requires Sorted(h) && chunk >= 1 && |existing| <= |h| && existing == LastN(h, |existing|)
    ensures result == Fetch(h, net, Request(MaxInt(1, target), chunk, maxRetries), 0, |existing|)
  {
    var merged, goal := existing, MaxInt(1, target);
    if |merged| >= goal {
      return Returned(merged[|merged| - goal..]);
    }
    result := FetchOlder(h, net, Request(goal, chunk, maxRetries), existing);
  }

  method FetchOlder(h: seq<Candle>, net: Network, r: Request, existing: seq<Candle>) returns (result: Fetched)
    requires Sorted(h) && r.chunk >= 1 && |existing| <= |h| && existing == LastN(h, |existing|) && |existing| < r.goal
    ensures result == Fetch(h, net, r, 0, |existing|)
  {
    hide MergePages, PageFate, Query, LastN, Sorted, Fetch;
    var merged := existing;
    var end := Before(merged);
    var page: nat := 0;
    while |merged| < r.goal
      invariant |merged| <= |h| && merged == LastN(h, |merged|) && |merged| <= r.goal
      invariant end == Before(merged)
      invariant Fetch(h, net, r, page, |merged|) == Fetch(h, net, r, 0, |existing|)
      decreases r.goal - |merged|
    {
      var need := MinInt(r.chunk, r.goal - |merged|);
      FetchStep(h, net, r, page, |merged|);
      var fate, batch := RequestPage(h, net, page, end, need, r.maxRetries);
      if fate == PageTimeout {
        return Raised;
      }
      if fate == PageRefused {
        return Returned(merged);
      }
      PageBatch(h, |merged|, end, need);
      if batch == [] {
        break;
      }
      var beforeMerge := |merged|;
      merged := MergeCandlePages(merged, batch);
      LastLength(h, beforeMerge + |batch|);
      if |merged| <= beforeMerge {
        break;
      }
      end := Some(batch[0].epoch - 1);
      page := page + 1;
    }
    if |merged| >= r.goal {
      FetchDone(h, net, r, page);
    }
    result := Returned(merged);
  }

  lemma LastLength(h: seq<Candle>, n: nat)
    requires n <= |h|
    ensures |LastN(h, n)| == n
  {
  }

  lemma FetchDone(h: seq<Candle>, net: Network, r: Request, page: nat)
    requires r.chunk >= 1 && r.goal <= |h|
    ensures Fetch(h, net, r, page, r.goal) == Returned(LastN(h, r.goal))
  {
  }

  /** The paged download from any suffix in hand equals one query for the newest candles. */
  lemma ResumedFetchIsOneQuery(h: seq<Candle>, net: Network, target: int, chunk: nat, maxRetries: nat, have: nat)
    requires chunk >= 1 && have <= |h| && forall k: nat :: Clean(net, k, maxRetries)
    ensures Fetch(h, net, Request(MaxInt(1, target), chunk, maxRetries), 0, have) == Returned(Query(h, None, MaxInt(1, target)))
  {
    CleanFetchIsOneQuery(h, net, Request(MaxInt(1, target), chunk, maxRetries), 0, have);
  }
}
