/** The time-weighted adapter: the median of the fresh, positive observations of a window. */
module Twap {
  import opened Base
  import opened Sorting

  const MIN_TWAP_WINDOW_SECS: nat := 60

  datatype Observation = Observation(price: int, timestamp: nat)

  datatype OracleConfig = OracleConfig(hasOracle: bool, windowSecs: nat, maxAgeSeconds: nat)

  predicate Usable(o: Observation, now: nat, maxAge: nat) {
    SaturatingSub(now, o.timestamp) <= maxAge && o.price > 0
  }

  function UsablePrices(obs: seq<Observation>, now: nat, maxAge: nat): (prices: seq<int>)
    ensures |prices| <= |obs| && forall i :: 0 <= i < |prices| ==> prices[i] > 0
  {
    if obs == [] then []
    else
      var last := obs[|obs| - 1];
      UsablePrices(obs[..|obs| - 1], now, maxAge) + (if Usable(last, now, maxAge) then [last.price] else [])
  }

  /** The average of two u128 values without forming their sum. */
  function Average(lo: nat, hi: nat): nat { lo / 2 + hi / 2 + (lo % 2 + hi % 2) / 2 }

  /** It is exactly the floor of the average, and no intermediate value leaves u128. */
  lemma AverageIsFloor(lo: nat, hi: nat)
    requires lo <= U128_MAX && hi <= U128_MAX
    ensures Average(lo, hi) == (lo + hi) / 2
    ensures lo / 2 + hi / 2 <= U128_MAX && Average(lo, hi) <= U128_MAX
  {}

  function MedianOf(prices: seq<int>): int
    requires prices != [] && forall i :: 0 <= i < |prices| ==> prices[i] > 0
  {
    SortSorts(prices);
    SameLength(Sort(prices), prices);
    var sorted := Sort(prices);
    var mid := |sorted| / 2;
    if |sorted| % 2 == 0 then
      StayPositive(prices, mid - 1);
      StayPositive(prices, mid);
      Average(sorted[mid - 1], sorted[mid])
    else sorted[mid]
  }

  lemma StayPositive(prices: seq<int>, k: nat)
    requires SortedOf(Sort(prices), prices) && k < |Sort(prices)| && forall i :: 0 <= i < |prices| ==> prices[i] > 0
    ensures Sort(prices)[k] > 0
  {
    assert Sort(prices)[k] in multiset(Sort(prices));
    assert Sort(prices)[k] in prices;
  }

  function Quote(cfg: OracleConfig, obs: seq<Observation>, now: nat): Result<int> {
    if cfg.windowSecs < MIN_TWAP_WINDOW_SECS then Err(InvalidInput)
    else if !cfg.hasOracle then Err(OracleNotConfigured)
    else if obs == [] then Err(OraclePriceUnavailable)
    else
      var prices := UsablePrices(obs, now, cfg.maxAgeSeconds);
      if prices == [] then Err(OraclePriceStale)
      else if MedianOf(prices) == 0 then Err(OraclePriceInvalid)
      else Ok(MedianOf(prices))
  }

  /** If more than half of the usable prices lie in a range, so does the median. */
  lemma MedianIsRobust(prices: seq<int>, lo: int, hi: int)
    requires prices != [] && forall i :: 0 <= i < |prices| ==> prices[i] > 0
    requires 2 * CountIn(prices, lo, hi) > |prices|
    ensures lo <= MedianOf(prices) <= hi
  {
    hide Sort, CountIn, Average;
    SortSorts(prices);
    SameLength(Sort(prices), prices);
    CountPermutes(Sort(prices), prices, lo, hi);
    var sorted, mid := Sort(prices), |prices| / 2;
    PositionInRange(sorted, mid, lo, hi);
    if |prices| % 2 == 0 {
      PositionInRange(sorted, mid - 1, lo, hi);
      StayPositive(prices, mid - 1);
      StayPositive(prices, mid);
      assert lo <= sorted[mid - 1] <= hi && lo <= sorted[mid] <= hi;
      AverageBetween(sorted[mid - 1], sorted[mid], lo, hi);
    }
  }

  /** The median is the middle of the prices in order, or the average of the two in the middle,
      rounded down. */
  lemma MedianIsMiddle(prices: seq<int>, ordered: seq<int>)
    requires prices != [] && (forall i :: 0 <= i < |prices| ==> prices[i] > 0) && SortedOf(ordered, prices)
    ensures |ordered| == |prices|
    ensures MedianOf(prices) == (ordered[(|prices| - 1) / 2] + ordered[|prices| / 2]) / 2
  {
    hide Sort;
    SortSorts(prices);
    SortedIsUnique(Sort(prices), ordered);
    SameLength(ordered, prices);
  }

  lemma AverageBetween(a: nat, b: nat, lo: int, hi: int)
    requires lo <= a <= hi && lo <= b <= hi
    ensures lo <= Average(a, b) <= hi
  {}

  /** So a quote exists for every window with a usable observation, and a majority decides it. */
  lemma QuoteIsRobust(cfg: OracleConfig, obs: seq<Observation>, now: nat, lo: int, hi: int)
    requires cfg.hasOracle && cfg.windowSecs >= MIN_TWAP_WINDOW_SECS
    requires 2 * CountIn(UsablePrices(obs, now, cfg.maxAgeSeconds), lo, hi) > |UsablePrices(obs, now, cfg.maxAgeSeconds)|
    ensures var q := Quote(cfg, obs, now); q.Ok? && lo <= q.value <= hi && q.value > 0
  {
    var prices := UsablePrices(obs, now, cfg.maxAgeSeconds);
    if prices != [] {
      MedianIsRobust(prices, lo, hi);
      AllAtLeastOne(prices);
      MedianIsRobust(prices, 1, MaxOf(prices));
    }
  }

  /** The observations that are positive, fresh, and in a range. */
  function UsableIn(obs: seq<Observation>, now: nat, maxAge: nat, lo: int, hi: int): set<int> {
    set i | 0 <= i < |obs| && obs[i].price > 0 && now <= obs[i].timestamp + maxAge && lo <= obs[i].price <= hi
  }

  lemma OneMoreUsable(obs: seq<Observation>, now: nat, maxAge: nat, lo: int, hi: int)
    requires obs != []
    ensures var init, last := UsablePrices(obs[..|obs| - 1], now, maxAge), obs[|obs| - 1];
            var counts := last.price > 0 && now <= last.timestamp + maxAge;
            && |UsablePrices(obs, now, maxAge)| == |init| + (if counts then 1 else 0)
            && CountIn(UsablePrices(obs, now, maxAge), lo, hi) == CountIn(init, lo, hi) + (if counts && lo <= last.price <= hi then 1 else 0)
  {
    var init, last := UsablePrices(obs[..|obs| - 1], now, maxAge), obs[|obs| - 1];
    if Usable(last, now, maxAge) {
      assert (init + [last.price])[..|init|] == init;
    } else {
      assert init + [] == init;
    }
  }

  lemma {:induction false} UsableCounted(obs: seq<Observation>, now: nat, maxAge: nat, lo: int, hi: int)
    ensures CountIn(UsablePrices(obs, now, maxAge), lo, hi) == |UsableIn(obs, now, maxAge, lo, hi)|
  {
    if obs == [] {
      assert UsableIn(obs, now, maxAge, lo, hi) == {};
    } else {
      var n := |obs| - 1;
      UsableCounted(obs[..n], now, maxAge, lo, hi);
      var last := obs[n];
      var counted := last.price > 0 && now <= last.timestamp + maxAge && lo <= last.price <= hi;
      assert UsableIn(obs, now, maxAge, lo, hi) == UsableIn(obs[..n], now, maxAge, lo, hi) + (if counted then {n} else {});
      OneMoreUsable(obs, now, maxAge, lo, hi);
    }
  }

  /** In terms of the observations: a quote exists exactly when the window is long enough, the oracle is
      set and some observation is usable, and a majority of these in a range holds it there. */
  lemma QuoteFollowsMajority(cfg: OracleConfig, obs: seq<Observation>, now: nat, lo: int, hi: int, top: int)
    requires forall i :: 0 <= i < |obs| ==> obs[i].price <= top
    ensures Quote(cfg, obs, now).Ok? <==> cfg.windowSecs >= 60 && cfg.hasOracle && UsableIn(obs, now, cfg.maxAgeSeconds, 1, top) != {}
    ensures Quote(cfg, obs, now).Ok? && 2 * |UsableIn(obs, now, cfg.maxAgeSeconds, lo, hi)| > |UsableIn(obs, now, cfg.maxAgeSeconds, 1, top)| ==>
              lo <= Quote(cfg, obs, now).value <= hi
  {
    hide MedianOf, UsableIn, UsablePrices;
    var prices := UsablePrices(obs, now, cfg.maxAgeSeconds);
    UsableCounted(obs, now, cfg.maxAgeSeconds, lo, hi);
    UsableCounted(obs, now, cfg.maxAgeSeconds, 1, top);
    AllUsableCounted(obs, now, cfg.maxAgeSeconds, top);
    if cfg.windowSecs >= 60 && cfg.hasOracle && prices != [] {
      AllAtLeastOne(prices);
      QuoteIsRobust(cfg, obs, now, 1, MaxOf(prices));
      if 2 * CountIn(prices, lo, hi) > |prices| { QuoteIsRobust(cfg, obs, now, lo, hi); }
    }
  }

  lemma {:induction false} AllUsableCounted(obs: seq<Observation>, now: nat, maxAge: nat, top: int)
    requires forall i :: 0 <= i < |obs| ==> obs[i].price <= top
    ensures CountIn(UsablePrices(obs, now, maxAge), 1, top) == |UsablePrices(obs, now, maxAge)|
  {
    if obs != [] {
      var n := |obs| - 1;
      AllUsableCounted(obs[..n], now, maxAge, top);
      OneMoreUsable(obs, now, maxAge, 1, top);
    }
  }

  function MaxOf(s: seq<int>): int { if s == [] then 1 else Max(MaxOf(s[..|s| - 1]), s[|s| - 1]) }

  lemma {:induction false} AllAtLeastOne(prices: seq<int>)
    requires forall i :: 0 <= i < |prices| ==> prices[i] > 0
    ensures forall m :: m >= MaxOf(prices) ==> CountIn(prices, 1, m) == |prices|
  {
    if prices != [] { AllAtLeastOne(prices[..|prices| - 1]); }
  }

  /** As many of one price as asked for, the rest of another. */
  function TwoPrices(n: nat, c: nat, price: int, other: int): seq<int> { seq(n, i => if i < c then price else other) }

  lemma {:induction false} CountTwoPrices(n: nat, c: nat, price: int, other: int)
    requires c <= n && price < other
    ensures CountIn(TwoPrices(n, c, price, other), price, price) == c
    ensures forall lo :: lo <= price ==> CountIn(TwoPrices(n, c, price, other), lo, price) == c
  {
    if n > 0 {
      var s := TwoPrices(n, c, price, other);
      assert s[..n - 1] == TwoPrices(n - 1, c, price, other);
      if c < n {
        CountTwoPrices(n - 1, c, price, other);
      } else {
        assert s[..n - 1] == TwoPrices(n - 1, n - 1, price, other);
        CountTwoPrices(n - 1, n - 1, price, other);
      }
    }
  }

  predicate Positive(prices: seq<int>) { forall i :: 0 <= i < |prices| ==> prices[i] > 0 }

  /** With at most half of the prices at the top of the range and the others just above it, the
      median leaves the range. */
  lemma TwoPricesMedian(n: nat, c: nat, hi: int)
    requires 0 < n && 2 * c <= n && hi >= 1
    ensures Positive(TwoPrices(n, c, hi, hi + 2)) && MedianOf(TwoPrices(n, c, hi, hi + 2)) > hi
  {
    hide Sort;
    var s := TwoPrices(n, c, hi, hi + 2);
    SortSorts(s);
    SortedIsUnique(Sort(s), s);
  }

  /** For lists of a given length with a given number of prices in a range, the median is certain to
      lie in the range if and only if they are more than half. */
  lemma MajorityIff(n: nat, c: nat, lo: int, hi: int)
    requires 0 < n && c <= n && 1 <= lo <= hi
    ensures (forall prices :: Positive(prices) && |prices| == n && CountIn(prices, lo, hi) == c ==> lo <= MedianOf(prices) <= hi) <==> 2 * c > n
  {
    hide MedianOf, CountIn;
    if 2 * c > n {
      forall prices | Positive(prices) && |prices| == n && CountIn(prices, lo, hi) == c
        ensures lo <= MedianOf(prices) <= hi
      {
        MedianIsRobust(prices, lo, hi);
      }
    } else {
      var s := TwoPrices(n, c, hi, hi + 2);
      CountTwoPrices(n, c, hi, hi + 2);
      TwoPricesMedian(n, c, hi);
      assert Positive(s) && |s| == n && CountIn(s, lo, hi) == c;
    }
  }

  /** Sorts a copy and takes the middle, or the average of the two middle values. */
  method ComputeMedian(prices: seq<int>) returns (median: int)
    requires prices != [] && forall i :: 0 <= i < |prices| ==> prices[i] > 0
    ensures median == MedianOf(prices)
  {
    hide Sort;
    var values := new int[|prices|](i requires 0 <= i < |prices| => prices[i]);
    assert values[..] == prices;
    SelectionSort(values);
    SortSorts(prices);
    SameLength(Sort(prices), prices);
    var mid := values.Length / 2;
    if values.Length % 2 == 0 {
      StayPositive(prices, mid - 1);
      StayPositive(prices, mid);
      var lo, hi := values[mid - 1], values[mid];
      median := lo / 2 + hi / 2 + (lo % 2 + hi % 2) / 2;
    } else {
      median := values[mid];
    }
  }

  /** Filters the observations and takes the median of what is left. */
  method ComputeQuote(cfg: OracleConfig, obs: seq<Observation>, now: nat) returns (r: Result<int>)
    ensures r == Quote(cfg, obs, now)
  {
    hide MedianOf;
    if cfg.windowSecs < MIN_TWAP_WINDOW_SECS { return Err(InvalidInput); }
    if !cfg.hasOracle { return Err(OracleNotConfigured); }
    if obs == [] { return Err(OraclePriceUnavailable); }
    var prices, i := [], 0;
    while i < |obs|
      invariant 0 <= i <= |obs|
      invariant prices == UsablePrices(obs[..i], now, cfg.maxAgeSeconds)
    {
      assert obs[..i + 1][..i] == obs[..i];
      if SaturatingSub(now, obs[i].timestamp) <= cfg.maxAgeSeconds && obs[i].price > 0 {
        prices := prices + [obs[i].price];
      }
      i := i + 1;
    }
    assert obs[..i] == obs;
    if prices == [] { return Err(OraclePriceStale); }
    var median := ComputeMedian(prices);
    if median == 0 { return Err(OraclePriceInvalid); }
    return Ok(median);
  }
}
