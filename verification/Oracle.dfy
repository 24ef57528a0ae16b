/** The price history of a token, the deviation breaker in front of it, and the median of a
    window of observations. */
module Oracle {
  import opened Base
  import opened Sorting

  const HISTORY: nat := 10

  // ----- The ring of recent prices -----

  /** head and count are u32 storage fields; slots are the storage entries. */
  datatype Ring = Ring(head: nat, count: nat, slots: map<nat, int>)

  const EMPTY := Ring(0, 0, map[])

  function Record(r: Ring, price: int): Ring {
    Ring((r.head + 1) % HISTORY, SaturatingAdd32(r.count, 1), r.slots[r.head := price])
  }

  function Tail(r: Ring): nat { if r.count < HISTORY then 0 else r.head }

  /** The first n of the stored samples, oldest first; a missing entry is passed over. */
  function Samples(r: Ring, n: nat): seq<int> {
    if n == 0 then []
    else
      var slot := (Tail(r) + n - 1) % HISTORY;
      Samples(r, n - 1) + (if slot in r.slots then [r.slots[slot]] else [])
  }

  function Load(r: Ring): seq<int> { Samples(r, Min(r.count, HISTORY)) }

  function Last(h: seq<int>): seq<int> { if |h| <= HISTORY then h else h[|h| - HISTORY..] }

  /** The ring holds the last ten prices of the history. */
  ghost predicate Holds(r: Ring, h: seq<int>) {
    && r.head == |h| % HISTORY
    && r.count == Min(|h|, U32_MAX)
    && forall i :: 0 <= i < |h| && i >= |h| - HISTORY ==> i % HISTORY in r.slots && r.slots[i % HISTORY] == h[i]
  }

  lemma RecordHolds(r: Ring, h: seq<int>, price: int)
    requires Holds(r, h)
    ensures Holds(Record(r, price), h + [price])
  {
    var h', r' := h + [price], Record(r, price);
    forall i | 0 <= i < |h'| && i >= |h'| - HISTORY
      ensures i % HISTORY in r'.slots && r'.slots[i % HISTORY] == h'[i]
    {
      if i < |h| { assert i % HISTORY != |h| % HISTORY; }
    }
  }

  lemma {:induction false} SamplesAre(r: Ring, h: seq<int>, n: nat)
    requires Holds(r, h) && n <= Min(|h|, HISTORY)
    ensures Samples(r, n) == Last(h)[..n]
  {
    hide Holds, Tail;
    if n > 0 {
      SamplesAre(r, h, n - 1);
      SlotHolds(r, h, n - 1);
      assert Last(h)[..n] == Last(h)[..n - 1] + [Last(h)[n - 1]];
    }
  }

  lemma SlotOf(len: nat, n: nat)
    requires n < HISTORY <= len
    ensures (len % HISTORY + n) % HISTORY == (len - HISTORY + n) % HISTORY
  {}

  /** The n-th slot from the tail on holds the n-th of the last ten prices. */
  lemma SlotHolds(r: Ring, h: seq<int>, n: nat)
    requires Holds(r, h) && n < |h| && n < HISTORY
    ensures var slot := (Tail(r) + n) % HISTORY; slot in r.slots && r.slots[slot] == Last(h)[n]
  {
    var i := if |h| <= HISTORY then n else |h| - HISTORY + n;
    if |h| >= HISTORY { SlotOf(|h|, n); }
    assert (Tail(r) + n) % HISTORY == i % HISTORY;
    assert Last(h)[n] == h[i];
  }

  /** What is loaded is exactly the last ten recorded prices, in order. */
  lemma LoadIsLast(r: Ring, h: seq<int>)
    requires Holds(r, h)
    ensures Load(r) == Last(h)
  {
    SamplesAre(r, h, Min(|h|, HISTORY));
  }

  // ----- The breaker -----

  function Middle(sorted: seq<int>): int
    requires sorted != []
  {
    sorted[|sorted| / 2]
  }

  function Median(prices: seq<int>): (m: int)
    requires prices != []
    ensures m in prices
  {
    SortSorts(prices);
    SameLength(Sort(prices), prices);
    MiddleIsMember(prices);
    Middle(Sort(prices))
  }

  /** The median is the middle of the prices in order, the upper of two. */
  lemma MedianIsMiddle(prices: seq<int>, ordered: seq<int>)
    requires prices != [] && SortedOf(ordered, prices)
    ensures |ordered| == |prices| && Median(prices) == ordered[|prices| / 2]
  {
    hide Sort;
    SortSorts(prices);
    SortedIsUnique(Sort(prices), ordered);
    SameLength(ordered, prices);
  }

  lemma MiddleIsMember(prices: seq<int>)
    requires prices != [] && SortedOf(Sort(prices), prices) && |Sort(prices)| == |prices|
    ensures Middle(Sort(prices)) in prices
  {
    assert Middle(Sort(prices)) in multiset(Sort(prices));
  }

  ghost predicate Positive(prices: seq<int>) { forall i :: 0 <= i < |prices| ==> 0 < prices[i] <= I128_MAX }

  function Distance(a: int, b: int): int { if a > b then a - b else b - a }

  /** Prices and samples are positive here; the caller has refused any other price. */
  function Check(r: Ring, threshold: Option<nat>, price: int): Result<Ring>
    requires Positive(Load(r))
  {
    if threshold.None? then Ok(Record(r, price))
    else if Load(r) == [] then Ok(Record(r, price))
    else
      var median := Median(Load(r));
      if !InI128(Distance(price, median) * 10_000) then Err(Overflow)
      else
        var deviation := TruncDiv(Distance(price, median) * 10_000, median);
        if (threshold.value == 0 && price != median) || deviation > threshold.value then Err(OracleDeviationTooHigh)
        else Ok(Record(r, price))
  }

  lemma QuotientBelow(a: int, m: int, t: nat)
    requires a >= 0 && m > 0
    ensures a / m <= t <==> a < (t + 1) * m
  {
    assert a == m * (a / m) + a % m;
    if a / m <= t {
      assert m * (a / m) <= m * t;
    } else {
      assert m * (a / m) >= m * (t + 1);
    }
  }

  /** A price is accepted after a non-empty history exactly when its distance from the middle of the
      loaded prices in order, in basis points, is below the threshold plus one (and zero in strict
      mode); it is then recorded. */
  lemma AcceptedIff(r: Ring, threshold: nat, price: int, ordered: seq<int>)
    requires Positive(Load(r)) && Load(r) != [] && price > 0 && SortedOf(ordered, Load(r))
    ensures |ordered| == |Load(r)|
    ensures var m := ordered[|ordered| / 2];
            var d := if price > m then price - m else m - price;
            Check(r, Some(threshold), price).Ok? <==> d * 10_000 <= I128_MAX && d * 10_000 < (threshold + 1) * m && (threshold == 0 ==> price == m)
    ensures Check(r, Some(threshold), price).Ok? ==> Check(r, Some(threshold), price).value == Record(r, price)
  {
    hide Record;
    MedianIsMiddle(Load(r), ordered);
    var m := Median(Load(r));
    QuotientBelow(Distance(price, m) * 10_000, m, threshold);
  }

  // ----- Whole runs -----

  datatype Offer = Offer(threshold: Option<nat>, price: int)

  /** One offer: an accepted price is recorded, a refused one changes nothing. */
  function Offered(r: Ring, h: seq<int>, o: Offer): (s: (Ring, seq<int>))
    requires Holds(r, h) && Positive(h) && Positive(Load(r))
    ensures Holds(s.0, s.1) && Positive(s.1) && Positive(Load(s.0))
  {
    if o.price <= 0 || o.price > I128_MAX then (r, h)
    else
      match Check(r, o.threshold, o.price)
      case Err(_) => (r, h)
      case Ok(r') =>
        RecordHolds(r, h, o.price);
        LoadIsLast(r', h + [o.price]);
        (r', h + [o.price])
  }

  /** Ring and accepted prices after a run of offers. */
  function Run(offers: seq<Offer>): (s: (Ring, seq<int>))
    ensures Holds(s.0, s.1) && Positive(s.1) && Positive(Load(s.0))
  {
    if offers == [] then (EMPTY, [])
    else Offered(Run(offers[..|offers| - 1]).0, Run(offers[..|offers| - 1]).1, offers[|offers| - 1])
  }

  /** After every run the ring is the last ten accepted prices in order. */
  lemma RunKeepsLastTen(offers: seq<Offer>)
    ensures Load(Run(offers).0) == Last(Run(offers).1)
  {
    LoadIsLast(Run(offers).0, Run(offers).1);
  }

  ghost predicate AllEqual(h: seq<int>) { forall i :: 0 <= i < |h| ==> h[i] == h[0] }

  /** In strict mode every price ever recorded equals the first. */
  lemma {:induction false} StrictModeFreezesPrice(offers: seq<Offer>)
    requires forall i :: 0 <= i < |offers| ==> offers[i].threshold == Some(0)
    ensures AllEqual(Run(offers).1)
  {
    if offers != [] {
      StrictModeFreezesPrice(offers[..|offers| - 1]);
      var (r, h) := Run(offers[..|offers| - 1]);
      RunKeepsLastTen(offers[..|offers| - 1]);
      if h != [] { assert Median(Load(r)) in Last(h); }
    }
  }

  class PriceHistory {
    var head: nat
    var count: nat
    var slots: map<nat, int>

    function Value(): Ring
      reads this
    {
      Ring(head, count, slots)
    }

    constructor ()
      ensures Value() == EMPTY
    {
      head, count, slots := 0, 0, map[];
    }

    method RecordPrice(price: int)
      modifies this
      ensures Value() == Record(old(Value()), price)
    {
      var slot := head;
      head := (head + 1) % HISTORY;
      count := SaturatingAdd32(count, 1);
      slots := slots[slot := price];
    }

    method LoadPrices() returns (out: seq<int>)
      ensures out == Load(Value())
    {
      out := [];
      if count == 0 { return; }
      var n := if count < HISTORY then count else HISTORY;
      var tail := if count < HISTORY then 0 else head;
      var i := 0;
      while i < n
        invariant 0 <= i <= n
        invariant out == Samples(Value(), i)
      {
        var slot := (tail + i) % HISTORY;
        if slot in slots { out := out + [slots[slot]]; }
        i := i + 1;
      }
    }

    /** Sorts a copy and takes the upper middle. */
    method ComputeMedian(prices: seq<int>) returns (median: int)
      requires prices != []
      ensures median == Median(prices)
    {
      hide Sort;
      var sorted := new int[|prices|](i requires 0 <= i < |prices| => prices[i]);
      assert sorted[..] == prices;
      SelectionSort(sorted);
      SortSorts(prices);
      SameLength(Sort(prices), prices);
      median := sorted[sorted.Length / 2];
      assert median == sorted[..][|prices| / 2];
    }

    method CheckDeviationAndRecord(threshold: Option<nat>, price: int) returns (e: Option<Error>)
      requires Positive(Load(Value()))
      modifies this
      ensures match Check(old(Value()), threshold, price)
              case Ok(r) => Value() == r && e == None
              case Err(error) => Value() == old(Value()) && e == Some(error)
    {
      if threshold.None? {
        RecordPrice(price);
        return None;
      }
      var prices := LoadPrices();
      if prices == [] {
        RecordPrice(price);
        return None;
      }
      var median := ComputeMedian(prices);
      var diff := if price > median then price - median else median - price;
      if !InI128(diff * 10_000) { return Some(Overflow); }
      var deviation := TruncDiv(diff * 10_000, median);
      if (threshold.value == 0 && price != median) || deviation > threshold.value { return Some(OracleDeviationTooHigh); }
      RecordPrice(price);
      return None;
    }
  }
}
