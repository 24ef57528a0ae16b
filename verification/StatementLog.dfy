/** The append-only billing ledger of one subscription: numbered statements, an index of the
    retained numbers, and one aggregate into which pruned statements are folded. */
module StatementLog {
  import opened Base

  datatype Kind = Interval | Usage | OneOff

  datatype Statement = Statement(
    sequence: nat, chargedAt: nat, periodStart: nat, periodEnd: nat,
    amount: int, merchant: nat, token: nat, kind: Kind)

  /** A group of pruned statements folded into totals. */
  datatype Totals = Totals(
    amount: int, interval: int, usage: int, oneOff: int,
    oldest: Option<nat>, newest: Option<nat>)

  datatype Aggregate = Aggregate(prunedCount: nat, totals: Totals)

  datatype Log = Log(lastSeq: nat, records: map<nat, Statement>, index: seq<nat>, agg: Aggregate)

  datatype Summary = Summary(prunedCount: nat, keptCount: nat, totalPruned: int)

  datatype Page = Page(statements: seq<Statement>, nextCursor: Option<nat>, total: nat)

  const ZERO := Totals(0, 0, 0, 0, None, None)
  const EMPTY := Log(0, map[], [], Aggregate(0, ZERO))

  // ----- Operations -----

  function Append(log: Log, chargedAt: nat, periodStart: nat, amount: int, merchant: nat, token: nat, kind: Kind): Result<Log> {
    var next := log.lastSeq + 1;
    if next > U32_MAX then Err(Overflow)
    else
      var s := Statement(next, chargedAt, periodStart, chargedAt, amount, merchant, token, kind);
      Ok(Log(next, log.records[next := s], log.index + [next], log.agg))
  }

  function MinOpt(o: Option<nat>, x: nat): nat { if o.Some? && o.value <= x then o.value else x }

  function MaxOpt(o: Option<nat>, x: nat): nat { if o.Some? && o.value >= x then o.value else x }

  /** Adds one statement to a group of totals. */
  function Extend(t: Totals, s: Statement): Totals {
    Totals(t.amount + s.amount,
           t.interval + (if s.kind == Interval then s.amount else 0),
           t.usage + (if s.kind == Usage then s.amount else 0),
           t.oneOff + (if s.kind == OneOff then s.amount else 0),
           Some(MinOpt(t.oldest, s.periodStart)),
           Some(MaxOpt(t.newest, s.periodEnd)))
  }

  /** Joins the totals of two groups. */
  function Merge(a: Totals, b: Totals): Totals {
    Totals(a.amount + b.amount, a.interval + b.interval, a.usage + b.usage, a.oneOff + b.oneOff,
           if b.oldest.Some? then Some(MinOpt(a.oldest, b.oldest.value)) else a.oldest,
           if b.newest.Some? then Some(MaxOpt(a.newest, b.newest.value)) else a.newest)
  }

  predicate Fits(t: Totals) {
    InI128(t.amount) && InI128(t.interval) && InI128(t.usage) && InI128(t.oneOff)
  }

  /** Folds the first n named records from left to right; stops when a running total leaves i128. */
  function FoldRecords(records: map<nat, Statement>, ids: seq<nat>, n: nat): Option<Totals>
    requires n <= |ids|
  {
    if n == 0 then Some(ZERO)
    else
      match FoldRecords(records, ids, n - 1)
      case None => None
      case Some(t) =>
        if ids[n - 1] !in records then Some(t)
        else if Fits(Extend(t, records[ids[n - 1]])) then Some(Extend(t, records[ids[n - 1]]))
        else None
  }

  /** The log once its first n retained statements have been folded into the given totals. */
  function Pruning(log: Log, n: nat, totals: Totals): Log
    requires n <= |log.index|
  {
    Log(log.lastSeq, log.records - (set id | id in log.index[..n]), log.index[n..], Aggregate(log.agg.prunedCount + n, totals))
  }

  function Compact(log: Log, keepRecent: nat): Result<(Log, Summary)> {
    var total := |log.index|;
    if total <= keepRecent then Ok((log, Summary(0, total, 0)))
    else
      var n := total - keepRecent;
      match FoldRecords(log.records, log.index, n)
      case None => Err(Overflow)
      case Some(batch) =>
        var totals := Merge(log.agg.totals, batch);
        if log.agg.prunedCount + n > U32_MAX || !Fits(totals) then Err(Overflow)
        else Ok((Pruning(log, n, totals), Summary(n, keepRecent, batch.amount)))
  }

  /** The statements at the given positions of the index, missing records skipped. */
  function Read(log: Log, lo: nat, hi: nat, newestFirst: bool): seq<Statement>
    requires lo <= hi <= |log.index|
  {
    if lo == hi then []
    else
      var seqNo := if newestFirst then log.index[|log.index| - hi] else log.index[hi - 1];
      Read(log, lo, hi - 1, newestFirst) + (if seqNo in log.records then [log.records[seqNo]] else [])
  }

  function GetPage(log: Log, offset: nat, limit: nat, newestFirst: bool): Result<Page> {
    if limit == 0 then Err(InvalidInput)
    else
      var total := |log.index|;
      var end := Min(SaturatingAdd32(offset, limit), total);
      Ok(Page(if offset < end then Read(log, offset, end, newestFirst) else [],
              if end < total then Some(end) else None, total))
  }

  // ----- Abstract history -----

  /** The totals of statements i to j of a history. */
  function TotalsBetween(h: seq<Statement>, i: nat, j: nat): Totals
    requires i <= j <= |h|
  {
    if i == j then ZERO else Extend(TotalsBetween(h, i, j - 1), h[j - 1])
  }

  function Sum(h: seq<Statement>): int { TotalsBetween(h, 0, |h|).amount }

  ghost predicate Numbered(h: seq<Statement>) {
    |h| <= U32_MAX && forall k :: 0 <= k < |h| ==> h[k].sequence == k + 1
  }

  /** The log stores history h whose first p statements were pruned. */
  ghost predicate Represents(log: Log, h: seq<Statement>, p: nat) {
    && Numbered(h) && p <= |h|
    && log.lastSeq == |h|
    && Retains(log.index, log.records, h, p)
    && log.agg == Aggregate(p, TotalsBetween(h, 0, p))
  }

  ghost predicate Retains(index: seq<nat>, records: map<nat, Statement>, h: seq<Statement>, p: nat) {
    && p <= |h| && |index| == |h| - p
    && (forall i :: 0 <= i < |index| ==> index[i] == p + 1 + i)
    && (forall k :: k in records <==> p < k <= |h|)
    && (forall k :: p < k <= |h| ==> records[k] == h[k - 1])
  }

  /** A history and a pruning point determine the stored log completely. */
  lemma RepresentsUnique(a: Log, b: Log, h: seq<Statement>, p: nat)
    requires Represents(a, h, p) && Represents(b, h, p)
    ensures a == b
  {
    assert a.records.Keys == b.records.Keys;
    assert a.records == b.records;
    assert a.index == b.index;
  }

  lemma {:induction false} TotalsStable(h: seq<Statement>, s: Statement, i: nat, j: nat)
    requires i <= j <= |h|
    ensures TotalsBetween(h + [s], i, j) == TotalsBetween(h, i, j)
  {
    if i < j { TotalsStable(h, s, i, j - 1); }
  }

  function NewStatement(h: seq<Statement>, chargedAt: nat, periodStart: nat, amount: int, merchant: nat, token: nat, kind: Kind): Statement {
    Statement(|h| + 1, chargedAt, periodStart, chargedAt, amount, merchant, token, kind)
  }

  lemma AppendRefines(log: Log, h: seq<Statement>, p: nat, chargedAt: nat, periodStart: nat, amount: int, merchant: nat, token: nat, kind: Kind)
    requires Represents(log, h, p)
    ensures var r := Append(log, chargedAt, periodStart, amount, merchant, token, kind);
            if |h| == U32_MAX then r == Err(Overflow)
            else r.Ok? && Represents(r.value, h + [NewStatement(h, chargedAt, periodStart, amount, merchant, token, kind)], p)
  {
    TotalsStable(h, NewStatement(h, chargedAt, periodStart, amount, merchant, token, kind), 0, p);
  }

  lemma MergeExtend(a: Totals, b: Totals, s: Statement)
    ensures Merge(a, Extend(b, s)) == Extend(Merge(a, b), s)
  {}

  lemma {:induction false} MergeAdjacent(h: seq<Statement>, i: nat, j: nat, k: nat)
    requires i <= j <= k <= |h|
    ensures Merge(TotalsBetween(h, i, j), TotalsBetween(h, j, k)) == TotalsBetween(h, i, k)
  {
    if j < k {
      MergeAdjacent(h, i, j, k - 1);
      MergeExtend(TotalsBetween(h, i, j), TotalsBetween(h, j, k - 1), h[k - 1]);
    }
  }

  /** When the fold over a stretch of the index succeeds, it is the totals of that stretch. */
  lemma {:induction false} FoldIsTotals(index: seq<nat>, records: map<nat, Statement>, h: seq<Statement>, p: nat, n: nat)
    requires Retains(index, records, h, p) && n <= |index|
    ensures FoldRecords(records, index, n).Some? ==> FoldRecords(records, index, n).value == TotalsBetween(h, p, p + n)
  {
    if n > 0 { FoldIsTotals(index, records, h, p, n - 1); }
  }

  lemma PruningRetains(log: Log, h: seq<Statement>, p: nat, n: nat, totals: Totals)
    requires Retains(log.index, log.records, h, p) && n <= |log.index|
    ensures Retains(Pruning(log, n, totals).index, Pruning(log, n, totals).records, h, p + n)
  {
    var pruned := log.index[..n];
    forall k ensures k in pruned <==> p < k <= p + n {
      if p < k <= p + n { assert pruned[k - p - 1] == k; }
    }
  }

  /** Compaction keeps the represented history and moves the pruning point; the summary
      reports exactly the statements folded by this call. */
  lemma CompactRefines(log: Log, h: seq<Statement>, p: nat, keepRecent: nat)
    requires Represents(log, h, p)
    ensures Compact(log, keepRecent).Ok? ==>
              var (log', s) := Compact(log, keepRecent).value;
              var p' := Max(p, |h| - keepRecent);
              && Represents(log', h, p')
              && s == Summary(p' - p, |h| - p', TotalsBetween(h, p, p').amount)
  {
    var total := |log.index|;
    if total > keepRecent && Compact(log, keepRecent).Ok? {
      var n := total - keepRecent;
      FoldIsTotals(log.index, log.records, h, p, n);
      MergeAdjacent(h, 0, p, p + n);
      PruningRetains(log, h, p, n, TotalsBetween(h, 0, p + n));
    }
  }

  ghost predicate NonNegative(h: seq<Statement>) {
    forall k :: 0 <= k < |h| ==> h[k].amount >= 0
  }

  /** Per-kind totals add up to the total amount; with non-negative amounts none is negative. */
  lemma {:induction false} KindsSumToAmount(h: seq<Statement>, i: nat, j: nat)
    requires i <= j <= |h|
    ensures var t := TotalsBetween(h, i, j);
            && t.interval + t.usage + t.oneOff == t.amount
            && (NonNegative(h) ==> 0 <= t.interval && 0 <= t.usage && 0 <= t.oneOff)
  {
    if i < j { KindsSumToAmount(h, i, j - 1); }
  }

  lemma SliceFits(h: seq<Statement>, i: nat, j: nat)
    requires NonNegative(h) && Sum(h) <= I128_MAX && i <= j <= |h|
    ensures Fits(TotalsBetween(h, i, j))
  {
    MergeAdjacent(h, 0, i, j);
    MergeAdjacent(h, 0, j, |h|);
    KindsSumToAmount(h, 0, i);
    KindsSumToAmount(h, i, j);
    KindsSumToAmount(h, j, |h|);
  }

  lemma {:induction false} FoldSucceeds(index: seq<nat>, records: map<nat, Statement>, h: seq<Statement>, p: nat, n: nat)
    requires Retains(index, records, h, p) && n <= |index|
    requires NonNegative(h) && Sum(h) <= I128_MAX
    ensures FoldRecords(records, index, n) == Some(TotalsBetween(h, p, p + n))
  {
    if n > 0 {
      FoldSucceeds(index, records, h, p, n - 1);
      SliceFits(h, p, p + n);
    }
  }

  /** With non-negative amounts whose sum is an i128, compaction never overflows. */
  lemma CompactSucceeds(log: Log, h: seq<Statement>, p: nat, keepRecent: nat)
    requires Represents(log, h, p)
    requires NonNegative(h) && Sum(h) <= I128_MAX
    ensures Compact(log, keepRecent).Ok?
  {
    var total := |log.index|;
    if total > keepRecent {
      var n := total - keepRecent;
      FoldSucceeds(log.index, log.records, h, p, n);
      MergeAdjacent(h, 0, p, p + n);
      SliceFits(h, 0, p + n);
    }
  }

  /** Compacting to k1 and then to k2 is compacting once to the smaller of the two. */
  lemma CompactTwice(log: Log, h: seq<Statement>, p: nat, k1: nat, k2: nat)
    requires Represents(log, h, p) && NonNegative(h) && Sum(h) <= I128_MAX
    ensures Compact(log, k1).Ok? && Compact(Compact(log, k1).value.0, k2).Ok? && Compact(log, Min(k1, k2)).Ok?
    ensures Compact(Compact(log, k1).value.0, k2).value.0 == Compact(log, Min(k1, k2)).value.0
  {
    CompactSucceeds(log, h, p, k1);
    CompactRefines(log, h, p, k1);
    var once, p1 := Compact(log, k1).value.0, Max(p, |h| - k1);
    CompactSucceeds(once, h, p1, k2);
    CompactRefines(once, h, p1, k2);
    CompactSucceeds(log, h, p, Min(k1, k2));
    CompactRefines(log, h, p, Min(k1, k2));
    RepresentsUnique(Compact(once, k2).value.0, Compact(log, Min(k1, k2)).value.0, h, Max(p, |h| - Min(k1, k2)));
  }

  // ----- Whole runs -----

  datatype Event =
    | DoAppend(chargedAt: nat, periodStart: nat, amount: int, merchant: nat, token: nat, kind: Kind)
    | DoCompact(keepRecent: nat)

  /** One call: a failed call leaves the log as it was. */
  function Step(log: Log, e: Event): Log {
    match e
    case DoAppend(at, start, amount, m, t, k) =>
      var r := Append(log, at, start, amount, m, t, k);
      if r.Ok? then r.value else log
    case DoCompact(keep) =>
      var r := Compact(log, keep);
      if r.Ok? then r.value.0 else log
  }

  function Run(es: seq<Event>): Log {
    if es == [] then EMPTY else Step(Run(es[..|es| - 1]), es[|es| - 1])
  }

  /** Every statement ever appended, in order, whatever was compacted in between. */
  function History(es: seq<Event>): seq<Statement> {
    if es == [] then []
    else
      var h := History(es[..|es| - 1]);
      match es[|es| - 1]
      case DoAppend(at, start, amount, m, t, k) => h + [NewStatement(h, at, start, amount, m, t, k)]
      case DoCompact(_) => h
  }

  /** How many of them the compactions have folded away. */
  function Pruned(es: seq<Event>): nat {
    if es == [] then 0
    else
      var p := Pruned(es[..|es| - 1]);
      match es[|es| - 1]
      case DoAppend(_, _, _, _, _, _) => p
      case DoCompact(keep) => Max(p, |History(es[..|es| - 1])| - keep)
  }

  /** After any interleaving of appends and compactions the index is exactly the consecutive
      numbers above the pruning point, the records are exactly those statements, and the
      aggregate is exactly the totals of the pruned ones. */
  lemma {:induction false} RunRefines(es: seq<Event>)
    requires |History(es)| <= U32_MAX && NonNegative(History(es)) && Sum(History(es)) <= I128_MAX
    ensures Represents(Run(es), History(es), Pruned(es))
  {
    if es != [] {
      var es', e := es[..|es| - 1], es[|es| - 1];
      var h := History(es');
      match e {
        case DoAppend(at, start, amount, m, t, k) =>
          var s := NewStatement(h, at, start, amount, m, t, k);
          HistoryPrefix(h, s);
          RunRefines(es');
          AppendRefines(Run(es'), h, Pruned(es'), at, start, amount, m, t, k);
        case DoCompact(keep) =>
          RunRefines(es');
          CompactSucceeds(Run(es'), h, Pruned(es'), keep);
          CompactRefines(Run(es'), h, Pruned(es'), keep);
      }
    }
  }

  lemma HistoryPrefix(h: seq<Statement>, s: Statement)
    requires NonNegative(h + [s])
    ensures NonNegative(h) && Sum(h + [s]) == Sum(h) + s.amount && s.amount >= 0
  {
    assert forall k :: 0 <= k < |h| ==> h[k] == (h + [s])[k];
    assert (h + [s])[|h|] == s;
    TotalsStable(h, s, 0, |h|);
  }

  /** The oldest and newest bounds cover every pruned period, and both are attained. */
  lemma {:induction false} BoundsCover(h: seq<Statement>, p: nat, k: nat)
    requires k < p <= |h|
    ensures var t := TotalsBetween(h, 0, p);
            && t.oldest.Some? && t.oldest.value <= h[k].periodStart
            && t.newest.Some? && h[k].periodEnd <= t.newest.value
            && (exists i :: 0 <= i < p && h[i].periodStart == t.oldest.value)
            && (exists j :: 0 <= j < p && h[j].periodEnd == t.newest.value)
  {
    var t := TotalsBetween(h, 0, p);
    if p == 1 {
      assert t == Extend(TotalsBetween(h, 0, 0), h[0]) == Extend(ZERO, h[0]);
      assert h[0].periodStart == t.oldest.value && h[0].periodEnd == t.newest.value;
    } else {
      BoundsCover(h, p - 1, if k < p - 1 then k else 0);
      var t' := TotalsBetween(h, 0, p - 1);
      var i :| 0 <= i < p - 1 && h[i].periodStart == t'.oldest.value;
      var j :| 0 <= j < p - 1 && h[j].periodEnd == t'.newest.value;
      assert h[p - 1].periodStart == t.oldest.value || h[i].periodStart == t.oldest.value;
      assert h[p - 1].periodEnd == t.newest.value || h[j].periodEnd == t.newest.value;
    }
  }

  /** The amounts of the statements of some kinds, from the first to the p-th. */
  function SumOfKinds(h: seq<Statement>, p: nat, kinds: set<Kind>): int
    requires p <= |h|
  {
    if p == 0 then 0 else SumOfKinds(h, p - 1, kinds) + (if h[p - 1].kind in kinds then h[p - 1].amount else 0)
  }

  /** Each total of the aggregate is the sum of the pruned statements of its kind. */
  lemma {:induction false} TotalsByKind(h: seq<Statement>, p: nat)
    requires p <= |h|
    ensures var t := TotalsBetween(h, 0, p);
            && t.amount == SumOfKinds(h, p, {Interval, Usage, OneOff})
            && t.interval == SumOfKinds(h, p, {Interval})
            && t.usage == SumOfKinds(h, p, {Usage})
            && t.oneOff == SumOfKinds(h, p, {OneOff})
            && (p == 0 ==> t.oldest == None && t.newest == None)
  {
    if p > 0 { TotalsByKind(h, p - 1); }
  }

  /** What has been billed: the compacted total plus the sum of the retained amounts. */
  function Billed(log: Log): int { log.agg.totals.amount + SumRecords(log.records, log.index, |log.index|) }

  function SumRecords(records: map<nat, Statement>, ids: seq<nat>, n: nat): int
    requires n <= |ids|
  {
    if n == 0 then 0
    else SumRecords(records, ids, n - 1) + (if ids[n - 1] in records then records[ids[n - 1]].amount else 0)
  }

  lemma {:induction false} SumRecordsIsSum(index: seq<nat>, records: map<nat, Statement>, h: seq<Statement>, p: nat, n: nat)
    requires Retains(index, records, h, p) && n <= |index|
    ensures SumRecords(records, index, n) == TotalsBetween(h, p, p + n).amount
  {
    if n > 0 { SumRecordsIsSum(index, records, h, p, n - 1); }
  }

  /** Compacted plus retained is always the sum of the whole history. */
  lemma BilledIsHistorySum(log: Log, h: seq<Statement>, p: nat)
    requires Represents(log, h, p)
    ensures Billed(log) == Sum(h)
  {
    SumRecordsIsSum(log.index, log.records, h, p, |log.index|);
    MergeAdjacent(h, 0, p, |h|);
  }

  // ----- Pages -----

  function Reverse(s: seq<Statement>): seq<Statement> {
    seq(|s|, i requires 0 <= i < |s| => s[|s| - 1 - i])
  }

  /** The list a reader enumerates: the retained statements, oldest or newest first. */
  function Listing(h: seq<Statement>, p: nat, newestFirst: bool): seq<Statement>
    requires p <= |h|
  {
    if newestFirst then Reverse(h[p..]) else h[p..]
  }

  lemma {:induction false} ReadIsSlice(log: Log, h: seq<Statement>, p: nat, lo: nat, hi: nat, newestFirst: bool)
    requires Represents(log, h, p) && lo <= hi <= |log.index|
    ensures Read(log, lo, hi, newestFirst) == Listing(h, p, newestFirst)[lo..hi]
    decreases hi
  {
    var list := Listing(h, p, newestFirst);
    if lo < hi {
      ReadIsSlice(log, h, p, lo, hi - 1, newestFirst);
      var seqNo := if newestFirst then log.index[|log.index| - hi] else log.index[hi - 1];
      assert log.records[seqNo] == list[hi - 1];
      assert list[lo..hi] == list[lo..hi - 1] + [list[hi - 1]];
    }
  }

  /** Follows the cursors from the given offset to the last page. */
  function FollowCursors(log: Log, offset: nat, limit: nat, newestFirst: bool): seq<Statement>
    requires 0 < limit && |log.index| <= U32_MAX
    decreases |log.index| - offset
  {
    var page := GetPage(log, offset, limit, newestFirst).value;
    match page.nextCursor
    case None => page.statements
    case Some(c) =>
      if c <= offset then page.statements else page.statements + FollowCursors(log, c, limit, newestFirst)
  }

  /** A page is the slice of the listing between its offset and its cursor. */
  lemma PageIsSlice(log: Log, h: seq<Statement>, p: nat, offset: nat, limit: nat, newestFirst: bool)
    requires Represents(log, h, p) && 0 < limit <= U32_MAX && offset <= |log.index|
    ensures var end := Min(offset + limit, |log.index|);
            var next := if end < |log.index| then Some(end) else None;
            GetPage(log, offset, limit, newestFirst) == Ok(Page(Listing(h, p, newestFirst)[offset..end], next, |h| - p))
  {
    var end := Min(offset + limit, |log.index|);
    assert end == Min(SaturatingAdd32(offset, limit), |log.index|);
    if offset < end {
      ReadIsSlice(log, h, p, offset, end, newestFirst);
    } else {
      assert Listing(h, p, newestFirst)[offset..end] == [];
    }
  }

  lemma SliceThenRest(list: seq<Statement>, i: nat, j: nat)
    requires i <= j <= |list|
    ensures list[i..j] + list[j..] == list[i..]
  {}

  /** Reading page after page yields the retained list from the offset on, or its reverse, each
      statement once. */
  lemma {:induction false} CursorsEnumerate(log: Log, h: seq<Statement>, p: nat, offset: nat, limit: nat, newestFirst: bool)
    requires Represents(log, h, p) && 0 < limit <= U32_MAX && offset <= |log.index|
    ensures FollowCursors(log, offset, limit, newestFirst) == Listing(h, p, newestFirst)[offset..]
    decreases |log.index| - offset
  {
    PageIsSlice(log, h, p, offset, limit, newestFirst);
    var end := Min(offset + limit, |log.index|);
    SliceThenRest(Listing(h, p, newestFirst), offset, end);
    if end < |log.index| {
      CursorsEnumerate(log, h, p, end, limit, newestFirst);
    }
  }

  // ----- The store itself -----

  ghost function Without(records: map<nat, Statement>, ids: seq<nat>, n: nat): map<nat, Statement>
    requires n <= |ids|
  {
    records - (set id | id in ids[..n])
  }

  lemma WithoutNone(records: map<nat, Statement>, ids: seq<nat>)
    ensures Without(records, ids, 0) == records
  {}

  lemma PrunedRecords(records: map<nat, Statement>, ids: seq<nat>, n: nat)
    requires n <= |ids|
    ensures Without(records, ids, n) == records - (set id | id in ids[..n])
  {}

  lemma WithoutOneMore(records: map<nat, Statement>, ids: seq<nat>, n: nat)
    requires n < |ids| && forall i, j :: 0 <= i < j < |ids| ==> ids[i] != ids[j]
    ensures Without(records, ids, n + 1) == Without(records, ids, n) - {ids[n]}
    ensures ids[n] in records <==> ids[n] in Without(records, ids, n)
    ensures ids[n] in records ==> Without(records, ids, n)[ids[n]] == records[ids[n]]
  {
    assert ids[..n + 1] == ids[..n] + [ids[n]];
  }

  lemma SliceOneMore(ids: seq<nat>, a: nat, i: nat)
    requires a <= i < |ids|
    ensures ids[a..i + 1] == ids[a..i] + [ids[i]]
  {}

  class StatementStore {
    var lastSeq: nat
    var records: map<nat, Statement>
    var index: seq<nat>
    var agg: Aggregate

    ghost function Value(): Log
      reads this
    {
      Log(lastSeq, records, index, agg)
    }

    /** The index holds each number once, so no record is folded twice. */
    ghost predicate Valid()
      reads this
    {
      forall i, j :: 0 <= i < j < |index| ==> index[i] != index[j]
    }

    constructor ()
      ensures Value() == EMPTY && Valid()
    {
      lastSeq, records, index, agg := 0, map[], [], Aggregate(0, ZERO);
    }

    method AppendStatement(chargedAt: nat, periodStart: nat, amount: int, merchant: nat, token: nat, kind: Kind) returns (r: Result<()>)
      modifies this
      ensures var spec := Append(old(Value()), chargedAt, periodStart, amount, merchant, token, kind);
              if spec.Ok? then r == Ok(()) && Value() == spec.value
              else r == Err(spec.error) && Value() == old(Value())
    {
      var next := lastSeq + 1;
      if next > U32_MAX {
        return Err(Overflow);
      }
      lastSeq := next;
      records := records[next := Statement(next, chargedAt, periodStart, chargedAt, amount, merchant, token, kind)];
      index := index + [next];
      return Ok(());
    }

    /** Takes one record out and adds it to the totals; a missing one adds nothing. */
    method FoldOne(seqNo: nat, batch: Totals) returns (folded: Option<Totals>)
      modifies `records
      ensures folded == (if seqNo !in old(records) then Some(batch)
                         else if Fits(Extend(batch, old(records)[seqNo])) then Some(Extend(batch, old(records)[seqNo]))
                         else None)
      ensures records == (if folded.Some? then old(records) - {seqNo} else old(records))
    {
      folded := Some(batch);
      if seqNo in records {
        var extended := Extend(batch, records[seqNo]);
        if !Fits(extended) { return None; }
        folded := Some(extended);
      }
      records := records - {seqNo};
    }

    /** Walks the whole index once, folding and deleting the pruned part. A failed call is
        rolled back by the host, so the records are restored before an error is returned. */
    method CompactStatements(keepRecent: nat) returns (r: Result<Summary>)
      requires Valid()
      modifies this
      ensures Valid()
      ensures var spec := Compact(old(Value()), keepRecent);
              if spec.Ok? then r == Ok(spec.value.1) && Value() == spec.value.0
              else r == Err(spec.error) && Value() == old(Value())
    {
      hide Without, Extend, Fits, Merge;
      var total := |index|;
      if total <= keepRecent {
        return Ok(Summary(0, total, 0));
      }
      var ids, before := index, records;
      var pruneCount := total - keepRecent;
      var batch := ZERO;
      var kept: seq<nat> := [];
      var i := 0;
      WithoutNone(before, ids);
      while i < total
        invariant 0 <= i <= total && |ids| == total
        invariant index == ids && lastSeq == old(lastSeq) && agg == old(agg)
        invariant FoldRecords(before, ids, Min(i, pruneCount)) == Some(batch)
        invariant records == Without(before, ids, Min(i, pruneCount))
        invariant kept == ids[Min(i, pruneCount)..i]
      {
        var seqNo := ids[i];
        if i < pruneCount {
          WithoutOneMore(before, ids, i);
          var folded := FoldOne(seqNo, batch);
          if folded.None? {
            records := before;
            FoldStops(before, ids, i + 1, pruneCount);
            return Err(Overflow);
          }
          batch := folded.value;
        } else {
          SliceOneMore(ids, pruneCount, i);
          kept := kept + [seqNo];
        }
        i := i + 1;
      }
      assert FoldRecords(before, ids, pruneCount) == Some(batch);
      var totals := Merge(agg.totals, batch);
      if agg.prunedCount + pruneCount > U32_MAX || !Fits(totals) {
        records := before;
        return Err(Overflow);
      }
      PrunedRecords(before, ids, pruneCount);
      index := kept;
      agg := Aggregate(agg.prunedCount + pruneCount, totals);
      return Ok(Summary(pruneCount, |kept|, batch.amount));
    }

    method PageByOffset(offset: nat, limit: nat, newestFirst: bool) returns (r: Result<Page>)
      ensures r == GetPage(Value(), offset, limit, newestFirst)
    {
      if limit == 0 {
        return Err(InvalidInput);
      }
      var total := |index|;
      var end := Min(SaturatingAdd32(offset, limit), total);
      var statements: seq<Statement> := [];
      var i := offset;
      while i < end
        invariant offset <= i <= Max(offset, end)
        invariant offset < end ==> statements == Read(Value(), offset, i, newestFirst)
        invariant offset >= end ==> statements == []
      {
        var seqNo := if newestFirst then index[total - 1 - i] else index[i];
        if seqNo in records {
          statements := statements + [records[seqNo]];
        }
        i := i + 1;
      }
      return Ok(Page(statements, if end < total then Some(end) else None, total));
    }
  }

  /** A fold that has stopped stays stopped. */
  lemma {:induction false} FoldStops(records: map<nat, Statement>, ids: seq<nat>, n: nat, m: nat)
    requires n <= m <= |ids| && FoldRecords(records, ids, n) == None
    ensures FoldRecords(records, ids, m) == None
  {
    if n < m { FoldStops(records, ids, n, m - 1); }
  }
}
