/** Paginated views: following the cursors to the end enumerates exactly what a single full scan
    would, whatever the page size. */
module Pages {
  import opened Base
  import opened StateMachine
  import opened Accounts
  import opened VaultTotals
  import opened VaultInvariant
  import opened AccountLaws
  import opened Vault
  import ChargeMath
  import Sums

  const MAX_QUERY_RESULTS: nat := 100
  const MAX_SCAN_DEPTH: nat := 1_000
  const MAX_SUBSCRIPTION_LIST_PAGE: nat := 100
  const MAX_MERCHANT_CURSOR_DEPTH: nat := 1_000
  const MAX_PREPAID_SCAN_DEPTH: nat := 500

  // ----- Cancelled subscriptions with a balance -----

  predicate Recoverable(accounts: map<nat, Account>, id: nat) {
    id in accounts && accounts[id].sub.status == Cancelled && accounts[id].sub.prepaid > 0
  }

  /** Every recoverable id in [lo, hi), ascending. */
  function RecoverableIn(accounts: map<nat, Account>, lo: nat, hi: nat): seq<nat>
    decreases hi - lo
  {
    if lo >= hi then []
    else (if Recoverable(accounts, lo) then [lo] else []) + RecoverableIn(accounts, lo + 1, hi)
  }

  datatype Page = Page(ids: seq<nat>, next: Option<nat>)

  /** Scans on from id until the ids end, the budget is spent, or a match no longer fits. */
  function Scan(accounts: map<nat, Account>, nextId: nat, id: nat, scanned: nat, found: seq<nat>, limit: nat): Page
    decreases nextId - id
  {
    if id >= nextId then Page(found, None)
    else if scanned >= MAX_SCAN_DEPTH then Page(found, Some(id))
    else if Recoverable(accounts, id) then
      if |found| < limit then Scan(accounts, nextId, id + 1, scanned + 1, found + [id], limit)
      else Page(found, Some(id))
    else Scan(accounts, nextId, id + 1, scanned + 1, found, limit)
  }

  function ListRecoverable(accounts: map<nat, Account>, nextId: nat, cursor: Option<nat>, limit: nat): Result<Page> {
    if limit == 0 || limit > MAX_QUERY_RESULTS then Err(InvalidExportLimit)
    else Ok(Scan(accounts, nextId, if cursor.Some? then cursor.value else 0, 0, [], limit))
  }

  /** A page is the matches up to where it stops, and it makes progress. */
  lemma {:induction false} ScanStops(accounts: map<nat, Account>, nextId: nat, id: nat, scanned: nat, found: seq<nat>, limit: nat)
    requires |found| <= limit
    ensures var page := Scan(accounts, nextId, id, scanned, found, limit);
            && (page.next.None? ==> page.ids == found + RecoverableIn(accounts, id, nextId))
            && (page.next.Some? ==> id <= page.next.value < nextId && page.ids == found + RecoverableIn(accounts, id, page.next.value))
            && (page.next.Some? && scanned < MAX_SCAN_DEPTH && |found| < limit ==> id < page.next.value)
            && |page.ids| <= limit
    decreases nextId - id
  {
    if id < nextId && scanned < MAX_SCAN_DEPTH && (Recoverable(accounts, id) ==> |found| < limit) {
      var found' := if Recoverable(accounts, id) then found + [id] else found;
      ScanStops(accounts, nextId, id + 1, scanned + 1, found', limit);
      var page := Scan(accounts, nextId, id + 1, scanned + 1, found', limit);
      var stop := if page.next.Some? then page.next.value else nextId;
      assert found' + RecoverableIn(accounts, id + 1, stop) == found + RecoverableIn(accounts, id, stop);
    }
  }

  /** All pages from a cursor on. */
  function Follow(accounts: map<nat, Account>, nextId: nat, start: nat, limit: nat): seq<nat>
    requires 0 < limit <= MAX_QUERY_RESULTS
    decreases nextId - start
  {
    var page := Scan(accounts, nextId, start, 0, [], limit);
    ScanStops(accounts, nextId, start, 0, [], limit);
    page.ids + (if page.next.Some? then Follow(accounts, nextId, page.next.value, limit) else [])
  }

  lemma {:induction false} RecoverableJoin(accounts: map<nat, Account>, lo: nat, mid: nat, hi: nat)
    requires lo <= mid <= hi
    ensures RecoverableIn(accounts, lo, hi) == RecoverableIn(accounts, lo, mid) + RecoverableIn(accounts, mid, hi)
    decreases mid - lo
  {
    if lo < mid { RecoverableJoin(accounts, lo + 1, mid, hi); }
  }

  /** Following the cursors lists every recoverable subscription once, in ascending order,
      despite the page size and the scan budget. */
  lemma {:induction false} FollowListsAll(accounts: map<nat, Account>, nextId: nat, start: nat, limit: nat)
    requires 0 < limit <= MAX_QUERY_RESULTS
    ensures Follow(accounts, nextId, start, limit) == RecoverableIn(accounts, start, nextId)
    decreases nextId - start
  {
    var page := Scan(accounts, nextId, start, 0, [], limit);
    ScanStops(accounts, nextId, start, 0, [], limit);
    if page.next.Some? {
      FollowListsAll(accounts, nextId, page.next.value, limit);
      RecoverableJoin(accounts, start, page.next.value, nextId);
    }
  }

  /** And that list holds exactly the cancelled subscriptions that still have a balance. */
  lemma {:induction false} RecoverableInIs(accounts: map<nat, Account>, lo: nat, hi: nat)
    ensures forall id :: id in RecoverableIn(accounts, lo, hi) <==>
              lo <= id < hi && id in accounts && accounts[id].sub.status == Cancelled && accounts[id].sub.prepaid > 0
    ensures forall i, j :: 0 <= i < j < |RecoverableIn(accounts, lo, hi)| ==> RecoverableIn(accounts, lo, hi)[i] < RecoverableIn(accounts, lo, hi)[j]
    decreases hi - lo
  {
    if lo < hi {
      RecoverableInIs(accounts, lo + 1, hi);
      var rest := RecoverableIn(accounts, lo + 1, hi);
      forall j | 0 <= j < |rest| ensures lo < rest[j] {
        assert rest[j] in rest;
      }
    }
  }

  /** A page that is not the last has as many ids as asked for and stops at the next match, or has
      looked at a thousand ids. */
  lemma {:induction false} PageIsFull(accounts: map<nat, Account>, nextId: nat, id: nat, scanned: nat, found: seq<nat>, limit: nat)
    requires |found| <= limit && scanned <= 1_000
    ensures var page := Scan(accounts, nextId, id, scanned, found, limit);
            page.next.Some? ==> (|page.ids| == limit && Recoverable(accounts, page.next.value)) || page.next.value - id == 1_000 - scanned
    decreases nextId - id
  {
    if id < nextId && scanned < MAX_SCAN_DEPTH && (Recoverable(accounts, id) ==> |found| < limit) {
      PageIsFull(accounts, nextId, id + 1, scanned + 1, if Recoverable(accounts, id) then found + [id] else found, limit);
    }
  }

  method RecoverablePage(accounts: map<nat, Account>, nextId: nat, cursor: Option<nat>, limit: nat) returns (r: Result<Page>)
    ensures r == ListRecoverable(accounts, nextId, cursor, limit)
  {
    if limit == 0 || limit > MAX_QUERY_RESULTS { return Err(InvalidExportLimit); }
    var start := if cursor.Some? then cursor.value else 0;
    if nextId == 0 || start >= nextId { return Ok(Page([], None)); }
    var ids: seq<nat> := [];
    var scanned, id := 0, start;
    while id < nextId
      invariant start <= id <= nextId
      invariant Scan(accounts, nextId, start, 0, [], limit) == Scan(accounts, nextId, id, scanned, ids, limit)
    {
      if scanned >= MAX_SCAN_DEPTH { break; }
      if id in accounts && accounts[id].sub.status == Cancelled && accounts[id].sub.prepaid > 0 {
        if |ids| < limit {
          ids := ids + [id];
        } else {
          return Ok(Page(ids, Some(id)));
        }
      }
      scanned := scanned + 1;
      id := id + 1;
    }
    return Ok(Page(ids, if id < nextId then Some(id) else None));
  }

  // ----- A merchant's subscriptions -----

  /** The index as read in the chosen direction. */
  function Ordered(ids: seq<nat>, reverse: bool): (r: seq<nat>)
    ensures |r| == |ids|
  {
    seq(|ids|, i requires 0 <= i < |ids| => if reverse then ids[|ids| - 1 - i] else ids[i])
  }

  function Depth(total: nat): nat { if total < MAX_MERCHANT_CURSOR_DEPTH then total else MAX_MERCHANT_CURSOR_DEPTH }

  function MerchantPage(ids: seq<nat>, cursor: Option<nat>, limit: nat, reverse: bool): Result<Page> {
    if limit == 0 || limit > MAX_SUBSCRIPTION_LIST_PAGE then Err(InvalidInput)
    else
      var start := if cursor.Some? then cursor.value else 0;
      if start >= Depth(|ids|) then Ok(Page([], None))
      else
        var end := if start + limit < Depth(|ids|) then start + limit else Depth(|ids|);
        Ok(Page(Ordered(ids, reverse)[start..end], if end < Depth(|ids|) then Some(end) else None))
  }

  function FollowMerchant(ids: seq<nat>, start: nat, limit: nat, reverse: bool): seq<nat>
    requires 0 < limit <= MAX_SUBSCRIPTION_LIST_PAGE
    decreases |ids| - start
  {
    var page := MerchantPage(ids, Some(start), limit, reverse).value;
    page.ids + (if page.next.Some? then FollowMerchant(ids, page.next.value, limit, reverse) else [])
  }

  /** Following the cursors gives the first min(total, 1000) entries in the chosen order. */
  lemma {:induction false} MerchantPagesListPrefix(ids: seq<nat>, start: nat, limit: nat, reverse: bool)
    requires 0 < limit <= MAX_SUBSCRIPTION_LIST_PAGE && start <= Depth(|ids|)
    ensures FollowMerchant(ids, start, limit, reverse) == Ordered(ids, reverse)[start..Depth(|ids|)]
    ensures Depth(|ids|) == Min(|ids|, 1_000)
    ensures forall i :: start <= i < Depth(|ids|) ==> Ordered(ids, reverse)[i] == (if reverse then ids[|ids| - 1 - i] else ids[i])
    decreases |ids| - start
  {
    var page := MerchantPage(ids, Some(start), limit, reverse).value;
    if page.next.Some? {
      MerchantPagesListPrefix(ids, page.next.value, limit, reverse);
    }
  }

  /** A merchant page has as many entries as asked for while there are that many left. */
  lemma MerchantPageIsFull(ids: seq<nat>, start: nat, limit: nat, reverse: bool)
    ensures MerchantPage(ids, Some(start), limit, reverse).Ok? <==> 0 < limit <= 100
    ensures 0 < limit <= 100 ==>
              var page, left := MerchantPage(ids, Some(start), limit, reverse).value, Max(Min(|ids|, 1_000) - start, 0);
              |page.ids| == Min(limit, left) && (page.next == if limit < left then Some(start + limit) else None)
    ensures MerchantPage(ids, None, limit, reverse) == MerchantPage(ids, Some(0), limit, reverse)
  {}

  lemma OneMore(ids: seq<nat>, reverse: bool, start: nat, position: nat)
    requires start <= position < |ids|
    ensures var index := if reverse then |ids| - 1 - position else position;
            Ordered(ids, reverse)[start..position + 1] == Ordered(ids, reverse)[start..position] + [ids[index]]
  {}

  method ReadMerchantPage(ids: seq<nat>, cursor: Option<nat>, limit: nat, reverse: bool) returns (r: Result<Page>)
    requires |ids| <= U32_MAX
    ensures r == MerchantPage(ids, cursor, limit, reverse)
  {
    if limit == 0 || limit > MAX_SUBSCRIPTION_LIST_PAGE { return Err(InvalidInput); }
    var start := if cursor.Some? then cursor.value else 0;
    if start >= |ids| || start >= MAX_MERCHANT_CURSOR_DEPTH { return Ok(Page([], None)); }
    var end := SaturatingAdd32(start, limit);
    if end > |ids| { end := |ids|; }
    if end > MAX_MERCHANT_CURSOR_DEPTH { end := MAX_MERCHANT_CURSOR_DEPTH; }
    var out, position := [], start;
    while position < end
      invariant start <= position <= end <= |ids|
      invariant out == Ordered(ids, reverse)[start..position]
    {
      var index := if reverse then |ids| - 1 - position else position;
      OneMore(ids, reverse, start, position);
      out := out + [ids[index]];
      position := position + 1;
    }
    return Ok(Page(out, if end < |ids| && end < MAX_MERCHANT_CURSOR_DEPTH then Some(end) else None));
  }

  // ----- Prepaid totals -----

  function SaturatingAdd128(a: int, b: int): int { Max(I128_MIN, Min(a + b, I128_MAX)) }

  /** What one subscription adds to the total of a token. */
  function PrepaidOf(accounts: map<nat, Account>, token: nat, id: nat): int {
    if id in accounts && accounts[id].sub.token == token then accounts[id].sub.prepaid else 0
  }

  function ExactTotal(accounts: map<nat, Account>, token: nat, lo: nat, hi: nat): int
    decreases hi - lo
  {
    if lo >= hi then 0 else ExactTotal(accounts, token, lo, hi - 1) + PrepaidOf(accounts, token, hi - 1)
  }

  /** The running totals as the contract adds them up: positive balances in a page, every
      balance in the full computation. */
  function PartialTotal(accounts: map<nat, Account>, token: nat, lo: nat, hi: nat): int
    decreases hi - lo
  {
    if lo >= hi then 0
    else
      var x := PrepaidOf(accounts, token, hi - 1);
      var before := PartialTotal(accounts, token, lo, hi - 1);
      if x > 0 then SaturatingAdd128(before, x) else before
  }

  function TotalPrepaid(accounts: map<nat, Account>, token: nat, n: nat): int {
    if n == 0 then 0 else SaturatingAdd128(TotalPrepaid(accounts, token, n - 1), PrepaidOf(accounts, token, n - 1))
  }

  datatype PrepaidPage = PrepaidPage(partial: int, next: Option<nat>)

  /** The end of a page is computed in u32, so a start near the top of the id space traps. */
  function PrepaidQuery(accounts: map<nat, Account>, nextId: nat, token: nat, start: nat, scanLimit: nat): Result<PrepaidPage> {
    var limit := if scanLimit < MAX_PREPAID_SCAN_DEPTH then scanLimit else MAX_PREPAID_SCAN_DEPTH;
    if nextId == 0 || start >= nextId then Ok(PrepaidPage(0, None))
    else if start + limit > U32_MAX then Err(HostTrap)
    else
      var end := if start + limit < nextId then start + limit else nextId;
      Ok(PrepaidPage(PartialTotal(accounts, token, start, end), if end < nextId then Some(end) else None))
  }

  ghost predicate NoDebts(accounts: map<nat, Account>) { forall id :: id in accounts ==> accounts[id].sub.prepaid >= 0 }

  lemma {:induction false} ExactJoin(accounts: map<nat, Account>, token: nat, lo: nat, mid: nat, hi: nat)
    requires lo <= mid <= hi
    ensures ExactTotal(accounts, token, lo, hi) == ExactTotal(accounts, token, lo, mid) + ExactTotal(accounts, token, mid, hi)
    decreases hi - mid
  {
    if mid < hi { ExactJoin(accounts, token, lo, mid, hi - 1); }
  }

  lemma {:induction false} NothingSaturates(accounts: map<nat, Account>, token: nat, lo: nat, hi: nat)
    requires NoDebts(accounts) && ExactTotal(accounts, token, lo, hi) <= I128_MAX && lo <= hi
    ensures PartialTotal(accounts, token, lo, hi) == ExactTotal(accounts, token, lo, hi) >= 0
    ensures lo == 0 ==> TotalPrepaid(accounts, token, hi) == ExactTotal(accounts, token, 0, hi)
    decreases hi - lo
  {
    if lo < hi { NothingSaturates(accounts, token, lo, hi - 1); }
  }

  lemma {:induction false} ExactNonNegative(accounts: map<nat, Account>, token: nat, lo: nat, hi: nat)
    requires NoDebts(accounts)
    ensures ExactTotal(accounts, token, lo, hi) >= 0
    decreases hi - lo
  {
    if lo < hi { ExactNonNegative(accounts, token, lo, hi - 1); }
  }

  /** How many ids a query looks at. */
  function ScanDepth(scanLimit: nat): nat { if scanLimit < MAX_PREPAID_SCAN_DEPTH then scanLimit else MAX_PREPAID_SCAN_DEPTH }

  /** Where the last page of a walk would end if ids went on for ever: the first multiple of the
      depth beyond the start that is not below the next id. */
  function LastEnd(start: nat, nextId: nat, depth: nat): nat
    requires depth > 0
  {
    if start >= nextId then start else start + (nextId - start + depth - 1) / depth * depth
  }

  lemma LastEndStep(start: nat, nextId: nat, depth: nat)
    requires depth > 0 && start < nextId
    ensures start + depth <= LastEnd(start, nextId, depth)
    ensures if start + depth < nextId then LastEnd(start + depth, nextId, depth) == LastEnd(start, nextId, depth)
            else LastEnd(start, nextId, depth) == start + depth
  {
    var k := nextId - start - 1;
    assert k + depth == nextId - start + depth - 1;
    OneMoreQuotient(k, depth);
    if start + depth < nextId {
      assert nextId - (start + depth) + depth - 1 == k;
      OneMoreProduct(k / depth, depth);
    } else {
      SmallQuotient(k, depth);
    }
    OneMoreProduct(k / depth, depth);
  }

  lemma OneMoreQuotient(k: nat, depth: nat)
    requires depth > 0
    ensures (k + depth) / depth == k / depth + 1
  {
    ChargeMath.DivUnique(k + depth, depth, k / depth + 1, k % depth);
  }

  lemma SmallQuotient(k: nat, depth: nat)
    requires k < depth
    ensures k / depth == 0
  {}

  lemma OneMoreProduct(q: nat, depth: nat)
    ensures (q + 1) * depth == q * depth + depth && q * depth >= 0
  {}

  /** The sum of all pages, or the trap of the first page whose end leaves u32. */
  function FollowPrepaid(accounts: map<nat, Account>, nextId: nat, token: nat, start: nat, scanLimit: nat): Result<int>
    requires scanLimit > 0
    decreases nextId - start
  {
    match PrepaidQuery(accounts, nextId, token, start, scanLimit)
    case Err(e) => Err(e)
    case Ok(page) =>
      if page.next.None? then Ok(page.partial)
      else
        match FollowPrepaid(accounts, nextId, token, page.next.value, scanLimit)
        case Err(e) => Err(e)
        case Ok(rest) => Ok(page.partial + rest)
  }

  /** The pages add up to the total of one full scan exactly when the last of them ends within u32;
      otherwise the walk traps. */
  lemma {:induction false} PrepaidPagesSum(accounts: map<nat, Account>, nextId: nat, token: nat, start: nat, scanLimit: nat)
    requires scanLimit > 0 && start <= nextId
    requires NoDebts(accounts) && ExactTotal(accounts, token, start, nextId) <= I128_MAX
    ensures FollowPrepaid(accounts, nextId, token, start, scanLimit)
         == (if start == nextId || LastEnd(start, nextId, ScanDepth(scanLimit)) <= U32_MAX then Ok(ExactTotal(accounts, token, start, nextId)) else Err(HostTrap))
    ensures start == 0 ==> TotalPrepaid(accounts, token, nextId) == ExactTotal(accounts, token, 0, nextId)
    decreases nextId - start
  {
    hide LastEnd;
    NothingSaturates(accounts, token, start, nextId);
    if start < nextId {
      var depth := ScanDepth(scanLimit);
      var end := if start + depth < nextId then start + depth else nextId;
      LastEndStep(start, nextId, depth);
      ExactJoin(accounts, token, start, end, nextId);
      ExactNonNegative(accounts, token, start, end);
      ExactNonNegative(accounts, token, end, nextId);
      NothingSaturates(accounts, token, start, end);
      if end < nextId { PrepaidPagesSum(accounts, nextId, token, end, scanLimit); }
    }
  }

  /** The cursor after n queries that each start at the cursor of the one before. */
  function CursorAfter(accounts: map<nat, Account>, nextId: nat, token: nat, start: nat, scanLimit: nat, n: nat): Result<Option<nat>> {
    if n == 0 then Ok(Some(start))
    else
      match CursorAfter(accounts, nextId, token, start, scanLimit, n - 1)
      case Err(e) => Err(e)
      case Ok(None) => Ok(None)
      case Ok(Some(cursor)) =>
        match PrepaidQuery(accounts, nextId, token, cursor, scanLimit)
        case Err(e) => Err(e)
        case Ok(page) => Ok(page.next)
  }

  lemma {:induction false} CursorStays(accounts: map<nat, Account>, nextId: nat, token: nat, start: nat, n: nat)
    requires start < nextId <= U32_MAX
    ensures CursorAfter(accounts, nextId, token, start, 0, n) == Ok(Some(start))
  {
    hide PartialTotal;
    if n > 0 { CursorStays(accounts, nextId, token, start, n - 1); }
  }

  /** Every query moves the cursor on by a page until the last page ends or traps. */
  lemma {:induction false} CursorMoves(accounts: map<nat, Account>, nextId: nat, token: nat, start: nat, scanLimit: nat, n: nat)
    requires start < nextId && scanLimit > 0
    ensures var depth := ScanDepth(scanLimit);
            match CursorAfter(accounts, nextId, token, start, scanLimit, n)
            case Ok(Some(x)) => start + n <= x < nextId && LastEnd(x, nextId, depth) == LastEnd(start, nextId, depth)
            case Ok(None) => LastEnd(start, nextId, depth) <= U32_MAX
            case Err(_) => LastEnd(start, nextId, depth) > U32_MAX
  {
    hide PartialTotal, LastEnd;
    if n > 0 {
      CursorMoves(accounts, nextId, token, start, scanLimit, n - 1);
      match CursorAfter(accounts, nextId, token, start, scanLimit, n - 1) {
        case Ok(Some(x)) => LastEndStep(x, nextId, ScanDepth(scanLimit));
        case Ok(None) =>
        case Err(_) =>
      }
    }
  }

  predicate EndsAfter(accounts: map<nat, Account>, nextId: nat, token: nat, start: nat, scanLimit: nat, n: nat) {
    CursorAfter(accounts, nextId, token, start, scanLimit, n) == Ok(None)
  }

  /** Following the cursors comes to an end if and only if the scan limit is positive and the last
      page ends within u32, and then after at most one query for each id; with a limit of zero the
      cursor never moves. */
  lemma WalkEndsIff(accounts: map<nat, Account>, nextId: nat, token: nat, start: nat, scanLimit: nat)
    requires start < nextId <= U32_MAX
    ensures (exists n: nat :: EndsAfter(accounts, nextId, token, start, scanLimit, n)) <==> scanLimit > 0 && LastEnd(start, nextId, ScanDepth(scanLimit)) <= U32_MAX
    ensures scanLimit > 0 && LastEnd(start, nextId, ScanDepth(scanLimit)) <= U32_MAX ==> EndsAfter(accounts, nextId, token, start, scanLimit, nextId - start)
    ensures scanLimit == 0 ==> forall n: nat :: CursorAfter(accounts, nextId, token, start, scanLimit, n) == Ok(Some(start))
  {
    hide CursorAfter, LastEnd;
    if scanLimit == 0 {
      forall n: nat ensures CursorAfter(accounts, nextId, token, start, scanLimit, n) == Ok(Some(start)) {
        CursorStays(accounts, nextId, token, start, n);
      }
    } else {
      forall n: nat ensures EndsAfter(accounts, nextId, token, start, scanLimit, n) ==> LastEnd(start, nextId, ScanDepth(scanLimit)) <= U32_MAX {
        CursorMoves(accounts, nextId, token, start, scanLimit, n);
      }
      var n: nat := nextId - start;
      CursorMoves(accounts, nextId, token, start, scanLimit, n);
      assert LastEnd(start, nextId, ScanDepth(scanLimit)) <= U32_MAX ==> EndsAfter(accounts, nextId, token, start, scanLimit, n);
    }
  }

  ghost function Below(m: map<nat, int>, n: nat): map<nat, int> { map id | id in m && id < n :: m[id] }

  lemma {:induction false} ExactIsPrepaid(accounts: map<nat, Account>, token: nat, n: nat)
    ensures ExactTotal(accounts, token, 0, n) == Sums.Sum(Below(PrepaidMap(accounts, token), n))
  {
    var all := PrepaidMap(accounts, token);
    if n == 0 {
      assert Below(all, n) == map[];
    } else {
      ExactIsPrepaid(accounts, token, n - 1);
      if n - 1 in all {
        var last: nat, before := n - 1, Below(all, n - 1);
        assert last !in before;
        Sums.SumUpdate(before, last, all[last]);
        assert Below(all, n) == before[last := all[last]];
        assert Sums.Sum(Below(all, n)) == Sums.Sum(before) + all[last];
        assert PrepaidOf(accounts, token, last) == all[last];
      } else {
        assert Below(all, n) == Below(all, n - 1);
      }
    }
  }

  /** In every state satisfying the invariant the pages add up to the prepaid part of what the
      contract owes, as long as the last of them ends within u32. */
  lemma PagesSumToLiability(v: Vault, token: nat, scanLimit: nat)
    requires Inv(v) && Prepaid(v.accounts, token) <= I128_MAX
    requires scanLimit > 0
    ensures FollowPrepaid(v.accounts, v.nextSub, token, 0, scanLimit)
         == (if v.nextSub == 0 || LastEnd(0, v.nextSub, ScanDepth(scanLimit)) <= U32_MAX then Ok(Prepaid(v.accounts, token)) else Err(HostTrap))
  {
    hide FollowPrepaid, ExactTotal, LastEnd, AccountInv, DisputesOk, EscrowsOk, CouponsOk, LedgerOk, ConfigOk;
    forall id | id in v.accounts ensures v.accounts[id].sub.prepaid >= 0 { KnownShape(v, id); }
    ExactIsPrepaid(v.accounts, token, v.nextSub);
    assert Below(PrepaidMap(v.accounts, token), v.nextSub) == PrepaidMap(v.accounts, token);
    PrepaidPagesSum(v.accounts, v.nextSub, token, 0, scanLimit);
  }

  method QueryPrepaid(accounts: map<nat, Account>, nextId: nat, token: nat, start: nat, scanLimit: nat) returns (r: Result<PrepaidPage>)
    ensures r == PrepaidQuery(accounts, nextId, token, start, scanLimit)
  {
    var limit := if scanLimit < MAX_PREPAID_SCAN_DEPTH then scanLimit else MAX_PREPAID_SCAN_DEPTH;
    if nextId == 0 || start >= nextId { return Ok(PrepaidPage(0, None)); }
    if start + limit > U32_MAX { return Err(HostTrap); }
    var end := if start + limit < nextId then start + limit else nextId;
    var partial, id := 0, start;
    while id < end
      invariant start <= id <= end
      invariant partial == PartialTotal(accounts, token, start, id)
    {
      if id in accounts && accounts[id].sub.token == token && accounts[id].sub.prepaid > 0 {
        partial := SaturatingAdd128(partial, accounts[id].sub.prepaid);
      }
      id := id + 1;
    }
    return Ok(PrepaidPage(partial, if end < nextId then Some(end) else None));
  }

  method ComputeTotalPrepaid(accounts: map<nat, Account>, nextId: nat, token: nat) returns (total: int)
    ensures total == TotalPrepaid(accounts, token, nextId)
  {
    total := 0;
    var id := 0;
    while id < nextId
      invariant 0 <= id <= nextId && total == TotalPrepaid(accounts, token, id)
      invariant I128_MIN <= total <= I128_MAX
    {
      if id in accounts && accounts[id].sub.token == token {
        total := SaturatingAdd128(total, accounts[id].sub.prepaid);
      }
      id := id + 1;
    }
  }
}
