/** Per-period billing snapshots of one subscription, with a bounded index of period numbers. */
module Snapshots {
  import opened Base

  const MAX_SNAPSHOTS: nat := 365

  datatype Flags = Flags(closed: bool, intervalCharged: bool, usageCharged: bool, empty: bool)

  datatype Snapshot = Snapshot(
    period: nat, start: nat, end: nat, charged: int, units: int, flags: Flags, finalizedAt: nat)

  datatype Store = Store(index: seq<nat>, snaps: map<nat, Snapshot>)

  const EMPTY := Store([], map[])

  function Union(a: Flags, b: Flags): Flags {
    Flags(a.closed || b.closed, a.intervalCharged || b.intervalCharged, a.usageCharged || b.usageCharged, a.empty || b.empty)
  }

  /** The snapshot to store: merged with an open one of the same period. */
  function Merged(s: Snapshot, existing: Option<Snapshot>): Result<Snapshot> {
    match existing
    case None => Ok(s)
    case Some(e) =>
      if e.flags.closed then Err(InvalidStatusTransition)
      else if !InI128(e.charged + s.charged) || !InI128(e.units + s.units) then Err(Overflow)
      else Ok(Snapshot(s.period, e.start, Max(s.end, e.end), e.charged + s.charged, e.units + s.units,
                       Union(s.flags, e.flags), Max(s.finalizedAt, e.finalizedAt)))
  }

  /** A closed period in which nothing was charged is marked empty. */
  function MarkEmpty(s: Snapshot): Snapshot {
    if s.flags.closed && !s.flags.intervalCharged && !s.flags.usageCharged then s.(flags := s.flags.(empty := true)) else s
  }

  function Evict(store: Store): Store {
    if |store.index| <= MAX_SNAPSHOTS then store
    else
      var n := |store.index| - MAX_SNAPSHOTS;
      Store(store.index[n..], store.snaps - (set p | p in store.index[..n]))
  }

  /** The record a write would store, or the reason it is refused. */
  function Final(store: Store, s: Snapshot): Result<Snapshot> {
    if s.start > s.end then Err(InvalidInput)
    else if s.flags.intervalCharged && s.start >= s.end then Err(InvalidInput)
    else
      match Merged(s, if s.period in store.snaps then Some(store.snaps[s.period]) else None)
      case Err(e) => Err(e)
      case Ok(merged) =>
        var final := MarkEmpty(merged);
        if !final.flags.empty && final.charged <= 0 then Err(InvalidInput) else Ok(final)
  }

  function Put(store: Store, s: Snapshot): Store {
    if s.period in store.snaps then Store(store.index, store.snaps[s.period := s])
    else Evict(Store(store.index + [s.period], store.snaps[s.period := s]))
  }

  function Write(store: Store, s: Snapshot): Result<Store> {
    match Final(store, s)
    case Err(e) => Err(e)
    case Ok(final) => Ok(Put(store, final))
  }

  // ----- Invariant -----

  /** The index is strictly increasing and bounded, and lists exactly the stored periods. */
  ghost predicate Valid(store: Store) {
    |store.index| <= MAX_SNAPSHOTS && Sound(store)
  }

  ghost predicate Sound(store: Store) {
    && Increasing(store.index)
    && (forall p :: p in store.snaps <==> p in store.index)
    && (forall p :: p in store.snaps ==> store.snaps[p].period == p && Billable(store.snaps[p]))
  }

  /** A stored snapshot carries money unless it is marked empty. */
  predicate Billable(s: Snapshot) { s.flags.empty || s.charged > 0 }

  ghost predicate Increasing(s: seq<nat>) {
    forall i, j :: 0 <= i < j < |s| ==> s[i] < s[j]
  }

  /** No stored period lies after the given one. */
  ghost predicate UpTo(store: Store, period: nat) {
    forall p :: p in store.index ==> p <= period
  }

  /** What is written merges with an open snapshot of its period and closes what either closed. */
  lemma FinalShape(store: Store, s: Snapshot)
    ensures Final(store, s).Ok? ==>
              var f := Final(store, s).value;
              && f.period == s.period && Billable(f)
              && (s.period in store.snaps ==> !store.snaps[s.period].flags.closed)
              && (f.flags.closed <==> s.flags.closed)
              && f.charged == s.charged + (if s.period in store.snaps then store.snaps[s.period].charged else 0)
  {}

  lemma EvictKeeps(store: Store, last: nat)
    requires Sound(store) && |store.index| <= MAX_SNAPSHOTS + 1
    requires last in store.index && UpTo(store, last)
    ensures Valid(Evict(store)) && UpTo(Evict(store), last) && last in Evict(store).snaps
    ensures forall p :: p in Evict(store).snaps ==> p in store.snaps && Evict(store).snaps[p] == store.snaps[p]
  {
    if |store.index| > MAX_SNAPSHOTS {
      var i :| 0 <= i < |store.index| && store.index[i] == last;
      assert store.index[MAX_SNAPSHOTS] in store.index;
      assert i == MAX_SNAPSHOTS;
      assert store.index[1..][MAX_SNAPSHOTS - 1] == last;
      SplitIncreasing(store.index, 1);
    }
  }

  lemma PutKeeps(store: Store, s: Snapshot)
    requires Valid(store) && UpTo(store, s.period) && Billable(s)
    ensures var r := Put(store, s);
            && Valid(r) && UpTo(r, s.period) && s.period in r.snaps && r.snaps[s.period] == s
            && (forall p :: p in r.snaps && p != s.period ==> p in store.snaps && r.snaps[p] == store.snaps[p])
  {
    if s.period !in store.snaps {
      var grown := Store(store.index + [s.period], store.snaps[s.period := s]);
      GrowIncreasing(store, s.period);
      assert grown.index[|store.index|] == s.period;
      assert Sound(grown);
      EvictKeeps(grown, s.period);
    }
  }

  /** Writing in period order keeps the invariant; no other period's snapshot changes, and a
      closed snapshot refuses the write. */
  lemma WriteKeeps(store: Store, s: Snapshot)
    requires Valid(store) && UpTo(store, s.period)
    ensures var r := Write(store, s);
            r.Ok? ==>
              && Valid(r.value) && UpTo(r.value, s.period) && s.period in r.value.snaps
              && (forall p :: p in r.value.snaps && p != s.period ==> p in store.snaps && r.value.snaps[p] == store.snaps[p])
              && (s.period in store.snaps ==> !store.snaps[s.period].flags.closed)
              && (r.value.snaps[s.period].flags.closed <==> s.flags.closed)
  {
    FinalShape(store, s);
    if Final(store, s).Ok? {
      PutKeeps(store, Final(store, s).value);
    }
  }

  lemma GrowIncreasing(store: Store, period: nat)
    requires Valid(store) && UpTo(store, period) && period !in store.snaps
    ensures Increasing(store.index + [period])
  {
    forall i | 0 <= i < |store.index| ensures store.index[i] < period {
      assert store.index[i] in store.index && store.index[i] in store.snaps;
    }
  }

  lemma SplitIncreasing(s: seq<nat>, n: nat)
    requires Increasing(s) && n <= |s|
    ensures forall p :: p in s <==> p in s[..n] || p in s[n..]
    ensures forall p :: p in s[..n] ==> p !in s[n..]
    ensures Increasing(s[n..])
  {
    assert s == s[..n] + s[n..];
    forall p | p in s[..n] ensures p !in s[n..] {
      var i :| 0 <= i < n && s[..n][i] == p;
      assert s[i] == p;
      forall j | 0 <= j < |s[n..]| ensures s[n..][j] != p { assert s[n..][j] == s[n + j]; }
    }
  }

  // ----- Whole runs -----

  function Run(ws: seq<Snapshot>): Store {
    if ws == [] then EMPTY
    else
      var before := Run(ws[..|ws| - 1]);
      var r := Write(before, ws[|ws| - 1]);
      if r.Ok? then r.value else before
  }

  /** Writes arrive in period order, as they do under a clock that never goes back. */
  ghost predicate InOrder(ws: seq<Snapshot>) {
    forall i, j :: 0 <= i < j < |ws| ==> ws[i].period <= ws[j].period
  }

  lemma {:induction false} RunValid(ws: seq<Snapshot>, period: nat)
    requires InOrder(ws) && (ws != [] ==> ws[|ws| - 1].period <= period)
    ensures Valid(Run(ws)) && UpTo(Run(ws), period)
  {
    if ws != [] {
      var w := ws[|ws| - 1];
      RunValid(ws[..|ws| - 1], w.period);
      WriteKeeps(Run(ws[..|ws| - 1]), w);
    }
  }

  // ----- Which periods are stored -----

  /** The periods of the writes that were taken, each once, in order. */
  function PeriodsTaken(ws: seq<Snapshot>): seq<nat> {
    if ws == [] then []
    else
      var prior, w := ws[..|ws| - 1], ws[|ws| - 1];
      var periods := PeriodsTaken(prior);
      if Write(Run(prior), w).Ok? && (periods == [] || periods[|periods| - 1] != w.period) then periods + [w.period] else periods
  }

  function LastOf(s: seq<nat>, n: nat): seq<nat> { if |s| <= n then s else s[|s| - n..] }

  /** The store keeps exactly the 365 latest periods ever written. */
  lemma {:induction false} KeepsLatest(ws: seq<Snapshot>)
    requires InOrder(ws)
    ensures Run(ws).index == LastOf(PeriodsTaken(ws), 365)
    ensures forall i :: 0 <= i < |PeriodsTaken(ws)| ==> ws != [] && PeriodsTaken(ws)[i] <= ws[|ws| - 1].period
    ensures Increasing(PeriodsTaken(ws))
  {
    hide Write;
    if ws != [] {
      var prior, w := ws[..|ws| - 1], ws[|ws| - 1];
      assert forall i :: 0 <= i < |prior| ==> prior[i] == ws[i];
      KeepsLatest(prior);
      RunValid(prior, w.period);
      if Write(Run(prior), w).Ok? { IndexGrows(Run(prior), w, PeriodsTaken(prior)); }
    }
  }

  /** One write that is taken, on a store that keeps the latest of some periods. */
  lemma IndexGrows(store: Store, w: Snapshot, periods: seq<nat>)
    requires Valid(store) && UpTo(store, w.period) && store.index == LastOf(periods, 365) && Increasing(periods)
    requires Write(store, w).Ok? && forall i :: 0 <= i < |periods| ==> periods[i] <= w.period
    ensures Write(store, w).value.index
         == LastOf(if periods == [] || periods[|periods| - 1] != w.period then periods + [w.period] else periods, 365)
  {
    hide Final;
    assert Write(store, w).value == Put(store, Final(store, w).value);
    FinalShape(store, w);
    if periods != [] && periods[|periods| - 1] == w.period {
      assert store.index[|store.index| - 1] == w.period;
    } else {
      forall i | 0 <= i < |store.index| ensures store.index[i] != w.period {
        assert store.index[i] == periods[|periods| - |store.index| + i];
      }
    }
  }

  // ----- What a stored snapshot says -----

  /** The writes of one period that were taken, in order. */
  function Taken(ws: seq<Snapshot>, p: nat): seq<Snapshot> {
    if ws == [] then []
    else
      var prior, w := ws[..|ws| - 1], ws[|ws| - 1];
      Taken(prior, p) + (if w.period == p && Write(Run(prior), w).Ok? then [w] else [])
  }

  function TotalCharged(ws: seq<Snapshot>): int { if ws == [] then 0 else TotalCharged(ws[..|ws| - 1]) + ws[|ws| - 1].charged }

  function TotalUnits(ws: seq<Snapshot>): int { if ws == [] then 0 else TotalUnits(ws[..|ws| - 1]) + ws[|ws| - 1].units }

  /** The snapshot starts with the first write, ends with the latest, adds up amounts and units, and is
      flagged for whatever any write was flagged for; a closed one without a charge counts as empty. */
  ghost predicate Summarises(s: Snapshot, ws: seq<Snapshot>) {
    && ws != [] && s.start == ws[0].start
    && s.charged == TotalCharged(ws) && s.units == TotalUnits(ws)
    && (forall i :: 0 <= i < |ws| ==> ws[i].end <= s.end && ws[i].finalizedAt <= s.finalizedAt)
    && (exists i :: 0 <= i < |ws| && ws[i].end == s.end) && (exists i :: 0 <= i < |ws| && ws[i].finalizedAt == s.finalizedAt)
    && (s.flags.closed <==> exists i :: 0 <= i < |ws| && ws[i].flags.closed)
    && (s.flags.intervalCharged <==> exists i :: 0 <= i < |ws| && ws[i].flags.intervalCharged)
    && (s.flags.usageCharged <==> exists i :: 0 <= i < |ws| && ws[i].flags.usageCharged)
    && (s.flags.empty <==> (exists i :: 0 <= i < |ws| && ws[i].flags.empty) || (s.flags.closed && !s.flags.intervalCharged && !s.flags.usageCharged))
  }

  lemma FirstSummarises(store: Store, w: Snapshot)
    requires w.period !in store.snaps && Final(store, w).Ok?
    ensures Summarises(Final(store, w).value, [w])
  {
    assert [w][..0] == [] && [w][0] == w;
  }

  lemma NextSummarises(store: Store, w: Snapshot, ws: seq<Snapshot>)
    requires w.period in store.snaps && Final(store, w).Ok? && Summarises(store.snaps[w.period], ws)
    ensures Summarises(Final(store, w).value, ws + [w])
  {
    var earlier, f, all := store.snaps[w.period], Final(store, w).value, ws + [w];
    assert all[..|all| - 1] == ws && all[|ws|] == w;
    assert forall i :: 0 <= i < |ws| ==> all[i] == ws[i];
    var i :| 0 <= i < |ws| && ws[i].end == earlier.end;
    var j :| 0 <= j < |ws| && ws[j].finalizedAt == earlier.finalizedAt;
    assert all[i].end == earlier.end && all[j].finalizedAt == earlier.finalizedAt;
  }

  /** After any run in period order, what is stored for a period is the summary of the writes of it
      that were taken. */
  lemma {:induction false} StoredIsSummary(ws: seq<Snapshot>, p: nat)
    requires InOrder(ws)
    ensures p in Run(ws).snaps ==> Summarises(Run(ws).snaps[p], Taken(ws, p))
    ensures p !in Run(ws).snaps && (forall i :: 0 <= i < |ws| ==> ws[i].period <= p) ==> Taken(ws, p) == []
  {
    hide Write, Summarises, Final, Put;
    if ws != [] {
      var prior, w := ws[..|ws| - 1], ws[|ws| - 1];
      StoredIsSummary(prior, p);
      RunValid(prior, w.period);
      WriteKeeps(Run(prior), w);
      assert forall i :: 0 <= i < |prior| ==> prior[i] == ws[i];
      if Write(Run(prior), w).Ok? {
        WriteStoresFinal(Run(prior), w);
        if w.period == p {
          if p in Run(prior).snaps {
            NextSummarises(Run(prior), w, Taken(prior, p));
          } else {
            assert Taken(ws, p) == [] + [w] == [w];
            FirstSummarises(Run(prior), w);
          }
        } else {
          assert Taken(ws, p) == Taken(prior, p);
        }
      } else {
        assert Run(ws) == Run(prior) && Taken(ws, p) == Taken(prior, p);
      }
    }
  }

  lemma WriteStoresFinal(store: Store, w: Snapshot)
    requires Valid(store) && UpTo(store, w.period) && Write(store, w).Ok?
    ensures Final(store, w).Ok? && w.period in Write(store, w).value.snaps && Write(store, w).value.snaps[w.period] == Final(store, w).value
  {
    FinalShape(store, w);
    PutKeeps(store, Final(store, w).value);
  }

  /** Once closed, a snapshot reads the same for the rest of the run or is gone for good. */
  lemma {:induction false} ClosedForGood(ws: seq<Snapshot>, n: nat, p: nat)
    requires InOrder(ws) && n <= |ws|
    requires p in Run(ws[..n]).snaps && Run(ws[..n]).snaps[p].flags.closed
    ensures p in Run(ws).snaps ==> Run(ws).snaps[p] == Run(ws[..n]).snaps[p]
  {
    if n < |ws| {
      var w := ws[|ws| - 1];
      var before := Run(ws[..|ws| - 1]);
      assert ws[..|ws| - 1][..n] == ws[..n];
      ClosedForGood(ws[..|ws| - 1], n, p);
      RunValid(ws[..|ws| - 1], w.period);
      WriteKeeps(before, w);
      if p == w.period && p !in before.snaps {
        ClosedLatestStays(ws[..|ws| - 1], n, p);
      }
    } else {
      assert ws[..n] == ws;
    }
  }

  /** The latest period is never the one evicted. */
  lemma {:induction false} ClosedLatestStays(ws: seq<Snapshot>, n: nat, p: nat)
    requires InOrder(ws) && n <= |ws|
    requires p in Run(ws[..n]).snaps
    requires forall i :: 0 <= i < |ws| ==> ws[i].period <= p
    ensures p in Run(ws).snaps
  {
    if n < |ws| {
      var w, before := ws[|ws| - 1], Run(ws[..|ws| - 1]);
      assert ws[..|ws| - 1][..n] == ws[..n];
      ClosedLatestStays(ws[..|ws| - 1], n, p);
      RunValid(ws[..|ws| - 1], w.period);
      if Write(before, w).Ok? { LastSurvives(before, w, p); }
    } else {
      assert ws[..n] == ws;
    }
  }

  lemma LastSurvives(store: Store, s: Snapshot, p: nat)
    requires Valid(store) && UpTo(store, s.period) && p in store.snaps && s.period <= p
    requires Write(store, s).Ok?
    ensures p in Write(store, s).value.snaps
  {
    assert s.period == p;
  }

  // ----- The store itself -----

  /** The newest snapshots first, at most limit of them. */
  function Listing(store: Store, limit: nat): seq<Snapshot>
    requires forall p :: p in store.index ==> p in store.snaps
  {
    seq(Min(limit, |store.index|), i requires 0 <= i < Min(limit, |store.index|) => store.snaps[store.index[|store.index| - 1 - i]])
  }

  class SnapshotStore {
    var index: seq<nat>
    var snaps: map<nat, Snapshot>

    ghost function Value(): Store
      reads this
    {
      Store(index, snaps)
    }

    constructor ()
      ensures Value() == EMPTY
    {
      index, snaps := [], map[];
    }

    method WriteSnapshot(s: Snapshot) returns (r: Result<()>)
      modifies this
      ensures var spec := Write(old(Value()), s);
              if spec.Ok? then r == Ok(()) && Value() == spec.value
              else r == Err(spec.error) && Value() == old(Value())
    {
      if s.start > s.end {
        return Err(InvalidInput);
      }
      if s.flags.intervalCharged && s.start >= s.end {
        return Err(InvalidInput);
      }
      var snapshot, isNew := s, true;
      if s.period in snaps {
        var existing := snaps[s.period];
        if existing.flags.closed {
          return Err(InvalidStatusTransition);
        }
        isNew := false;
        if !InI128(existing.charged + snapshot.charged) || !InI128(existing.units + snapshot.units) {
          return Err(Overflow);
        }
        snapshot := snapshot.(charged := existing.charged + snapshot.charged, units := existing.units + snapshot.units);
        snapshot := snapshot.(flags := Union(snapshot.flags, existing.flags));
        snapshot := snapshot.(start := existing.start, end := Max(snapshot.end, existing.end));
        snapshot := snapshot.(finalizedAt := Max(snapshot.finalizedAt, existing.finalizedAt));
      }
      if snapshot.flags.closed {
        if !snapshot.flags.intervalCharged && !snapshot.flags.usageCharged {
          snapshot := snapshot.(flags := snapshot.flags.(empty := true));
        }
      }
      if !snapshot.flags.empty && snapshot.charged <= 0 {
        return Err(InvalidInput);
      }
      snaps := snaps[s.period := snapshot];
      if isNew {
        PushIndex(s.period);
      }
      return Ok(());
    }

    /** Appends a period to the index and drops the oldest ones beyond the bound. */
    method PushIndex(period: nat)
      modifies this
      ensures Value() == Evict(Store(old(index) + [period], old(snaps)))
    {
      var idx := index + [period];
      ghost var grown, n := idx, 0;
      while |idx| > MAX_SNAPSHOTS
        invariant n <= |grown| && idx == grown[n..] && (n > 0 ==> |idx| >= MAX_SNAPSHOTS)
        invariant snaps == old(snaps) - (set p | p in grown[..n])
        decreases |idx|
      {
        var oldest := idx[0];
        idx := idx[1..];
        snaps := snaps - {oldest};
        assert grown[..n + 1] == grown[..n] + [oldest];
        n := n + 1;
      }
      index := idx;
    }

    method List(limit: nat) returns (r: seq<Snapshot>)
      requires forall p :: p in index ==> p in snaps
      ensures r == Listing(Value(), limit)
    {
      r := [];
      var count := Min(limit, |index|);
      for i := 0 to count
        invariant r == Listing(Value(), limit)[..i]
      {
        var period := index[|index| - 1 - i];
        if period in snaps {
          r := r + [snaps[period]];
        }
      }
    }
  }
}
