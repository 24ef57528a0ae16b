/** The per-subscription buffer of recently used idempotency keys. */
module IdemRing {
  import opened Base

  const IDEM_HISTORY: nat := 64

  /** Stands for the hash of (domain, subscription, raw key), which is taken to be injective. */
  datatype Fingerprint = Fingerprint(domain: nat, subscription: nat, raw: nat)

  datatype Entry = Entry(key: Fingerprint, insertedAt: nat)

  datatype Buffer = Buffer(entries: seq<Entry>, cursor: nat)

  const EMPTY := Buffer([], 0)

  predicate Live(e: Entry, now: nat, ttl: nat) { SaturatingSub(now, e.insertedAt) < ttl }

  /** The live entries, in order. */
  function Filter(s: seq<Entry>, now: nat, ttl: nat): seq<Entry> {
    if s == [] then []
    else Filter(s[..|s| - 1], now, ttl) + (if Live(s[|s| - 1], now, ttl) then [s[|s| - 1]] else [])
  }

  predicate CheckKey(b: Buffer, key: Fingerprint, now: nat, ttl: nat) {
    exists i :: 0 <= i < |b.entries| && b.entries[i].key == key && Live(b.entries[i], now, ttl)
  }

  /** A full buffer is read from its cursor on, any other buffer from the front. */
  function StartOf(b: Buffer): nat {
    if |b.entries| == IDEM_HISTORY then b.cursor % IDEM_HISTORY else 0
  }

  function Ordered(b: Buffer): seq<Entry>
  {
    b.entries[StartOf(b)..] + b.entries[..StartOf(b)]
  }

  function PushKey(b: Buffer, key: Fingerprint, now: nat, ttl: nat): Result<Buffer> {
    var retained := Filter(Ordered(b), now, ttl);
    if |retained| >= IDEM_HISTORY then Err(IdemBufferFull)
    else Ok(Buffer(retained + [Entry(key, now)], 0))
  }

  // ----- Refinement of a timed set -----

  lemma {:induction false} FilterConcat(a: seq<Entry>, b: seq<Entry>, now: nat, ttl: nat)
    ensures Filter(a + b, now, ttl) == Filter(a, now, ttl) + Filter(b, now, ttl)
  {
    if b == [] {
      assert a + b == a;
    } else {
      FilterConcat(a, b[..|b| - 1], now, ttl);
      assert (a + b)[..|a + b| - 1] == a + b[..|b| - 1];
    }
  }

  lemma FilterOne(e: Entry, now: nat, ttl: nat)
    ensures Filter([e], now, ttl) == if Live(e, now, ttl) then [e] else []
  {
    assert [e][..0] == [];
  }

  /** Dropping what has expired loses nothing for any later time and any TTL not longer. */
  lemma {:induction false} FilterLater(s: seq<Entry>, now: nat, ttl: nat, now': nat, ttl': nat)
    requires now <= now' && ttl' <= ttl
    ensures Filter(Filter(s, now, ttl), now', ttl') == Filter(s, now', ttl')
  {
    if s != [] {
      var s', e := s[..|s| - 1], s[|s| - 1];
      FilterLater(s', now, ttl, now', ttl');
      FilterConcat(Filter(s', now, ttl), if Live(e, now, ttl) then [e] else [], now', ttl');
      FilterOne(e, now', ttl');
    }
  }

  lemma {:induction false} FilterMembers(s: seq<Entry>, now: nat, ttl: nat, e: Entry)
    ensures e in Filter(s, now, ttl) <==> e in s && Live(e, now, ttl)
  {
    if s != [] { FilterMembers(s[..|s| - 1], now, ttl, e); }
  }

  /** For every later instant and every TTL not longer, the buffer's live entries are exactly
      the live entries of the full history of accepted keys, in the same order. */
  ghost predicate Refines(b: Buffer, history: seq<Entry>, now: nat, ttl: nat) {
    && b.cursor == 0
    && |b.entries| <= IDEM_HISTORY
    && forall now': nat, ttl': nat :: now <= now' && ttl' <= ttl ==> Filter(b.entries, now', ttl') == Filter(history, now', ttl')
  }

  /** A key is reported exactly when it was accepted less than the TTL ago. */
  lemma CheckIsTimedMembership(b: Buffer, history: seq<Entry>, now: nat, ttl: nat, key: Fingerprint)
    requires Refines(b, history, now, ttl)
    ensures CheckKey(b, key, now, ttl)
       <==> exists i :: 0 <= i < |history| && history[i].key == key && Live(history[i], now, ttl)
  {
    if CheckKey(b, key, now, ttl) {
      var i :| 0 <= i < |b.entries| && b.entries[i].key == key && Live(b.entries[i], now, ttl);
      FilterMembers(b.entries, now, ttl, b.entries[i]);
      FilterMembers(history, now, ttl, b.entries[i]);
      var j :| 0 <= j < |history| && history[j] == b.entries[i];
    }
    if i :| 0 <= i < |history| && history[i].key == key && Live(history[i], now, ttl) {
      FilterMembers(b.entries, now, ttl, history[i]);
      FilterMembers(history, now, ttl, history[i]);
      var j :| 0 <= j < |b.entries| && b.entries[j] == history[i];
    }
  }

  /** Pushing refuses exactly when 64 accepted keys are still live, and otherwise loses no live
      key; either way the buffer never holds more than 64 entries. */
  lemma PushRefines(b: Buffer, history: seq<Entry>, now: nat, ttl: nat, key: Fingerprint)
    requires Refines(b, history, now, ttl)
    ensures |Filter(history, now, ttl)| <= IDEM_HISTORY
    ensures PushKey(b, key, now, ttl).Err? <==> |Filter(history, now, ttl)| == IDEM_HISTORY
    ensures var r := PushKey(b, key, now, ttl);
            r.Ok? ==> Refines(r.value, history + [Entry(key, now)], now, ttl)
  {
    assert Ordered(b) == b.entries;
    FilterShrinks(b.entries, now, ttl);
    var retained := Filter(b.entries, now, ttl);
    var e := Entry(key, now);
    if |retained| < IDEM_HISTORY {
      forall now': nat, ttl': nat | now <= now' && ttl' <= ttl
        ensures Filter(retained + [e], now', ttl') == Filter(history + [e], now', ttl')
      {
        FilterConcat(retained, [e], now', ttl');
        FilterConcat(history, [e], now', ttl');
        FilterLater(b.entries, now, ttl, now', ttl');
      }
    }
  }

  lemma {:induction false} FilterShrinks(s: seq<Entry>, now: nat, ttl: nat)
    ensures |Filter(s, now, ttl)| <= |s|
  {
    if s != [] { FilterShrinks(s[..|s| - 1], now, ttl); }
  }

  // ----- Whole runs -----

  datatype Call = Call(key: Fingerprint, now: nat, ttl: nat)

  /** Buffer and history after a run of push calls; a refused push changes neither. */
  function Run(calls: seq<Call>): (Buffer, seq<Entry>) {
    if calls == [] then (EMPTY, [])
    else
      var (b, h) := Run(calls[..|calls| - 1]);
      var c := calls[|calls| - 1];
      match PushKey(b, c.key, c.now, c.ttl)
      case Ok(b') => (b', h + [Entry(c.key, c.now)])
      case Err(_) => (b, h)
  }

  /** Time never goes back and the TTL is never lengthened. */
  ghost predicate Monotone(calls: seq<Call>) {
    forall i, j :: 0 <= i < j < |calls| ==> calls[i].now <= calls[j].now && calls[j].ttl <= calls[i].ttl
  }

  /** After every such run the buffer refines the timed set of accepted keys. */
  lemma {:induction false} RunRefines(calls: seq<Call>, now: nat, ttl: nat)
    requires Monotone(calls)
    requires calls != [] ==> calls[|calls| - 1].now <= now && ttl <= calls[|calls| - 1].ttl
    ensures Refines(Run(calls).0, Run(calls).1, now, ttl)
  {
    if calls != [] {
      var c := calls[|calls| - 1];
      RunRefines(calls[..|calls| - 1], c.now, c.ttl);
      PushRefines(Run(calls[..|calls| - 1]).0, Run(calls[..|calls| - 1]).1, c.now, c.ttl, c.key);
    }
  }

  predicate AcceptedAt(calls: seq<Call>, i: nat)
    requires i < |calls|
  {
    PushKey(Run(calls[..i]).0, calls[i].key, calls[i].now, calls[i].ttl).Ok?
  }

  /** Call i put the entry in, and it was live at every later call that was accepted. */
  ghost predicate KeptSince(calls: seq<Call>, e: Entry, i: nat)
    requires i < |calls|
  {
    && AcceptedAt(calls, i) && e == Entry(calls[i].key, calls[i].now)
    && forall j :: i < j < |calls| && AcceptedAt(calls, j) ==> Live(e, calls[j].now, calls[j].ttl)
  }

  /** Over every run, whatever the clock and the TTL do: an entry is in the buffer exactly when some
      accepted call put it there and it was live, under the TTL of the time, at each accepted call
      since. So a longer TTL brings back nothing, and forgets what a shorter one pruned. */
  lemma {:induction false} KeptIff(calls: seq<Call>, e: Entry)
    ensures e in Run(calls).0.entries <==> exists i :: 0 <= i < |calls| && KeptSince(calls, e, i)
    ensures Run(calls).0.cursor == 0
  {
    hide PushKey, KeptSince, Live;
    if calls != [] {
      var n := |calls| - 1;
      var c, prior := calls[n], calls[..n];
      KeptIff(prior, e);
      PushMembers(Run(prior).0, c.key, c.now, c.ttl, e);
      forall i | 0 <= i < n
        ensures KeptSince(calls, e, i) <==> KeptSince(prior, e, i) && (AcceptedAt(calls, n) ==> Live(e, c.now, c.ttl))
      {
        KeptOneMore(calls, e, i);
      }
      KeptNow(calls, e);
      if i :| 0 <= i < n && KeptSince(prior, e, i) { assert KeptSince(calls, e, i) <==> AcceptedAt(calls, n) ==> Live(e, c.now, c.ttl); }
    }
  }

  lemma PushMembers(b: Buffer, key: Fingerprint, now: nat, ttl: nat, e: Entry)
    requires b.cursor == 0
    ensures var r := PushKey(b, key, now, ttl);
            r.Ok? ==> r.value.cursor == 0 && (e in r.value.entries <==> (e in b.entries && Live(e, now, ttl)) || e == Entry(key, now))
  {
    assert Ordered(b) == b.entries;
    FilterMembers(b.entries, now, ttl, e);
  }

  lemma KeptNow(calls: seq<Call>, e: Entry)
    requires calls != []
    ensures var n := |calls| - 1; KeptSince(calls, e, n) <==> AcceptedAt(calls, n) && e == Entry(calls[n].key, calls[n].now)
  {
    hide AcceptedAt;
  }

  lemma AcceptedBefore(calls: seq<Call>, n: nat, j: nat)
    requires j < n <= |calls|
    ensures AcceptedAt(calls[..n], j) == AcceptedAt(calls, j) && calls[..n][j] == calls[j]
  {
    hide Run, PushKey;
    assert calls[..n][..j] == calls[..j];
  }

  lemma KeptOneMore(calls: seq<Call>, e: Entry, i: nat)
    requires calls != [] && i < |calls| - 1
    ensures var n := |calls| - 1;
            KeptSince(calls, e, i) <==> KeptSince(calls[..n], e, i) && (AcceptedAt(calls, n) ==> Live(e, calls[n].now, calls[n].ttl))
  {
    hide AcceptedAt, Live;
    var n := |calls| - 1;
    forall j | 0 <= j < n ensures AcceptedAt(calls[..n], j) == AcceptedAt(calls, j) && calls[..n][j] == calls[j] { AcceptedBefore(calls, n, j); }
    if KeptSince(calls[..n], e, i) && (AcceptedAt(calls, n) ==> Live(e, calls[n].now, calls[n].ttl)) {
      forall j | i < j < |calls| && AcceptedAt(calls, j) ensures Live(e, calls[j].now, calls[j].ttl) {
        if j < n { assert AcceptedAt(calls[..n], j); }
      }
    }
    if KeptSince(calls, e, i) {
      forall j | i < j < n && AcceptedAt(calls[..n], j) ensures Live(e, calls[..n][j].now, calls[..n][j].ttl) {
        assert AcceptedAt(calls, j);
      }
    }
  }

  /** The TTL condition is needed: after a longer TTL is configured, a key pruned under the
      shorter one is within the new TTL and yet not reported. */
  lemma LongerTtlForgets()
    ensures exists calls: seq<Call>, key: Fingerprint, now: nat, ttl: nat ::
              && (forall i, j :: 0 <= i < j < |calls| ==> calls[i].now <= calls[j].now && calls[j].ttl == calls[i].ttl)
              && !CheckKey(Run(calls).0, key, now, ttl)
              && exists i :: 0 <= i < |Run(calls).1| && Run(calls).1[i].key == key && Live(Run(calls).1[i], now, ttl)
  {
    var a, b := Fingerprint(5, 0, 1), Fingerprint(5, 0, 2);
    var calls := [Call(a, 0, 10), Call(b, 20, 10)];
    var e, f := Entry(a, 0), Entry(b, 20);
    assert calls[..1] == [calls[0]] && calls[..1][..0] == [];
    assert Ordered(EMPTY) == [];
    var none: seq<Entry> := [];
    assert none + [e] == [e] && none + [f] == [f];
    assert PushKey(EMPTY, a, 0, 10) == Ok(Buffer([e], 0));
    assert Run(calls[..1]) == (Buffer([e], 0), [e]);
    assert Ordered(Buffer([e], 0)) == [e];
    FilterOne(e, 20, 10);
    assert !Live(e, 20, 10);
    assert Filter(Ordered(Buffer([e], 0)), 20, 10) == none;
    assert PushKey(Buffer([e], 0), b, 20, 10) == Ok(Buffer([f], 0));
    assert [e] + [f] == [e, f];
    assert calls[..|calls| - 1] == calls[..1] && calls[|calls| - 1] == calls[1];
    assert Run(calls) == (Buffer([f], 0), [e, f]);
    assert Run(calls).1[0].key == a && Live(Run(calls).1[0], 30, 100);
    assert !CheckKey(Run(calls).0, a, 30, 100);
  }

  // ----- The store itself -----

  class IdemStore {
    var entries: seq<Entry>
    var cursor: nat

    ghost function Value(): Buffer
      reads this
    {
      Buffer(entries, cursor)
    }

    constructor ()
      ensures Value() == EMPTY
    {
      entries, cursor := [], 0;
    }

    method Check(key: Fingerprint, now: nat, ttl: nat) returns (found: bool)
      ensures found == CheckKey(Value(), key, now, ttl)
    {
      var i := 0;
      while i < |entries|
        invariant 0 <= i <= |entries|
        invariant forall j :: 0 <= j < i ==> entries[j].key != key || !Live(entries[j], now, ttl)
      {
        if SaturatingSub(now, entries[i].insertedAt) < ttl && entries[i].key == key {
          return true;
        }
        i := i + 1;
      }
      return false;
    }

    method Push(key: Fingerprint, now: nat, ttl: nat) returns (r: Result<()>)
      modifies this
      ensures var spec := PushKey(old(Value()), key, now, ttl);
              if spec.Ok? then r == Ok(()) && Value() == spec.value
              else r == Err(spec.error) && Value() == old(Value())
    {
      var len := |entries|;
      var kept := entries;
      ghost var all := Ordered(Value());
      if len > 0 {
        var start := if len == IDEM_HISTORY then cursor % len else 0;
        var retained: seq<Entry> := [];
        var offset := 0;
        while offset < len
          invariant 0 <= offset <= len
          invariant entries == old(entries) && cursor == old(cursor)
          invariant retained == Filter(all[..offset], now, ttl)
        {
          var idx := (start + offset) % len;
          RotatedIndex(start, offset, len);
          var entry := entries[idx];
          assert entry == all[offset];
          assert all[..offset + 1][..offset] == all[..offset];
          if SaturatingSub(now, entry.insertedAt) < ttl {
            retained := retained + [entry];
          }
          offset := offset + 1;
        }
        assert all[..len] == all;
        kept := retained;
      }
      if |kept| >= IDEM_HISTORY {
        return Err(IdemBufferFull);
      }
      entries := kept + [Entry(key, now)];
      cursor := 0;
      return Ok(());
    }
  }

  lemma RotatedIndex(start: nat, offset: nat, len: nat)
    requires start < len && offset < len
    ensures (start + offset) % len == if start + offset < len then start + offset else start + offset - len
  {}
}
