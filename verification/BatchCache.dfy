/** The batch loop reads merchant status and administrator settings once and keeps them; it
    charges exactly as a loop that reads them for every item. */
module BatchCache {
  import opened Base
  import opened Accounts
  import opened Vault
  import opened VaultFrames

  /** Everything cached is what storage still says. */
  predicate CacheOk(cache: Option<Cache>, cfg: Config, now: nat) {
    cache.Some? ==> forall m :: m in cache.value ==> cache.value[m] == MerchantStatus(cfg, m, now)
  }

  lemma LookupAgrees(v: Vault, merchant: nat, cache: Option<Cache>)
    requires CacheOk(cache, v.cfg, v.now)
    ensures LookupStatus(v, merchant, cache).0 == LookupStatus(v, merchant, None).0
    ensures CacheOk(LookupStatus(v, merchant, cache).1, v.cfg, v.now)
  {}

  /** One item: same state, same result, and the cache stays right. */
  lemma ChargeAgrees(v: Vault, id: nat, key: Option<nat>, cache: Option<Cache>)
    requires CacheOk(cache, v.cfg, v.now)
    ensures var c, u := ChargeOne(v, id, key, ReadAdmin(v.cfg), cache), ChargeOne(v, id, key, None, None);
            c.vault == u.vault && c.result == u.result && CacheOk(c.cache, v.cfg, v.now)
  {
    hide DecideInterval, Carry, PartyObstacle, LookupStatus;
    if id in v.accounts { LookupAgrees(v, v.accounts[id].sub.merchant, cache); }
  }

  /** The whole batch, for every state, list of ids and list of keys: the same final state, the
      same results in the same order, and the same abort. */
  lemma {:induction false} CachedBatchAgrees(v: Vault, ids: seq<nat>, keys: Option<seq<nat>>, n: nat)
    requires n <= |ids|
    ensures var b, u := BatchRun(v, ids, keys, ReadAdmin(v.cfg), Some(map[]), n), BatchRun(v, ids, keys, None, None, n);
            && b.vault == u.vault && b.results == u.results && b.trapped == u.trapped
            && u.cache == None && CacheOk(b.cache, v.cfg, v.now)
            && b.vault.cfg == v.cfg && b.vault.now == v.now
  {
    hide ChargeOne;
    if n > 0 {
      CachedBatchAgrees(v, ids, keys, n - 1);
      var b := BatchRun(v, ids, keys, ReadAdmin(v.cfg), Some(map[]), n - 1);
      if !b.trapped {
        ChargeAgrees(b.vault, ids[n - 1], KeyAt(keys, n - 1), b.cache);
        ChargeOneFrame(b.vault, ids[n - 1], KeyAt(keys, n - 1), None, None);
        NoCache(b.vault, ids[n - 1], KeyAt(keys, n - 1));
      }
    }
  }

  lemma NoCache(v: Vault, id: nat, key: Option<nat>)
    ensures ChargeOne(v, id, key, None, None).cache == None
  {
    hide DecideInterval, Carry, PartyObstacle;
  }

  /** While the contract is not stopped, a batch of one behaves as the single-charge entrypoint,
      except that a refused charge is reported instead of rolled back. */
  lemma SingletonBatch(v: Vault, id: nat)
    ensures var c := ChargeOne(v, id, None, None, None);
            !v.cfg.emergencyStop && c.result != Err(HostTrap) ==>
              && BatchCharge(v, [id], None) == Ok((c.vault, [ToItem(id, c.result)]))
              && (c.result.Ok? ==> ChargeSubscription(v, id, None) == Ok((BatchCharge(v, [id], None).value.0, c.result.value)))
    ensures v.cfg.emergencyStop ==> BatchCharge(v, [id], None) == Err(EmergencyStopActive) && ChargeSubscription(v, id, None) == Err(EmergencyStopActive)
  {
    hide ChargeOne;
    if v.cfg.emergencyStop { Stopped(v, id); }
    assert !HasDuplicate([id]);
    CachedBatchAgrees(v, [id], None, 1);
    var none: seq<ItemResult> := [];
    assert none + [ToItem(id, ChargeOne(v, id, None, None, None).result)] == [ToItem(id, ChargeOne(v, id, None, None, None).result)];
    assert BatchRun(v, [id], None, None, None, 0) == BatchState(v, None, [], false);
    assert KeyAt(None, 0) == None;
  }

  lemma Stopped(v: Vault, id: nat)
    requires v.cfg.emergencyStop
    ensures ChargeSubscription(v, id, None) == Err(EmergencyStopActive)
  {}
}
