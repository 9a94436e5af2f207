/**
  The reload-surviving layer (crates/moaray/src/runtime.rs): one slot object per upstream identity
  and one bucket object per rate-limited key. "The same Arc" is reference equality. Buckets and
  semaphores are library objects; what matters here is which object sits under which key and what it
  was built from.
*/
module Runtime {
  import opened Wrappers
  import opened Config
  import B = Breaker

  class TokenBucket {
    const limit: RateLimit

    constructor (limit: RateLimit)
      ensures this.limit == limit
    {
      this.limit := limit;
    }
  }

  /** The state behind one upstream: limiter, semaphore size, breaker, and what they were built from. */
  class UpstreamState {
    const governance: Governance
    const limiter: Option<TokenBucket>
    const maxConcurrency: Option<nat>
    const breaker: B.CircuitBreaker

    constructor (m: ModelConfig, breaker: B.Config)
      ensures governance == GovernanceOf(m, breaker) && Enforces(governance)
      ensures fresh(this.breaker) && this.breaker.Valid() && this.breaker.history == []
    {
      governance := GovernanceOf(m, breaker);
      if m.rateLimit.Some? {
        var bucket := new TokenBucket(m.rateLimit.value);
        limiter := Some(bucket);
      } else {
        limiter := None;
      }
      maxConcurrency := m.maxConcurrency;
      this.breaker := new B.CircuitBreaker(breaker);
    }

    /** The parts really have the limits that `g` asks for. */
    predicate Enforces(g: Governance) {
      && limiter.Some? == g.rateLimit.Some?
      && (limiter.Some? ==> limiter.value.limit == g.rateLimit.value)
      && maxConcurrency == g.maxConcurrency
      && breaker.cfg == g.breaker
    }
  }

  /** Whether the slot under the model's key may stay. */
  predicate Preserves(slots: map<string, UpstreamState>, m: ModelConfig, breaker: B.Config) {
    m.stateKey in slots && slots[m.stateKey].governance == GovernanceOf(m, breaker)
  }

  /** One turn of the `ensure_for_config` loop; `candidate` is used only when a slot must be built. */
  function EnsureOne(slots: map<string, UpstreamState>, m: ModelConfig, breaker: B.Config, candidate: UpstreamState)
    : map<string, UpstreamState>
  {
    if Preserves(slots, m, breaker) then slots else slots[m.stateKey := candidate]
  }

  /** A slot that the loop may use for `m`: as asked for, and not in use anywhere unless it is the one that stays. */
  predicate Usable(slots: map<string, UpstreamState>, m: ModelConfig, breaker: B.Config, slot: UpstreamState) {
    slot.governance == GovernanceOf(m, breaker) && (Preserves(slots, m, breaker) || slot !in slots.Values)
  }

  /** The whole loop, given what it builds; `made[i]` is the candidate for the model at `n + i`. */
  function EnsureAll(slots: map<string, UpstreamState>, config: RuntimeConfig, n: nat, made: seq<UpstreamState>): map<string, UpstreamState>
    requires n + |made| <= |config.models|
  {
    if made == [] then slots
    else
      var i := |made| - 1;
      EnsureOne(EnsureAll(slots, config, n, made[..i]), config.models[n + i], config.breaker, made[i])
  }

  predicate AllUsable(slots: map<string, UpstreamState>, config: RuntimeConfig, n: nat, made: seq<UpstreamState>)
    requires n + |made| <= |config.models|
  {
    forall i {:trigger EnsureAll(slots, config, n, made[..i])} :: 0 <= i < |made| ==>
      Usable(EnsureAll(slots, config, n, made[..i]), config.models[n + i], config.breaker, made[i])
  }

  /** Each entry is as before or an object that was in no entry. */
  predicate KeptOrNew<T(==)>(before: map<string, T>, after: map<string, T>) {
    forall k :: k in after ==> (k in before && after[k] == before[k]) || after[k] !in before.Values
  }

  /** No object is under two keys. */
  predicate Distinct<T(==)>(m: map<string, T>) {
    forall j, k :: j in m && k in m && j != k ==> m[j] != m[k]
  }

  /** What the loop makes of the slot of one model. */
  predicate EnsuredOne(before: map<string, UpstreamState>, after: map<string, UpstreamState>, m: ModelConfig, breaker: B.Config) {
    && m.stateKey in after
    && after[m.stateKey].governance == GovernanceOf(m, breaker)
    && (Preserves(before, m, breaker) ==> after[m.stateKey] == before[m.stateKey])
  }

  /** What the whole loop makes of the slots `before`, apart from which objects are new. */
  predicate Ensured(before: map<string, UpstreamState>, after: map<string, UpstreamState>, config: RuntimeConfig) {
    && after.Keys == before.Keys + StateKeys(config.models)
    && (forall k :: k in before && k !in StateKeys(config.models) ==> after[k] == before[k])
    && KeptOrNew(before, after)
    && forall i :: 0 <= i < |config.models| ==> EnsuredOne(before, after, config.models[i], config.breaker)
  }

  predicate KeepsBucket(buckets: map<string, TokenBucket>, id: string, limit: RateLimit) {
    id in buckets && buckets[id].limit == limit
  }

  /** One turn of the `install_key_limiters` loop for a rate-limited key. */
  function InstallOne(buckets: map<string, TokenBucket>, id: string, limit: RateLimit, candidate: TokenBucket)
    : map<string, TokenBucket>
  {
    if KeepsBucket(buckets, id, limit) then buckets else buckets[id := candidate]
  }

  /** What the loop does for one key; keys without a limit are passed over. */
  function InstallKey(buckets: map<string, TokenBucket>, k: KeyConfig, candidate: Option<TokenBucket>): map<string, TokenBucket> {
    if k.rateLimit.None? || candidate.None? then buckets else InstallOne(buckets, k.id, k.rateLimit.value, candidate.value)
  }

  /** A bucket that the loop may use for `k`. */
  predicate UsableBucket(buckets: map<string, TokenBucket>, k: KeyConfig, candidate: Option<TokenBucket>) {
    k.rateLimit.Some? ==>
      && candidate.Some? && candidate.value.limit == k.rateLimit.value
      && (KeepsBucket(buckets, k.id, k.rateLimit.value) || candidate.value !in buckets.Values)
  }

  function InstallAll(buckets: map<string, TokenBucket>, keys: seq<KeyConfig>, n: nat, made: seq<Option<TokenBucket>>): map<string, TokenBucket>
    requires n + |made| <= |keys|
  {
    if made == [] then buckets
    else
      var i := |made| - 1;
      InstallKey(InstallAll(buckets, keys, n, made[..i]), keys[n + i], made[i])
  }

  predicate AllBucketsUsable(buckets: map<string, TokenBucket>, keys: seq<KeyConfig>, n: nat, made: seq<Option<TokenBucket>>)
    requires n + |made| <= |keys|
  {
    forall i {:trigger InstallAll(buckets, keys, n, made[..i])} :: 0 <= i < |made| ==>
      UsableBucket(InstallAll(buckets, keys, n, made[..i]), keys[n + i], made[i])
  }

  function Restrict<T>(m: map<string, T>, live: set<string>): (r: map<string, T>)
    ensures r.Keys == m.Keys * live
    ensures forall k :: k in r ==> r[k] == m[k]
  {
    map k | k in m && k in live :: m[k]
  }

  /** The limit of the last rate-limited declaration of `id`; a repeated id is not rejected anywhere. */
  function LastLimit(keys: seq<KeyConfig>, id: string): Option<RateLimit> {
    if keys == [] then None
    else
      var k := keys[|keys|-1];
      if k.id == id && k.rateLimit.Some? then k.rateLimit else LastLimit(keys[..|keys|-1], id)
  }

  lemma {:induction false} LimitedHasLast(keys: seq<KeyConfig>, id: string)
    ensures id in LimitedIds(keys) <==> LastLimit(keys, id).Some?
  {
    if keys != [] {
      var n := |keys| - 1;
      LimitedHasLast(keys[..n], id);
      if id in LimitedIds(keys) {
        var i :| 0 <= i < |keys| && keys[i].rateLimit.Some? && keys[i].id == id;
        if i < n {
          assert keys[..n][i] == keys[i];
        }
      }
      if id in LimitedIds(keys[..n]) {
        var i :| 0 <= i < n && keys[..n][i].rateLimit.Some? && keys[..n][i].id == id;
        assert keys[i].id == id;
      }
    }
  }

  /** Every rate-limited declaration of `id` asks for `limit`. */
  predicate AllAsk(keys: seq<KeyConfig>, id: string, limit: RateLimit) {
    forall i :: 0 <= i < |keys| && keys[i].id == id && keys[i].rateLimit.Some? ==> keys[i].rateLimit.value == limit
  }

  /** What the install loop makes of the bucket of one key. */
  predicate InstalledOne(before: map<string, TokenBucket>, after: map<string, TokenBucket>, keys: seq<KeyConfig>, id: string) {
    match LastLimit(keys, id)
    case None => (id in after <==> id in before) && (id in before ==> after[id] == before[id])
    case Some(limit) =>
      && id in after && after[id].limit == limit
      && (id in before ==> (after[id] == before[id] <==> AllAsk(keys, id, before[id].limit)))
  }

  /** What the install loop makes of the buckets `before`, apart from which objects are new. */
  ghost predicate Installed(before: map<string, TokenBucket>, after: map<string, TokenBucket>, keys: seq<KeyConfig>) {
    forall id :: InstalledOne(before, after, keys, id)
  }

  lemma {:induction false} NoLastAllAsk(keys: seq<KeyConfig>, id: string, limit: RateLimit)
    requires LastLimit(keys, id).None?
    ensures AllAsk(keys, id, limit)
  {
    LimitedHasLast(keys, id);
  }

  /** One turn of the loop covers one more model and spoils none before it. */
  lemma EnsuredNext(before: map<string, UpstreamState>, now: map<string, UpstreamState>, config: RuntimeConfig, n: nat, slot: UpstreamState)
    requires n < |config.models| && ConsistentGovernance(config.models)
    requires Ensured(before, now, config.(models := config.models[..n]))
    requires slot.governance == GovernanceOf(config.models[n], config.breaker)
    requires Preserves(now, config.models[n], config.breaker) || slot !in before.Values
    ensures Ensured(before, EnsureOne(now, config.models[n], config.breaker, slot), config.(models := config.models[..n+1]))
  {
    var m := config.models[n];
    var after := EnsureOne(now, m, config.breaker, slot);
    StateKeysNext(config.models, n);
    LastIsEnsured(before, now, config, n, slot);
    var models := config.models[..n+1];
    forall i | 0 <= i < |models| ensures EnsuredOne(before, after, models[i], config.breaker) {
      if i < n {
        StaysEnsured(before, now, config, n, i, slot);
      }
    }
  }

  lemma StaysEnsured(
    before: map<string, UpstreamState>, now: map<string, UpstreamState>, config: RuntimeConfig, n: nat, i: nat, slot: UpstreamState)
    requires i < n < |config.models| && ConsistentGovernance(config.models)
    requires Ensured(before, now, config.(models := config.models[..n]))
    requires slot.governance == GovernanceOf(config.models[n], config.breaker)
    ensures EnsuredOne(before, EnsureOne(now, config.models[n], config.breaker, slot), config.models[i], config.breaker)
  {
    assert EnsuredOne(before, now, config.models[..n][i], config.breaker);
    assert config.models[i].stateKey == config.models[n].stateKey ==> SameGovernance(config.models[i], config.models[n]);
  }

  lemma LastIsEnsured(before: map<string, UpstreamState>, now: map<string, UpstreamState>, config: RuntimeConfig, n: nat, slot: UpstreamState)
    requires n < |config.models| && ConsistentGovernance(config.models)
    requires Ensured(before, now, config.(models := config.models[..n]))
    requires slot.governance == GovernanceOf(config.models[n], config.breaker)
    ensures EnsuredOne(before, EnsureOne(now, config.models[n], config.breaker, slot), config.models[n], config.breaker)
  {
    var m := config.models[n];
    if m.stateKey in StateKeys(config.models[..n]) {
      var i :| 0 <= i < n && config.models[..n][i].stateKey == m.stateKey;
      assert EnsuredOne(before, now, config.models[..n][i], config.breaker);
      assert SameGovernance(config.models[i], m);
    }
  }

  lemma StateKeysNext(models: seq<ModelConfig>, n: nat)
    requires n < |models|
    ensures StateKeys(models[..n+1]) == StateKeys(models[..n]) + {models[n].stateKey}
  {
  }

  lemma {:induction false} LastLimitNext(keys: seq<KeyConfig>, n: nat, id: string)
    requires n < |keys|
    ensures LastLimit(keys[..n+1], id)
      == if keys[n].id == id && keys[n].rateLimit.Some? then keys[n].rateLimit else LastLimit(keys[..n], id)
  {
    assert keys[..n+1][..n] == keys[..n];
  }

  lemma {:induction false} InstalledNext(
    before: map<string, TokenBucket>, now: map<string, TokenBucket>, keys: seq<KeyConfig>, n: nat, candidate: Option<TokenBucket>)
    requires n < |keys| && Installed(before, now, keys[..n]) && UsableBucket(now, keys[n], candidate)
    requires candidate.Some? && keys[n].rateLimit.Some? ==>
      KeepsBucket(now, keys[n].id, candidate.value.limit) || candidate.value !in before.Values
    ensures Installed(before, InstallKey(now, keys[n], candidate), keys[..n+1])
  {
    var after, upTo := InstallKey(now, keys[n], candidate), keys[..n+1];
    forall id ensures InstalledOne(before, after, upTo, id) {
      LastLimitNext(keys, n, id);
      assert InstalledOne(before, now, keys[..n], id);
      if id in before {
        AllAskNext(keys, n, id, before[id].limit);
        if LastLimit(keys[..n], id).None? {
          NoLastAllAsk(keys[..n], id, before[id].limit);
        }
      }
    }
  }

  lemma AllAskNext(keys: seq<KeyConfig>, n: nat, id: string, limit: RateLimit)
    requires n < |keys|
    ensures AllAsk(keys[..n+1], id, limit) <==>
      AllAsk(keys[..n], id, limit) && (keys[n].id == id && keys[n].rateLimit.Some? ==> keys[n].rateLimit.value == limit)
  {
    assert keys[..n+1] == keys[..n] + [keys[n]];
  }

  /** One more model: the candidates so far stay usable. */
  lemma {:induction false} EnsureAllNext(
    slots: map<string, UpstreamState>, config: RuntimeConfig, n: nat, made: seq<UpstreamState>, slot: UpstreamState)
    requires n + |made| < |config.models| && AllUsable(slots, config, n, made)
    requires Usable(EnsureAll(slots, config, n, made), config.models[n + |made|], config.breaker, slot)
    ensures AllUsable(slots, config, n, made + [slot])
    ensures EnsureAll(slots, config, n, made + [slot])
      == EnsureOne(EnsureAll(slots, config, n, made), config.models[n + |made|], config.breaker, slot)
  {
    hide Usable, EnsureOne;
    var more := made + [slot];
    assert more[..|made|] == made;
    assert EnsureAll(slots, config, n, more)
      == EnsureOne(EnsureAll(slots, config, n, made), config.models[n + |made|], config.breaker, slot);
    hide EnsureAll;
    forall i | 0 <= i < |more|
      ensures Usable(EnsureAll(slots, config, n, more[..i]), config.models[n + i], config.breaker, more[i])
    {
      if i < |made| {
        assert more[..i] == made[..i] && more[i] == made[i];
        assert Usable(EnsureAll(slots, config, n, made[..i]), config.models[n + i], config.breaker, made[i]);
      }
    }
  }

  lemma {:induction false} InstallAllNext(
    buckets: map<string, TokenBucket>, keys: seq<KeyConfig>, n: nat, made: seq<Option<TokenBucket>>, one: Option<TokenBucket>)
    requires n + |made| < |keys| && AllBucketsUsable(buckets, keys, n, made)
    requires UsableBucket(InstallAll(buckets, keys, n, made), keys[n + |made|], one)
    ensures AllBucketsUsable(buckets, keys, n, made + [one])
    ensures InstallAll(buckets, keys, n, made + [one]) == InstallKey(InstallAll(buckets, keys, n, made), keys[n + |made|], one)
  {
    hide UsableBucket, InstallKey;
    var more := made + [one];
    assert more[..|made|] == made;
    forall i | 0 <= i < |more| ensures UsableBucket(InstallAll(buckets, keys, n, more[..i]), keys[n + i], more[i]) {
      assert i < |made| ==> more[..i] == made[..i];
    }
  }

  lemma StaysDistinct(slots: map<string, UpstreamState>, m: ModelConfig, breaker: B.Config, slot: UpstreamState)
    requires Distinct(slots) && Usable(slots, m, breaker, slot)
    ensures Distinct(EnsureOne(slots, m, breaker, slot))
  {
  }

  /** What the ensure loop has done for the first `|made|` models. */
  ghost predicate EnsureProgress(before: map<string, UpstreamState>, now: map<string, UpstreamState>, config: RuntimeConfig, made: seq<UpstreamState>)
  {
    && |made| <= |config.models|
    && Ensured(before, now, config.(models := config.models[..|made|]))
    && (Distinct(before) ==> Distinct(now))
    && AllUsable(before, config, 0, made) && now == EnsureAll(before, config, 0, made)
  }

  lemma EnsureProgresses(
    before: map<string, UpstreamState>, now: map<string, UpstreamState>, config: RuntimeConfig, made: seq<UpstreamState>, slot: UpstreamState)
    requires EnsureProgress(before, now, config, made) && |made| < |config.models| && ConsistentGovernance(config.models)
    requires slot.governance == GovernanceOf(config.models[|made|], config.breaker)
    requires Usable(now, config.models[|made|], config.breaker, slot)
    requires Preserves(now, config.models[|made|], config.breaker) || slot !in before.Values
    ensures EnsureProgress(before, EnsureOne(now, config.models[|made|], config.breaker, slot), config, made + [slot])
  {
    hide Ensured, AllUsable, EnsureAll, EnsureOne, Distinct, Usable;
    EnsuredNext(before, now, config, |made|, slot);
    EnsureAllNext(before, config, 0, made, slot);
    if Distinct(before) {
      StaysDistinct(now, config.models[|made|], config.breaker, slot);
    }
  }

  /** What the install loop has done for the first `|made|` keys. */
  ghost predicate InstallProgress(
    before: map<string, TokenBucket>, now: map<string, TokenBucket>, keys: seq<KeyConfig>, made: seq<Option<TokenBucket>>)
  {
    && |made| <= |keys| && Installed(before, now, keys[..|made|])
    && AllBucketsUsable(before, keys, 0, made) && now == InstallAll(before, keys, 0, made)
  }

  lemma InstallProgresses(
    before: map<string, TokenBucket>, now: map<string, TokenBucket>, keys: seq<KeyConfig>, made: seq<Option<TokenBucket>>, one: Option<TokenBucket>)
    requires InstallProgress(before, now, keys, made) && |made| < |keys| && UsableBucket(now, keys[|made|], one)
    requires one.Some? && keys[|made|].rateLimit.Some? ==>
      KeepsBucket(now, keys[|made|].id, one.value.limit) || one.value !in before.Values
    ensures InstallProgress(before, InstallKey(now, keys[|made|], one), keys, made + [one])
  {
    InstalledNext(before, now, keys, |made|, one);
    InstallAllNext(before, keys, 0, made, one);
  }

  class StatefulState {
    var perUpstream: map<string, UpstreamState>
    var perKey: map<string, TokenBucket>

    constructor ()
      ensures perUpstream == map[] && perKey == map[]
    {
      perUpstream, perKey := map[], map[];
    }

    /**
      A slot for every upstream of the configuration. A slot whose governance is unchanged stays the
      same object, whatever happened to the names and labels of its models; any other slot of the
      configuration is a new object with exactly the wanted limits; slots the configuration does not
      mention are untouched.
    */
    method EnsureForConfig(config: RuntimeConfig) returns (ghost made: seq<UpstreamState>)
      requires ConsistentGovernance(config.models)
      modifies this`perUpstream
      ensures Ensured(old(perUpstream), perUpstream, config)
      ensures Distinct(old(perUpstream)) ==> Distinct(perUpstream)
      ensures forall i :: 0 <= i < |config.models| && !Preserves(old(perUpstream), config.models[i], config.breaker) ==>
        fresh(perUpstream[config.models[i].stateKey])
      ensures |made| == |config.models| && AllUsable(old(perUpstream), config, 0, made)
      ensures perUpstream == EnsureAll(old(perUpstream), config, 0, made)
    {
      made := [];
      for n := 0 to |config.models|
        invariant |made| == n && EnsureProgress(old(perUpstream), perUpstream, config, made)
        invariant forall k :: k in perUpstream && !(k in old(perUpstream) && perUpstream[k] == old(perUpstream[k])) ==> fresh(perUpstream[k])
      {
        var m := config.models[n];
        ghost var now := perUpstream;
        ghost var one;
        if !Preserves(perUpstream, m, config.breaker) {
          var slot := new UpstreamState(m, config.breaker);
          perUpstream := perUpstream[m.stateKey := slot];
          one := slot;
        } else {
          one := perUpstream[m.stateKey];
        }
        EnsureProgresses(old(perUpstream), now, config, made, one);
        made := made + [one];
      }
      assert config.models[..|config.models|] == config.models;
    }

    /**
      A bucket for every rate-limited key, carrying the limit of its last declaration: the same object
      as before when every declaration of that key asks for the limit it already had, a new one
      otherwise. Other buckets are untouched.
    */
    method InstallKeyLimiters(config: RuntimeConfig) returns (updated: nat, ghost made: seq<Option<TokenBucket>>)
      modifies this`perKey
      ensures Installed(old(perKey), perKey, config.keys)
      ensures updated == 0 <==> perKey == old(perKey)
      ensures forall id :: id in perKey && !(id in old(perKey) && perKey[id] == old(perKey[id])) ==> fresh(perKey[id])
      ensures |made| == |config.keys| && AllBucketsUsable(old(perKey), config.keys, 0, made)
      ensures perKey == InstallAll(old(perKey), config.keys, 0, made)
    {
      updated, made := 0, [];
      assert config.keys[..0] == [];
      for n := 0 to |config.keys|
        invariant |made| == n && InstallProgress(old(perKey), perKey, config.keys, made)
        invariant updated == 0 <==> perKey == old(perKey)
        invariant forall id :: id in perKey && !(id in old(perKey) && perKey[id] == old(perKey[id])) ==> fresh(perKey[id])
      {
        var k := config.keys[n];
        ghost var now := perKey;
        ghost var one: Option<TokenBucket> := None;
        if k.rateLimit.Some? {
          if KeepsBucket(perKey, k.id, k.rateLimit.value) {
            one := Some(perKey[k.id]);
          } else {
            var bucket := new TokenBucket(k.rateLimit.value);
            perKey := perKey[k.id := bucket];
            updated := updated + 1;
            one := Some(bucket);
          }
        }
        InstallProgresses(old(perKey), now, config.keys, made, one);
        made := made + [one];
      }
      assert config.keys[..|config.keys|] == config.keys;
    }

    /** Garbage collection: exactly the slots of the given configuration's upstreams survive. */
    method RetainForConfig(config: RuntimeConfig) returns (removed: nat)
      modifies this`perUpstream
      ensures perUpstream == Restrict(old(perUpstream), StateKeys(config.models))
      ensures removed + |perUpstream| == old(|perUpstream|)
    {
      ghost var dropped := perUpstream.Keys - StateKeys(config.models);
      var before := |perUpstream|;
      assert perUpstream.Keys == Restrict(perUpstream, StateKeys(config.models)).Keys + dropped;
      perUpstream := Restrict(perUpstream, StateKeys(config.models));
      removed := before - |perUpstream|;
    }

    /** Exactly the buckets of keys that still declare a limit survive. */
    method RetainKeyLimiters(config: RuntimeConfig) returns (removed: nat)
      modifies this`perKey
      ensures perKey == Restrict(old(perKey), LimitedIds(config.keys))
      ensures removed + |perKey| == old(|perKey|)
    {
      ghost var dropped := perKey.Keys - LimitedIds(config.keys);
      var before := |perKey|;
      assert perKey.Keys == Restrict(perKey, LimitedIds(config.keys)).Keys + dropped;
      perKey := Restrict(perKey, LimitedIds(config.keys));
      removed := before - |perKey|;
    }
  }
}
