/**
  State-preserving, all-or-nothing hot reload (crates/moaray/src/reload.rs), on values.
*/
module Reload {
  import opened Wrappers
  import opened Config
  import opened Runtime
  import opened Signatures
  import opened Registry

  /** The hot-swapped snapshot: the configuration, the passthrough providers and the MoA resolver. */
  datatype Published = Published(
    config: RuntimeConfig, providers: map<string, Provider>, resolver: map<string, Provider>)

  /** Every model has a provider, and MoA arms resolve to the very same objects. */
  predicate Serves(rt: Published) {
    Sound(rt.config) && rt.providers.Keys == Names(rt.config.models) && rt.resolver == rt.providers
  }

  /** Every model has a slot with the model's own limits. */
  predicate Fits(slots: map<string, UpstreamState>, c: RuntimeConfig) {
    forall i :: 0 <= i < |c.models| ==> Preserves(slots, c.models[i], c.breaker)
  }

  /** What is known of a published provider: what it was built as, and that its slot has the model's own limits. */
  predicate DescribedModel(built: map<string, BuiltProvider>, rt: Published, m: ModelConfig) {
    && m.name in built && m.name in rt.providers && built[m.name].provider == rt.providers[m.name]
    && built[m.name].signature == built[m.name].provider.inputs
    && built[m.name].signature.governance == GovernanceOf(m, rt.config.breaker)
    && rt.providers[m.name].slot.governance == GovernanceOf(m, rt.config.breaker)
  }

  predicate Describes(built: map<string, BuiltProvider>, rt: Published) {
    && built.Keys == Names(rt.config.models)
    && forall i :: 0 <= i < |rt.config.models| ==> DescribedModel(built, rt, rt.config.models[i])
  }

  /** The model's provider is bound to the slot object under its state key. */
  predicate BoundModel(rt: Published, slots: map<string, UpstreamState>, m: ModelConfig) {
    m.name in rt.providers && m.stateKey in slots && rt.providers[m.name].slot == slots[m.stateKey]
  }

  predicate Binds(rt: Published, slots: map<string, UpstreamState>) {
    forall i :: 0 <= i < |rt.config.models| ==> BoundModel(rt, slots, rt.config.models[i])
  }

  predicate TaggedModel(built: map<string, BuiltProvider>, m: ModelConfig) {
    m.name in built && built[m.name].signature.stateKey == m.stateKey
  }

  /** Each provider was built for the upstream its model now has. */
  predicate Tagged(built: map<string, BuiltProvider>, c: RuntimeConfig) {
    forall i :: 0 <= i < |c.models| ==> TaggedModel(built, c.models[i])
  }

  /** Each rate-limited key, and no other, has a bucket, and it carries the key's limit. */
  predicate Limits(buckets: map<string, TokenBucket>, keys: seq<KeyConfig>) {
    && buckets.Keys == LimitedIds(keys)
    && forall id :: id in buckets ==> LastLimit(keys, id) == Some(buckets[id].limit)
  }

  predicate BothLimit(a: KeyConfig, b: KeyConfig) { a.id == b.id && a.rateLimit.Some? && b.rateLimit.Some? }

  /** Repeated declarations of a key, if any, ask for the same limit. */
  predicate NoConflictingLimits(keys: seq<KeyConfig>) {
    forall i, j :: 0 <= i < |keys| && 0 <= j < |keys| && BothLimit(keys[i], keys[j])
      ==> keys[i].rateLimit == keys[j].rateLimit
  }

  /** Building again from `c` under `env` would give every provider the signature it already has. */
  predicate SameInputs(built: map<string, BuiltProvider>, c: RuntimeConfig, env: Env) {
    forall i :: 0 <= i < |c.models| ==> Reuses(built, c.models[i], Inputs(c, env, c.models[i]))
  }

  /** No provider of another upstream passes for the one of a model. */
  predicate NoFalseReuse(built: map<string, BuiltProvider>, c: RuntimeConfig, env: Env) {
    forall i :: 0 <= i < |c.models| ==> !FalseReuse(built, c.models[i], Inputs(c, env, c.models[i]))
  }

  /** No bar in any address, variable name, key or label, then or now. */
  predicate AllBarFree(built: map<string, BuiltProvider>, c: RuntimeConfig, env: Env) {
    forall i :: 0 <= i < |c.models| ==>
      BarFree(Inputs(c, env, c.models[i])) && (c.models[i].name in built ==> BarFree(built[c.models[i].name].signature))
  }

  lemma BarFreeMeansNoFalseReuse(built: map<string, BuiltProvider>, c: RuntimeConfig, env: Env)
    requires AllBarFree(built, c, env)
    ensures NoFalseReuse(built, c, env)
  {
    hide SignatureText, BarFree;
    forall i | 0 <= i < |c.models| ensures !FalseReuse(built, c.models[i], Inputs(c, env, c.models[i])) {
      BarFreeReuseIsTrue(built, c.models[i], Inputs(c, env, c.models[i]));
    }
  }

  function Providers(built: map<string, BuiltProvider>): map<string, Provider> {
    map name | name in built :: built[name].provider
  }

  /** Under unconflicted declarations every declaration agrees with the last one. */
  lemma {:induction false} LastLimitIsAll(keys: seq<KeyConfig>, id: string)
    requires NoConflictingLimits(keys) && LastLimit(keys, id).Some?
    ensures AllAsk(keys, id, LastLimit(keys, id).value)
  {
    var n := |keys| - 1;
    if !(keys[n].id == id && keys[n].rateLimit.Some?) {
      LastLimitIsAll(keys[..n], id);
      forall i | 0 <= i < |keys| && keys[i].id == id && keys[i].rateLimit.Some?
        ensures keys[i].rateLimit.value == LastLimit(keys, id).value
      {
        assert keys[i] == keys[..n][i];
      }
    }
  }

  function Snapshot(config: RuntimeConfig, built: map<string, BuiltProvider>): Published {
    Published(config, Providers(built), Providers(built))
  }

  // ---- providers ----

  lemma Named(models: seq<ModelConfig>, name: string) returns (i: nat)
    requires name in Names(models)
    ensures i < |models| && models[i].name == name
  {
    i :| 0 <= i < |models| && models[i].name == name;
  }

  /**
    A reused provider always has a slot with the limits its model asks for: whatever else equal
    signatures have in common, they agree on limits and breaker settings.
  */
  lemma ReusedHasOwnLimits(
    rt: Published, prev: map<string, BuiltProvider>, m: ModelConfig, signature: Signature) returns (j: nat)
    requires Describes(prev, rt) && Reuses(prev, m, signature)
    ensures j < |rt.config.models| && rt.config.models[j].name == m.name && DescribedModel(prev, rt, rt.config.models[j])
    ensures prev[m.name].signature == prev[m.name].provider.inputs
    ensures prev[m.name].signature.governance == signature.governance
    ensures prev[m.name].provider.slot.governance == signature.governance
  {
    hide SignatureText;
    j := Named(rt.config.models, m.name);
    assert DescribedModel(prev, rt, rt.config.models[j]);
    EqualTextsEqualLimits(prev[m.name].signature, signature);
  }

  lemma RebuiltHasOwnLimits(
    rt: Published, c: RuntimeConfig, before: map<string, UpstreamState>, after: map<string, UpstreamState>,
    env: Env, prev: map<string, BuiltProvider>, built: map<string, BuiltProvider>, m: ModelConfig)
    requires Describes(prev, rt) && EnsuredOne(before, after, m, c.breaker) && BuiltOne(c, after, env, prev, built, m)
    ensures m.name in built && built[m.name].signature == built[m.name].provider.inputs
    ensures built[m.name].signature.governance == GovernanceOf(m, c.breaker)
    ensures built[m.name].provider.slot.governance == GovernanceOf(m, c.breaker)
  {
    hide SignatureText, Describes;
    if Reuses(prev, m, Inputs(c, env, m)) {
      var _ := ReusedHasOwnLimits(rt, prev, m, Inputs(c, env, m));
    }
  }

  lemma RebuiltModel(
    rt: Published, c: RuntimeConfig, before: map<string, UpstreamState>, after: map<string, UpstreamState>,
    env: Env, prev: map<string, BuiltProvider>, built: map<string, BuiltProvider>, store: Option<string>, i: nat)
    requires Describes(prev, rt) && Ensured(before, after, c) && BuiltFrom(c, after, env, prev, built) && i < |c.models|
    ensures DescribedModel(built, Snapshot(c.(usageStore := store), built), c.models[i])
  {
    hide BuiltOne, Describes;
    RebuiltHasOwnLimits(rt, c, before, after, env, prev, built, c.models[i]);
  }

  lemma RebuildServes(
    c: RuntimeConfig, slots: map<string, UpstreamState>, env: Env,
    prev: map<string, BuiltProvider>, built: map<string, BuiltProvider>, store: Option<string>)
    requires Sound(c) && BuiltFrom(c, slots, env, prev, built)
    ensures Serves(Snapshot(c.(usageStore := store), built))
  {
    hide BuiltOne;
  }

  lemma RebuildDescribes(
    rt: Published, c: RuntimeConfig, before: map<string, UpstreamState>, after: map<string, UpstreamState>,
    env: Env, prev: map<string, BuiltProvider>, built: map<string, BuiltProvider>, store: Option<string>)
    requires Describes(prev, rt) && Ensured(before, after, c) && BuiltFrom(c, after, env, prev, built)
    ensures Describes(built, Snapshot(c.(usageStore := store), built))
    ensures Fits(after, c)
  {
    hide BuiltOne, DescribedModel;
    var next := Snapshot(c.(usageStore := store), built);
    assert next.config.models == c.models;
    forall i | 0 <= i < |next.config.models| ensures DescribedModel(built, next, next.config.models[i]) {
      RebuiltModel(rt, c, before, after, env, prev, built, store, i);
    }
    forall i | 0 <= i < |c.models| ensures Preserves(after, c.models[i], c.breaker) {
      assert EnsuredOne(before, after, c.models[i], c.breaker);
    }
  }

  /** The slot a reused provider has, and the slot its model has now. */
  lemma ReuseBinding(
    rt: Published, c: RuntimeConfig, before: map<string, UpstreamState>, after: map<string, UpstreamState>,
    env: Env, prev: map<string, BuiltProvider>, m: ModelConfig)
    requires Describes(prev, rt) && Binds(rt, before) && Tagged(prev, rt.config) && Distinct(before)
    requires KeptOrNew(before, after) && EnsuredOne(before, after, m, c.breaker) && Reuses(prev, m, Inputs(c, env, m))
    ensures prev[m.name].provider.slot == after[m.stateKey] <==> !FalseReuse(prev, m, Inputs(c, env, m))
  {
    hide SignatureText;
    var j := ReusedHasOwnLimits(rt, prev, m, Inputs(c, env, m));
    assert BoundModel(rt, before, rt.config.models[j]) && TaggedModel(prev, rt.config.models[j]);
  }

  /**
    The heart of a reload: a provider, reused or new, is bound to the current slot of its model if and
    only if it was not taken over from another upstream by a signature that merely reads the same.
  */
  lemma RebuiltIsBound(
    rt: Published, c: RuntimeConfig, before: map<string, UpstreamState>, after: map<string, UpstreamState>,
    env: Env, prev: map<string, BuiltProvider>, built: map<string, BuiltProvider>, i: nat)
    requires Describes(prev, rt) && Binds(rt, before) && Tagged(prev, rt.config) && Distinct(before)
    requires Ensured(before, after, c) && BuiltFrom(c, after, env, prev, built) && i < |c.models|
    ensures var m := c.models[i];
      && m.name in built && m.stateKey in after
      && (built[m.name].provider.slot == after[m.stateKey] <==> !FalseReuse(prev, m, Inputs(c, env, m)))
      && (TaggedModel(built, m) <==> !FalseReuse(prev, m, Inputs(c, env, m)))
  {
    hide SignatureText;
    var m := c.models[i];
    assert EnsuredOne(before, after, m, c.breaker);
    assert BuiltOne(c, after, env, prev, built, m);
    if Reuses(prev, m, Inputs(c, env, m)) {
      ReuseBinding(rt, c, before, after, env, prev, m);
    }
  }

  lemma RebuildBinds(
    rt: Published, c: RuntimeConfig, before: map<string, UpstreamState>, after: map<string, UpstreamState>,
    env: Env, prev: map<string, BuiltProvider>, built: map<string, BuiltProvider>, store: Option<string>)
    requires Describes(prev, rt) && Binds(rt, before) && Tagged(prev, rt.config) && Distinct(before)
    requires Ensured(before, after, c) && BuiltFrom(c, after, env, prev, built)
    ensures var next := Snapshot(c.(usageStore := store), built);
      (Binds(next, after) <==> NoFalseReuse(prev, c, env)) && (Tagged(built, next.config) <==> NoFalseReuse(prev, c, env))
  {
    hide BuiltOne, FalseReuse, Inputs;
    var next := Snapshot(c.(usageStore := store), built);
    assert next.config.models == c.models;
    forall i | 0 <= i < |c.models|
      ensures BoundModel(next, after, c.models[i]) <==> !FalseReuse(prev, c.models[i], Inputs(c, env, c.models[i]))
      ensures TaggedModel(built, c.models[i]) <==> !FalseReuse(prev, c.models[i], Inputs(c, env, c.models[i]))
    {
      RebuiltIsBound(rt, c, before, after, env, prev, built, i);
    }
  }

  // ---- nothing changed ----

  lemma SlotsStay(c: RuntimeConfig, before: map<string, UpstreamState>, after: map<string, UpstreamState>)
    requires Fits(before, c) && Ensured(before, after, c)
    ensures after == before
  {
    forall k | k in StateKeys(c.models) ensures k in before && after[k] == before[k] {
      var i :| 0 <= i < |c.models| && c.models[i].stateKey == k;
      assert Preserves(before, c.models[i], c.breaker);
      assert EnsuredOne(before, after, c.models[i], c.breaker);
    }
  }

  lemma ProvidersStay(
    rt: Published, c: RuntimeConfig, slots: map<string, UpstreamState>, env: Env,
    prev: map<string, BuiltProvider>, built: map<string, BuiltProvider>)
    requires Describes(prev, rt) && c.models == rt.config.models && BuiltFrom(c, slots, env, prev, built) && SameInputs(prev, c, env)
    ensures built == prev
  {
    hide SignatureText;
    forall name | name in built ensures name in prev && built[name] == prev[name] {
      var i := Named(c.models, name);
      assert BuiltOne(c, slots, env, prev, built, c.models[i]);
    }
  }

  // ---- buckets ----

  /** After install and reclaim exactly the limited keys have a bucket, with the right limit. */
  lemma InstallThenReclaim(
    before: map<string, TokenBucket>, installed: map<string, TokenBucket>, keys: seq<KeyConfig>)
    requires Installed(before, installed, keys)
    ensures Limits(Restrict(installed, LimitedIds(keys)), keys)
  {
    forall id ensures id in LimitedIds(keys) <==> LastLimit(keys, id).Some? {
      LimitedHasLast(keys, id);
    }
    assert forall id :: LastLimit(keys, id).Some? ==> InstalledOne(before, installed, keys, id);
  }

  /** No two declarations conflict exactly when every declaration asks for what its bucket has. */
  lemma NoConflictIffAllAsk(buckets: map<string, TokenBucket>, keys: seq<KeyConfig>)
    requires Limits(buckets, keys)
    ensures NoConflictingLimits(keys) <==> forall id :: id in buckets ==> AllAsk(keys, id, buckets[id].limit)
  {
    if NoConflictingLimits(keys) {
      forall id | id in buckets ensures AllAsk(keys, id, buckets[id].limit) {
        LastLimitIsAll(keys, id);
      }
    } else {
      var i, j :| 0 <= i < |keys| && 0 <= j < |keys| && BothLimit(keys[i], keys[j]) && keys[i].rateLimit != keys[j].rateLimit;
      assert keys[i].id in LimitedIds(keys);
    }
  }

  /** Installing the limits in force again keeps every bucket if and only if no declarations conflict. */
  lemma ReinstallIsIdentityIff(
    before: map<string, TokenBucket>, installed: map<string, TokenBucket>, keys: seq<KeyConfig>)
    requires Limits(before, keys) && Installed(before, installed, keys)
    ensures Restrict(installed, LimitedIds(keys)) == before <==> NoConflictingLimits(keys)
  {
    InstallThenReclaim(before, installed, keys);
    NoConflictIffAllAsk(before, keys);
    forall id | id in before ensures installed[id] == before[id] <==> AllAsk(keys, id, before[id].limit) {
      assert InstalledOne(before, installed, keys, id);
    }
    assert forall id :: id in before ==> Restrict(installed, LimitedIds(keys))[id] == installed[id];
  }

  /** One key declared with two limits. */
  const CONFLICTING: seq<KeyConfig> := [
    KeyConfig("a", Plain("x"), ["m"], Some(RateLimit(1, 1))), KeyConfig("a", Plain("y"), ["m"], Some(RateLimit(2, 2)))]

  /** Re-applying it replaces the bucket of the key every time. */
  lemma ConflictingKeyLosesBucket(before: map<string, TokenBucket>, installed: map<string, TokenBucket>)
    requires Limits(before, CONFLICTING) && Installed(before, installed, CONFLICTING)
    ensures "a" in before && "a" in installed && installed["a"] != before["a"]
  {
    assert "a" == CONFLICTING[0].id && "a" in LimitedIds(CONFLICTING);
    assert InstalledOne(before, installed, CONFLICTING, "a");
    assert CONFLICTING[1].rateLimit.value != CONFLICTING[0].rateLimit.value;
  }

  // ---- the whole reload ----

  /** Everything a reload reads and writes, as a value. */
  datatype App = App(
    slots: map<string, UpstreamState>,
    buckets: map<string, TokenBucket>,
    runtime: Published,
    lastBuilt: map<string, BuiltProvider>,
    gcTasks: nat)

  /** What holds whenever the reload lock is free. */
  predicate Settled(a: App) {
    && Serves(a.runtime)
    && Fits(a.slots, a.runtime.config) && Distinct(a.slots)
    && Describes(a.lastBuilt, a.runtime)
    && Limits(a.buckets, a.runtime.config.keys)
    && (a.gcTasks == 0 ==> a.slots.Keys == StateKeys(a.runtime.config.models))
  }

  /** Every published provider is bound to the slot of its upstream, and was built for it. */
  predicate Bound(a: App) {
    Binds(a.runtime, a.slots) && Tagged(a.lastBuilt, a.runtime.config)
  }

  /** Some upstream of the old configuration is gone from the new one. */
  predicate Drops(before: RuntimeConfig, after: RuntimeConfig) {
    !(StateKeys(before.models) <= StateKeys(after.models))
  }

  /** No model is on the upstream of `m`. */
  ghost predicate Gone(m: ModelConfig, models: seq<ModelConfig>) {
    forall j :: 0 <= j < |models| ==> models[j].stateKey != m.stateKey
  }

  ghost predicate SomeGone(was: seq<ModelConfig>, now: seq<ModelConfig>) {
    exists i :: 0 <= i < |was| && Gone(was[i], now)
  }

  lemma DropsIffSomeGone(before: RuntimeConfig, after: RuntimeConfig)
    ensures Drops(before, after) <==> SomeGone(before.models, after.models)
  {
    if Drops(before, after) {
      var k :| k in StateKeys(before.models) && k !in StateKeys(after.models);
      var i :| 0 <= i < |before.models| && before.models[i].stateKey == k;
      assert Gone(before.models[i], after.models);
    }
    if SomeGone(before.models, after.models) {
      var i :| 0 <= i < |before.models| && Gone(before.models[i], after.models);
      assert before.models[i].stateKey in StateKeys(before.models) && before.models[i].stateKey !in StateKeys(after.models);
    }
  }

  /** A completed reload; `installed` are the buckets between install and reclaim. */
  ghost predicate IsReload(a: App, b: App, c: RuntimeConfig, env: Env, installed: map<string, TokenBucket>) {
    && Ensured(a.slots, b.slots, c) && (Distinct(a.slots) ==> Distinct(b.slots))
    && BuiltFrom(c, b.slots, env, a.lastBuilt, b.lastBuilt)
    && Installed(a.buckets, installed, c.keys)
    && b.buckets == Restrict(installed, LimitedIds(c.keys))
    && b.runtime == Snapshot(c.(usageStore := a.runtime.config.usageStore), b.lastBuilt)
    && b.gcTasks == a.gcTasks + if Drops(a.runtime.config, c) then 1 else 0
  }

  /** A completed reload of a sound configuration leaves everything settled again. */
  lemma ReloadSettles(a: App, b: App, c: RuntimeConfig, env: Env, installed: map<string, TokenBucket>)
    requires Settled(a) && Sound(c) && IsReload(a, b, c, env, installed)
    ensures Settled(b)
  {
    hide BuiltOne, DescribedModel, InstalledOne;
    RebuildServes(c, b.slots, env, a.lastBuilt, b.lastBuilt, a.runtime.config.usageStore);
    RebuildDescribes(a.runtime, c, a.slots, b.slots, env, a.lastBuilt, b.lastBuilt, a.runtime.config.usageStore);
    InstallThenReclaim(a.buckets, installed, c.keys);
    if b.gcTasks == 0 {
      assert StateKeys(a.runtime.config.models) <= StateKeys(c.models);
    }
  }

  /** After a completed reload every model is served as the new configuration says. */
  lemma ReloadServes(a: App, b: App, c: RuntimeConfig, env: Env, installed: map<string, TokenBucket>)
    requires Settled(a) && Sound(c) && IsReload(a, b, c, env, installed)
    ensures AllServed(b.runtime, c, env, a.runtime.providers)
  {
    hide BuiltOne, DescribedModel, InstalledOne, ServedBy;
    forall i | 0 <= i < |c.models| ensures ServedModel(b.runtime, c.models[i], c, env, a.runtime.providers) {
      RebuiltServes(a.runtime, c, a.slots, b.slots, env, a.lastBuilt, b.lastBuilt, c.models[i]);
    }
  }

  /**
    Published provider binding, exactly: after a reload every provider is bound to the very slot object
    under its model's state key if and only if no signature of another upstream read the same.
  */
  lemma ReloadBindsIff(a: App, b: App, c: RuntimeConfig, env: Env, installed: map<string, TokenBucket>)
    requires Settled(a) && Bound(a) && Sound(c) && IsReload(a, b, c, env, installed)
    ensures Binds(b.runtime, b.slots) <==> NoFalseReuse(a.lastBuilt, c, env)
    ensures Bound(b) <==> NoFalseReuse(a.lastBuilt, c, env)
    ensures AllBarFree(a.lastBuilt, c, env) ==> Bound(b)
  {
    hide BuiltOne, DescribedModel, InstalledOne, BarFree, FalseReuse;
    RebuildBinds(a.runtime, c, a.slots, b.slots, env, a.lastBuilt, b.lastBuilt, a.runtime.config.usageStore);
    if AllBarFree(a.lastBuilt, c, env) {
      BarFreeMeansNoFalseReuse(a.lastBuilt, c, env);
    }
  }

  // ---- what the providers are built from ----

  /** The provider works under the limits, the retry policy and the token default that `c` sets for `m` now. */
  predicate UnderSettings(p: Provider, m: ModelConfig, c: RuntimeConfig) {
    && p.inputs.providerType == m.providerType
    && p.inputs.retry == c.retry && p.inputs.defaultMaxTokens == c.defaultMaxTokens
    && p.slot.governance.rateLimit == m.rateLimit && p.slot.governance.maxConcurrency == m.maxConcurrency
    && p.slot.governance.breaker == c.breaker
  }

  /** The provider calls the address of `m`, under its identity and with the key its variable holds in `env`. */
  predicate CallsAs(p: Provider, m: ModelConfig, env: Env) {
    && p.inputs.baseUrl == m.baseUrl && p.inputs.apiKeyEnv == m.apiKeyEnv && p.inputs.apiKey == env(m.apiKeyEnv)
    && p.inputs.stateKey == m.stateKey && p.inputs.upstreamId == m.upstreamId
  }

  /** The limits the provider was built under are those `c` sets for `m`. */
  predicate SameLimits(p: Provider, m: ModelConfig, c: RuntimeConfig) {
    && p.inputs.governance.rateLimit == m.rateLimit && p.inputs.governance.maxConcurrency == m.maxConcurrency
    && p.inputs.governance.breaker == c.breaker
  }

  /** No bar in what `m` asks for now, nor in what the provider so far was built from. */
  predicate NoBarIn(m: ModelConfig, env: Env, p: Provider) {
    && '|' !in m.baseUrl && '|' !in m.apiKeyEnv && '|' !in env(m.apiKeyEnv) && '|' !in m.upstreamId
    && '|' !in p.inputs.baseUrl && '|' !in p.inputs.apiKeyEnv && '|' !in p.inputs.apiKey && '|' !in p.inputs.upstreamId
  }

  /** What holds of the provider of `m` after a reload from `old` providers. */
  predicate ServedBy(p: Provider, m: ModelConfig, c: RuntimeConfig, env: Env, former: map<string, Provider>) {
    && UnderSettings(p, m, c)
    && (m.name !in former ==> CallsAs(p, m, env))
    && (m.name in former && NoBarIn(m, env, former[m.name]) ==>
          && CallsAs(p, m, env)
          && (p == former[m.name] <==>
                CallsAs(former[m.name], m, env) && SameLimits(former[m.name], m, c)
                && former[m.name].inputs.providerType == m.providerType
                && former[m.name].inputs.retry == c.retry && former[m.name].inputs.defaultMaxTokens == c.defaultMaxTokens))
  }

  predicate ServedModel(rt: Published, m: ModelConfig, c: RuntimeConfig, env: Env, former: map<string, Provider>) {
    m.name in rt.providers && ServedBy(rt.providers[m.name], m, c, env, former)
  }

  predicate AllServed(rt: Published, c: RuntimeConfig, env: Env, former: map<string, Provider>) {
    forall i :: 0 <= i < |c.models| ==> ServedModel(rt, c.models[i], c, env, former)
  }

  /**
    What a reload serves a model with, whatever was reused: a provider under the settings of the new
    configuration. If no bar is involved it also calls the model's own address with the key of the
    environment, and it is the object from before if and only if nothing it was built from has changed.
  */
  lemma RebuiltServes(
    rt: Published, c: RuntimeConfig, before: map<string, UpstreamState>, after: map<string, UpstreamState>,
    env: Env, prev: map<string, BuiltProvider>, built: map<string, BuiltProvider>, m: ModelConfig)
    requires Describes(prev, rt) && rt.providers.Keys == Names(rt.config.models)
    requires EnsuredOne(before, after, m, c.breaker) && BuiltOne(c, after, env, prev, built, m)
    ensures m.name in built && ServedBy(built[m.name].provider, m, c, env, rt.providers)
  {
    hide SignatureText;
    RebuiltHasOwnLimits(rt, c, before, after, env, prev, built, m);
    assert prev.Keys == rt.providers.Keys;
    var want := Inputs(c, env, m);
    if m.name in prev {
      var j := Named(rt.config.models, m.name);
      assert DescribedModel(prev, rt, rt.config.models[j]);
      var was := prev[m.name].signature;
      if SignatureText(was) == SignatureText(want) {
        EqualTextsEqualLimits(was, want);
        if BarFree(was) && BarFree(want) {
          BarFreeTextsAreInjective(was, want);
        }
      }
    }
  }

  /** A model like the inputs `s`, under a given name. */
  function ModelLike(name: string, s: Signature): ModelConfig {
    ModelConfig(name, s.providerType, s.baseUrl, s.apiKeyEnv, s.stateKey, s.upstreamId,
                s.governance.rateLimit, s.governance.maxConcurrency, None, None)
  }

  /** The configuration with that one model, and an environment in which its inputs are `s`. */
  function ConfigLike(c: RuntimeConfig, s: Signature): RuntimeConfig {
    c.(models := [ModelLike("x", s)], defaultMaxTokens := s.defaultMaxTokens, retry := s.retry, breaker := s.governance.breaker)
  }

  function EnvLike(s: Signature): Env { _ => s.apiKey }

  /**
    It can fail: whatever the address, there are two sound configurations of one model such that a start
    with the first and a reload to the second take the provider of the one upstream over to the other.
  */
  lemma FalseReuseExists(
    p: ProviderType, url: string, like: Signature, c: RuntimeConfig, slots: map<string, UpstreamState>, built: map<string, BuiltProvider>)
    requires var s := FirstClash(p, url, like); BuiltFrom(ConfigLike(c, s), slots, EnvLike(s), map[], built)
    ensures var s, t := FirstClash(p, url, like), SecondClash(p, url, like);
      && Sound(ConfigLike(c, s)) && Sound(ConfigLike(c, t))
      && s.stateKey == DeriveStateKey(p, s.baseUrl, s.apiKeyEnv) && t.stateKey == DeriveStateKey(p, t.baseUrl, t.apiKeyEnv)
      && !NoFalseReuse(built, ConfigLike(c, t), EnvLike(t))
  {
    hide SignatureText;
    var s, t := FirstClash(p, url, like), SecondClash(p, url, like);
    TextsCollide(p, url, like);
    var c1, c2 := ConfigLike(c, s), ConfigLike(c, t);
    assert BuiltOne(c1, slots, EnvLike(s), map[], built, c1.models[0]);
    assert Inputs(c1, EnvLike(s), c1.models[0]) == s && Inputs(c2, EnvLike(t), c2.models[0]) == t;
    assert FalseReuse(built, c2.models[0], t);
  }

  /**
    State preservation: an upstream keeps its slot object if and only if the reload leaves its
    governance alone. Names, labels and prices of its models play no part.
  */
  lemma KeepsSlotIffGovernanceUnchanged(
    rt: Published, before: map<string, UpstreamState>, after: map<string, UpstreamState>, c: RuntimeConfig, i: nat, j: nat)
    requires Fits(before, rt.config) && Ensured(before, after, c)
    requires i < |rt.config.models| && j < |c.models| && rt.config.models[i].stateKey == c.models[j].stateKey
    ensures var key := c.models[j].stateKey;
      after[key] == before[key] <==> GovernanceOf(rt.config.models[i], rt.config.breaker) == GovernanceOf(c.models[j], c.breaker)
  {
    assert Preserves(before, rt.config.models[i], rt.config.breaker);
    assert EnsuredOne(before, after, c.models[j], c.breaker);
  }

  lemma SnapshotStays(rt: Published, built: map<string, BuiltProvider>)
    requires Serves(rt) && Describes(built, rt)
    ensures Snapshot(rt.config, built) == rt
  {
    forall name | name in rt.providers ensures name in built && rt.providers[name] == built[name].provider {
      var i := Named(rt.config.models, name);
      assert DescribedModel(built, rt, rt.config.models[i]);
    }
    assert Providers(built) == rt.providers;
  }

  /**
    Idempotence, exactly: applying the running configuration again in an unchanged environment replaces
    no slot and no provider, and it keeps the buckets if and only if no two declarations of one key
    conflict.
  */
  lemma ReapplyChangesNothing(a: App, b: App, c: RuntimeConfig, env: Env, installed: map<string, TokenBucket>)
    requires Settled(a) && IsReload(a, b, c, env, installed)
    requires c == a.runtime.config && SameInputs(a.lastBuilt, c, env)
    ensures b.slots == a.slots && b.lastBuilt == a.lastBuilt && b.gcTasks == a.gcTasks
    ensures b.runtime == a.runtime
    ensures b.buckets == a.buckets <==> NoConflictingLimits(c.keys)
  {
    hide BuiltOne, DescribedModel, InstalledOne, Reuses;
    SlotsStay(c, a.slots, b.slots);
    ProvidersStay(a.runtime, c, b.slots, env, a.lastBuilt, b.lastBuilt);
    SnapshotStays(a.runtime, a.lastBuilt);
    ReinstallIsIdentityIff(a.buckets, installed, c.keys);
  }

  function Collected(a: App): App
    requires a.gcTasks > 0
  {
    a.(slots := Restrict(a.slots, StateKeys(a.runtime.config.models)), gcTasks := a.gcTasks - 1)
  }

  /** Collection keeps every slot the live configuration uses, and nothing else. */
  lemma CollectionSettles(a: App)
    requires Settled(a) && a.gcTasks > 0
    ensures Settled(Collected(a)) && (Bound(a) ==> Bound(Collected(a)))
    ensures Collected(a).slots.Keys == StateKeys(a.runtime.config.models)
    ensures forall key :: key in StateKeys(a.runtime.config.models) ==> Collected(a).slots[key] == a.slots[key]
  {
    var models := a.runtime.config.models;
    forall i | 0 <= i < |models| ensures models[i].stateKey in StateKeys(models) && models[i].stateKey in a.slots {
      assert Preserves(a.slots, models[i], a.runtime.config.breaker);
    }
    forall key | key in StateKeys(models) ensures key in a.slots {
      var i :| 0 <= i < |models| && models[i].stateKey == key;
    }
  }

  lemma StartModel(config: RuntimeConfig, env: Env, slots: map<string, UpstreamState>, built: map<string, BuiltProvider>, m: ModelConfig)
    requires EnsuredOne(map[], slots, m, config.breaker) && BuiltOne(config, slots, env, map[], built, m)
    ensures var rt := Snapshot(config, built);
      && DescribedModel(built, rt, m) && BoundModel(rt, slots, m)
      && Preserves(slots, m, config.breaker) && TaggedModel(built, m)
  {
    hide SignatureText;
  }

  lemma StartDescribes(config: RuntimeConfig, env: Env, slots: map<string, UpstreamState>, built: map<string, BuiltProvider>)
    requires Ensured(map[], slots, config) && BuiltFrom(config, slots, env, map[], built)
    ensures var rt := Snapshot(config, built);
      Describes(built, rt) && Fits(slots, config) && Binds(rt, slots) && Tagged(built, config)
  {
    hide BuiltOne, DescribedModel, BoundModel, TaggedModel, Preserves;
    var rt := Snapshot(config, built);
    forall i | 0 <= i < |config.models|
      ensures DescribedModel(built, rt, config.models[i]) && BoundModel(rt, slots, config.models[i])
      ensures Preserves(slots, config.models[i], config.breaker) && TaggedModel(built, config.models[i])
    {
      StartModel(config, env, slots, built, config.models[i]);
    }
  }

  /** What startup builds is settled and bound. */
  lemma StartSettles(
    config: RuntimeConfig, env: Env, slots: map<string, UpstreamState>, buckets: map<string, TokenBucket>, built: map<string, BuiltProvider>)
    requires Sound(config) && Ensured(map[], slots, config) && Distinct(slots) && BuiltFrom(config, slots, env, map[], built)
    requires Installed(map[], buckets, config.keys)
    ensures var a := App(slots, buckets, Snapshot(config, built), built, 0);
      Settled(a) && Bound(a)
  {
    hide BuiltOne, DescribedModel, InstalledOne;
    StartDescribes(config, env, slots, built);
    RebuildServes(config, slots, env, map[], built, config.usageStore);
    InstallThenReclaim(map[], buckets, config.keys);
    OnlyLimited(buckets, config.keys);
  }

  /** At startup every provider is built from the configuration and the environment of the moment. */
  lemma StartServes(config: RuntimeConfig, env: Env, slots: map<string, UpstreamState>, built: map<string, BuiltProvider>)
    requires Ensured(map[], slots, config) && BuiltFrom(config, slots, env, map[], built)
    ensures AllServed(Snapshot(config, built), config, env, map[])
  {
    hide BuiltOne, ServedBy;
    var nothing := Snapshot(config.(models := []), map[]);
    forall i | 0 <= i < |config.models| ensures ServedModel(Snapshot(config, built), config.models[i], config, env, map[]) {
      RebuiltServes(nothing, config, map[], slots, env, map[], built, config.models[i]);
      assert nothing.providers == map[];
    }
  }

  /** Installed from nothing, there is nothing to reclaim. */
  lemma OnlyLimited(buckets: map<string, TokenBucket>, keys: seq<KeyConfig>)
    requires Installed(map[], buckets, keys)
    ensures Restrict(buckets, LimitedIds(keys)) == buckets
  {
    forall id | id in buckets ensures id in LimitedIds(keys) {
      assert InstalledOne(map[], buckets, keys, id);
      LimitedHasLast(keys, id);
    }
  }
}
