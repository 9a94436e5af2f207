/**
  Building providers with reuse by signature (crates/moaray/src/registry.rs): a model whose signature
  text is the one it was last built with keeps its provider object, any other gets a new one.
*/
module Registry {
  import opened Wrappers
  import opened Config
  import opened Runtime
  import opened Signatures

  /** A governed provider: built from `inputs`, bound to one slot object for life. */
  class Provider {
    const inputs: Signature
    const slot: UpstreamState

    constructor (inputs: Signature, slot: UpstreamState)
      ensures this.inputs == inputs && this.slot == slot
    {
      this.inputs := inputs;
      this.slot := slot;
    }
  }

  datatype BuiltProvider = BuiltProvider(provider: Provider, signature: Signature)

  /** The environment at build time; an unset variable reads as the empty key. */
  type Env = string -> string

  /** The previous provider of that name was built from inputs with the same text. */
  predicate Reuses(prev: map<string, BuiltProvider>, m: ModelConfig, signature: Signature) {
    m.name in prev && SignatureText(prev[m.name].signature) == SignatureText(signature)
  }

  /** The text is the same, but the provider belongs to another upstream. */
  predicate FalseReuse(prev: map<string, BuiltProvider>, m: ModelConfig, signature: Signature) {
    Reuses(prev, m, signature) && prev[m.name].signature.stateKey != m.stateKey
  }

  lemma BarFreeReuseIsTrue(prev: map<string, BuiltProvider>, m: ModelConfig, signature: Signature)
    requires signature.stateKey == m.stateKey && BarFree(signature) && (m.name in prev ==> BarFree(prev[m.name].signature))
    ensures !FalseReuse(prev, m, signature)
  {
    if Reuses(prev, m, signature) {
      BarFreeTextsAreInjective(prev[m.name].signature, signature);
    }
  }

  /** The inputs of `m` under `config` and `env`. */
  function Inputs(config: RuntimeConfig, env: Env, m: ModelConfig): Signature {
    SignatureOf(m, env(m.apiKeyEnv), config)
  }

  predicate CanBuild(
    config: RuntimeConfig, slots: map<string, UpstreamState>, env: Env, prev: map<string, BuiltProvider>, m: ModelConfig)
  {
    Reuses(prev, m, Inputs(config, env, m)) || m.stateKey in slots
  }

  /** The provider of the last reload when its signature reads the same, else the one just made. */
  function Chosen(prev: map<string, BuiltProvider>, m: ModelConfig, signature: Signature, provider: Provider): BuiltProvider {
    if Reuses(prev, m, signature) then prev[m.name] else BuiltProvider(provider, signature)
  }

  /** Either the last reload's provider of `m` is reused, or `provider` was made from `signature` against the slot. */
  predicate Offers(
    slots: map<string, UpstreamState>, prev: map<string, BuiltProvider>, m: ModelConfig, signature: Signature, provider: Provider)
  {
    || Reuses(prev, m, signature)
    || (m.stateKey in slots && provider.inputs == signature && provider.slot == slots[m.stateKey])
  }

  /** The whole loop, given what it makes; `built` are the providers of the models before `n`. */
  function BuildAll(
    config: RuntimeConfig, env: Env, prev: map<string, BuiltProvider>, n: nat, built: map<string, BuiltProvider>, made: seq<Provider>)
    : map<string, BuiltProvider>
    requires n + |made| <= |config.models|
  {
    if made == [] then built
    else
      var i := |made| - 1;
      var m := config.models[n + i];
      BuildAll(config, env, prev, n, built, made[..i])[m.name := Chosen(prev, m, Inputs(config, env, m), made[i])]
  }

  predicate AllOffered(
    config: RuntimeConfig, slots: map<string, UpstreamState>, env: Env, prev: map<string, BuiltProvider>, n: nat, made: seq<Provider>)
    requires n + |made| <= |config.models|
  {
    forall i :: 0 <= i < |made| ==>
      Offers(slots, prev, config.models[n + i], Inputs(config, env, config.models[n + i]), made[i])
  }

  /** What a build makes of one model. */
  predicate BuiltOne(
    config: RuntimeConfig, slots: map<string, UpstreamState>, env: Env, prev: map<string, BuiltProvider>,
    built: map<string, BuiltProvider>, m: ModelConfig)
  {
    var signature := Inputs(config, env, m);
    && m.name in built
    && (if Reuses(prev, m, signature) then built[m.name] == prev[m.name]
        else built[m.name].signature == signature && built[m.name].provider.inputs == signature
             && m.stateKey in slots && built[m.name].provider.slot == slots[m.stateKey])
  }

  /** What a successful build returns, apart from which objects are new. */
  predicate BuiltFrom(
    config: RuntimeConfig, slots: map<string, UpstreamState>, env: Env, prev: map<string, BuiltProvider>,
    built: map<string, BuiltProvider>)
  {
    && built.Keys == Names(config.models)
    && forall i :: 0 <= i < |config.models| ==> BuiltOne(config, slots, env, prev, built, config.models[i])
  }

  lemma NamesNext(models: seq<ModelConfig>, n: nat)
    requires n < |models|
    ensures Names(models[..n+1]) == Names(models[..n]) + {models[n].name}
  {
  }

  lemma OthersStay(
    config: RuntimeConfig, slots: map<string, UpstreamState>, env: Env, prev: map<string, BuiltProvider>,
    built: map<string, BuiltProvider>, n: nat, one: BuiltProvider)
    requires n < |config.models| && DistinctNames(config.models)
    requires forall i :: 0 <= i < n ==> BuiltOne(config, slots, env, prev, built, config.models[i])
    ensures forall i :: 0 <= i < n ==> BuiltOne(config, slots, env, prev, built[config.models[n].name := one], config.models[i])
  {
  }

  /** What the build loop has done for the first `n` models. */
  predicate BuiltUpTo(
    config: RuntimeConfig, slots: map<string, UpstreamState>, env: Env, prev: map<string, BuiltProvider>,
    built: map<string, BuiltProvider>, n: nat)
  {
    && n <= |config.models| && built.Keys == Names(config.models[..n])
    && forall i :: 0 <= i < n ==> BuiltOne(config, slots, env, prev, built, config.models[i])
  }

  lemma BuiltUpToNext(
    config: RuntimeConfig, slots: map<string, UpstreamState>, env: Env, prev: map<string, BuiltProvider>,
    built: map<string, BuiltProvider>, n: nat, one: BuiltProvider)
    requires n < |config.models| && DistinctNames(config.models) && BuiltUpTo(config, slots, env, prev, built, n)
    requires BuiltOne(config, slots, env, prev, built[config.models[n].name := one], config.models[n])
    ensures BuiltUpTo(config, slots, env, prev, built[config.models[n].name := one], n + 1)
  {
    hide BuiltOne;
    NamesNext(config.models, n);
    OthersStay(config, slots, env, prev, built, n, one);
  }

  /** The map built so far is what the loop makes of the providers `made`. */
  predicate MadeFrom(
    config: RuntimeConfig, slots: map<string, UpstreamState>, env: Env, prev: map<string, BuiltProvider>,
    built: map<string, BuiltProvider>, made: seq<Provider>)
  {
    && |made| <= |config.models| && AllOffered(config, slots, env, prev, 0, made)
    && built == BuildAll(config, env, prev, 0, map[], made)
  }

  lemma {:induction false} MadeFromNext(
    config: RuntimeConfig, slots: map<string, UpstreamState>, env: Env, prev: map<string, BuiltProvider>,
    built: map<string, BuiltProvider>, made: seq<Provider>, one: Provider)
    requires MadeFrom(config, slots, env, prev, built, made) && |made| < |config.models|
    requires var m := config.models[|made|]; Offers(slots, prev, m, Inputs(config, env, m), one)
    ensures var m := config.models[|made|];
      MadeFrom(config, slots, env, prev, built[m.name := Chosen(prev, m, Inputs(config, env, m), one)], made + [one])
  {
    hide Offers, Inputs, Chosen;
    assert (made + [one])[..|made|] == made;
  }

  lemma AllCouldBeBuilt(
    config: RuntimeConfig, slots: map<string, UpstreamState>, env: Env, prev: map<string, BuiltProvider>, built: map<string, BuiltProvider>)
    requires BuiltFrom(config, slots, env, prev, built)
    ensures forall i :: 0 <= i < |config.models| ==> CanBuild(config, slots, env, prev, config.models[i])
    ensures forall i :: 0 <= i < |config.models| ==>
      var m := config.models[i];
      m.name in built && (Reuses(prev, m, Inputs(config, env, m)) || !(m.name in prev && built[m.name] == prev[m.name]))
  {
    hide SignatureText, Inputs;
    assert forall i :: 0 <= i < |config.models| ==> BuiltOne(config, slots, env, prev, built, config.models[i]);
  }

  /**
    Fails exactly when some model can neither be reused nor find its slot. Otherwise there is one
    provider per model: the previous object when the signature reads the same, else a new one, built
    from the current inputs and bound to the slot object under the model's state key.
  */
  method BuildProvidersWith(
    config: RuntimeConfig, slots: map<string, UpstreamState>, env: Env, prev: map<string, BuiltProvider>)
    returns (r: Result<map<string, BuiltProvider>, string>, ghost made: seq<Provider>)
    requires DistinctNames(config.models)
    ensures r.Err? <==> !forall i :: 0 <= i < |config.models| ==> CanBuild(config, slots, env, prev, config.models[i])
    ensures r.Ok? ==> BuiltFrom(config, slots, env, prev, r.value)
    ensures r.Ok? ==> |made| == |config.models| && MadeFrom(config, slots, env, prev, r.value, made)
    ensures r.Ok? ==> forall i :: 0 <= i < |config.models| ==>
      var m := config.models[i];
      Reuses(prev, m, Inputs(config, env, m)) || fresh(r.value[m.name].provider)
  {
    hide SignatureText, SignatureOf;
    var providers: map<string, BuiltProvider> := map[];
    made := [];
    for n := 0 to |config.models|
      invariant BuiltUpTo(config, slots, env, prev, providers, n)
      invariant |made| == n && MadeFrom(config, slots, env, prev, providers, made)
      invariant forall k :: k in providers ==> (k in prev && providers[k] == prev[k]) || fresh(providers[k].provider)
    {
      var m := config.models[n];
      var signature := Inputs(config, env, m);
      if Reuses(prev, m, signature) {
        BuiltUpToNext(config, slots, env, prev, providers, n, prev[m.name]);
        MadeFromNext(config, slots, env, prev, providers, made, prev[m.name].provider);
        made := made + [prev[m.name].provider];
        providers := providers[m.name := prev[m.name]];
      } else if m.stateKey !in slots {
        assert !CanBuild(config, slots, env, prev, config.models[n]);
        return Err(m.name), made;
      } else {
        var provider := new Provider(signature, slots[m.stateKey]);
        BuiltUpToNext(config, slots, env, prev, providers, n, BuiltProvider(provider, signature));
        MadeFromNext(config, slots, env, prev, providers, made, provider);
        made := made + [provider];
        providers := providers[m.name := BuiltProvider(provider, signature)];
      }
    }
    assert config.models[..|config.models|] == config.models;
    AllCouldBeBuilt(config, slots, env, prev, providers);
    return Ok(providers), made;
  }
}
