/** Two documents that pass validation, between which a reload takes a provider over to another upstream. */
module TakeOver {
  import opened Wrappers
  import opened Config
  import opened Signatures
  import opened Registry
  import opened Reload
  import V = Validate
  import R = Reloader
  import Runtime

  /** A document with one model whose provider is built from the inputs `s`. */
  function DocLike(s: Signature): V.ModelDoc {
    V.ModelDoc("x", s.providerType, Some(s.baseUrl), s.apiKeyEnv, Some(s.upstreamId), None, None, None, None)
  }

  /** The policies of `rest`, on an upstream without limits of its own. */
  function Like(p: ProviderType, rest: RuntimeConfig): Signature {
    Signature(p, "", "", "", "", "", rest.defaultMaxTokens, rest.retry, Governance(None, None, rest.breaker))
  }

  lemma DocIsAcceptable(s: Signature, rest: RuntimeConfig)
    requires s.stateKey == DeriveStateKey(s.providerType, s.baseUrl, s.apiKeyEnv)
    requires s.governance == Governance(None, None, rest.breaker) && rest.recipes == []
    ensures V.Acceptable([DocLike(s)], [], rest.recipes)
    ensures V.Converted([DocLike(s)]) == [ModelLike("x", s)]
  {
    assert V.ToModel(DocLike(s)) == Ok(ModelLike("x", s));
  }

  method Accepted(s: Signature, env: V.EnvSource, rest: RuntimeConfig) returns (c: RuntimeConfig)
    requires s.stateKey == DeriveStateKey(s.providerType, s.baseUrl, s.apiKeyEnv)
    requires s.governance == Governance(None, None, rest.breaker) && rest.recipes == []
    requires s.defaultMaxTokens == rest.defaultMaxTokens && s.retry == rest.retry
    ensures c == ConfigLike(rest.(keys := []), s) && Sound(c)
  {
    DocIsAcceptable(s, rest);
    var r := V.Validate([DocLike(s)], [], env, rest);
    c := r.value;
    assert c.models[0] in c.models;
    assert c.models == [ModelLike("x", s)] && c.keys == [];
  }

  /**
    Whatever the address and the policies: both documents are accepted, a gateway started with the first
    and reloaded to the second completes the reload, and then serves a model with a provider that is not
    bound to the slot of its upstream.
  */
  method TakeOverHappens(p: ProviderType, url: string, env: V.EnvSource, rest: RuntimeConfig)
    returns (first: RuntimeConfig, second: RuntimeConfig, reloader: R.ConfigReloader)
    requires rest.recipes == []
    ensures var s, t := FirstClash(p, url, Like(p, rest)), SecondClash(p, url, Like(p, rest));
      && V.Acceptable([DocLike(s)], [], rest.recipes) && V.Acceptable([DocLike(t)], [], rest.recipes)
      && first == ConfigLike(rest.(keys := []), s) && second == ConfigLike(rest.(keys := []), t)
    ensures reloader.runtime.config == second && Settled(reloader.View())
    ensures !Binds(reloader.runtime, reloader.stateful.perUpstream)
  {
    hide SignatureText, Settled, Bound, Binds, NoFalseReuse, BuiltFrom, V.Acceptable, IsReload, FirstClash, SecondClash;
    var s, t := FirstClash(p, url, Like(p, rest)), SecondClash(p, url, Like(p, rest));
    ClashInputs(p, url, Like(p, rest));
    DocIsAcceptable(s, rest);
    DocIsAcceptable(t, rest);
    first := Accepted(s, env, rest);
    second := Accepted(t, env, rest);
    reloader := new R.ConfigReloader(first, EnvLike(s));
    FalseReuseExists(p, url, Like(p, rest), rest.(keys := []), reloader.stateful.perUpstream, reloader.lastBuilt);
    ghost var before := reloader.View();
    var _, installed, _ := reloader.Apply(second, EnvLike(t));
    ReloadBindsIff(before, reloader.View(), second, EnvLike(t), installed);
    PublishedIs(before, reloader.View(), second, EnvLike(t), installed);
  }

  lemma ClashInputs(p: ProviderType, url: string, like: Signature)
    ensures var s, t := FirstClash(p, url, like), SecondClash(p, url, like);
      && s.stateKey == DeriveStateKey(s.providerType, s.baseUrl, s.apiKeyEnv)
      && t.stateKey == DeriveStateKey(t.providerType, t.baseUrl, t.apiKeyEnv)
      && s.(governance := like.governance, retry := like.retry, defaultMaxTokens := like.defaultMaxTokens) == s
      && t.(governance := like.governance, retry := like.retry, defaultMaxTokens := like.defaultMaxTokens) == t
  {
  }

  lemma PublishedIs(a: App, b: App, c: RuntimeConfig, env: Env, installed: map<string, Runtime.TokenBucket>)
    requires IsReload(a, b, c, env, installed) && a.runtime.config.usageStore == c.usageStore
    ensures b.runtime.config == c
  {
  }
}
