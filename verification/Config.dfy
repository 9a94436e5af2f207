/** Validated configuration, as far as governance, keys and recipes go (crates/moaray-config/src/runtime.rs). */
module Config {
  import opened Wrappers
  import opened Text
  import B = Breaker

  datatype ProviderType = OpenaiCompat | Anthropic
  {
    function AsStr(): string {
      match this
      case OpenaiCompat => "openai-compat"
      case Anthropic => "anthropic"
    }
  }

  datatype RateLimit = RateLimit(rps: nat, burst: nat)

  datatype ModelConfig = ModelConfig(
    name: string,
    providerType: ProviderType,
    baseUrl: string,
    apiKeyEnv: string,
    stateKey: string,
    upstreamId: string,
    rateLimit: Option<RateLimit>,
    maxConcurrency: Option<nat>,
    pricePrompt: Option<int>,
    priceCompletion: Option<int>)

  /** The internal identity of an upstream; the label `upstreamId` never takes part. */
  function DeriveStateKey(providerType: ProviderType, baseUrl: string, apiKeyEnv: string): string {
    providerType.AsStr() + "|" + baseUrl + "|" + apiKeyEnv
  }

  /** No other upstream shares the state key of this one. */
  ghost predicate Unambiguous(providerType: ProviderType, baseUrl: string, apiKeyEnv: string) {
    forall p, u, e :: DeriveStateKey(p, u, e) == DeriveStateKey(providerType, baseUrl, apiKeyEnv)
      ==> p == providerType && u == baseUrl && e == apiKeyEnv
  }

  lemma ProviderNameHasNoBar(p: ProviderType)
    ensures '|' !in p.AsStr()
    ensures p.AsStr() == "anthropic" <==> p.Anthropic?
  {
  }

  /**
    The joined form of a state key tells upstreams apart exactly as long as no bar occurs in the address
    or in the name of the key variable; a bar in either can be read as the separator.
  */
  lemma StateKeyUnambiguousIff(providerType: ProviderType, baseUrl: string, apiKeyEnv: string)
    ensures Unambiguous(providerType, baseUrl, apiKeyEnv) <==> '|' !in baseUrl && '|' !in apiKeyEnv
  {
    if '|' in baseUrl {
      var i :| 0 <= i < |baseUrl| && baseUrl[i] == '|';
      MovedBar(providerType, baseUrl, apiKeyEnv, i);
    } else if '|' in apiKeyEnv {
      var i :| 0 <= i < |apiKeyEnv| && apiKeyEnv[i] == '|';
      MovedBar(providerType, baseUrl + "|" + apiKeyEnv[..i], apiKeyEnv[i+1..], |baseUrl|);
      assert (baseUrl + "|" + apiKeyEnv[..i])[..|baseUrl|] == baseUrl;
      assert (baseUrl + "|" + apiKeyEnv[..i])[|baseUrl|+1..] == apiKeyEnv[..i];
      assert apiKeyEnv[..i] + "|" + apiKeyEnv[i+1..] == apiKeyEnv;
    } else {
      forall p, u, e | DeriveStateKey(p, u, e) == DeriveStateKey(providerType, baseUrl, apiKeyEnv)
        ensures p == providerType && u == baseUrl && e == apiKeyEnv
      {
        SameKeySameUpstream(providerType, baseUrl, apiKeyEnv, p, u, e);
      }
    }
  }

  lemma MovedBar(p: ProviderType, u: string, e: string, i: nat)
    requires i < |u| && u[i] == '|'
    ensures DeriveStateKey(p, u[..i], u[i+1..] + "|" + e) == DeriveStateKey(p, u, e)
    ensures u[..i] != u
  {
    assert u == u[..i] + "|" + u[i+1..];
  }

  lemma SameKeySameUpstream(p: ProviderType, u: string, e: string, p2: ProviderType, u2: string, e2: string)
    requires '|' !in u && '|' !in e && DeriveStateKey(p2, u2, e2) == DeriveStateKey(p, u, e)
    ensures p2 == p && u2 == u && e2 == e
  {
    ProviderNameHasNoBar(p);
    ProviderNameHasNoBar(p2);
    assert DeriveStateKey(p, u, e) == p.AsStr() + "|" + (u + "|" + e);
    assert DeriveStateKey(p2, u2, e2) == p2.AsStr() + "|" + (u2 + "|" + e2);
    SplitFirst('|', p.AsStr(), u + "|" + e, p2.AsStr(), u2 + "|" + e2);
    SplitOnly('|', u, e, u2, e2);
  }

  /** An inbound key's secret: the plain text, or the digest of it in lower-case hexadecimal. */
  datatype Secret = Plain(plain: string) | Digest(hex: string)

  datatype KeyConfig = KeyConfig(id: string, secret: Secret, allowModels: seq<string>, rateLimit: Option<RateLimit>)

  datatype RetryConfig = RetryConfig(enabled: bool, maxRetries: nat, backoffMs: nat)

  datatype Strategy = ConcatSynthesize | QuorumJudge

  datatype Recipe = Recipe(
    name: string, proposers: seq<string>, aggregator: string, strategy: Strategy, armTimeoutMs: nat, quorum: nat)

  /** `models` holds the values of the ordered model map, in key order. */
  datatype RuntimeConfig = RuntimeConfig(
    breaker: B.Config,
    retry: RetryConfig,
    defaultMaxTokens: nat,
    usageStore: Option<string>,
    keys: seq<KeyConfig>,
    models: seq<ModelConfig>,
    recipes: seq<Recipe>)

  /** What an upstream slot is built from; equality decides whether a reload may keep the slot. */
  datatype Governance = Governance(rateLimit: Option<RateLimit>, maxConcurrency: Option<nat>, breaker: B.Config)

  function GovernanceOf(m: ModelConfig, breaker: B.Config): Governance {
    Governance(m.rateLimit, m.maxConcurrency, breaker)
  }

  predicate DistinctNames(models: seq<ModelConfig>) {
    forall i, j :: 0 <= i < j < |models| ==> models[i].name != models[j].name
  }

  predicate SameGovernance(a: ModelConfig, b: ModelConfig) {
    a.rateLimit == b.rateLimit && a.maxConcurrency == b.maxConcurrency
  }

  /** Any two models on one upstream ask for the same limits. */
  predicate ConsistentGovernance(models: seq<ModelConfig>) {
    forall i, j :: 0 <= i < |models| && 0 <= j < |models| && models[i].stateKey == models[j].stateKey
      ==> SameGovernance(models[i], models[j])
  }

  function StateKeys(models: seq<ModelConfig>): set<string> {
    set i | 0 <= i < |models| :: models[i].stateKey
  }

  function Names(models: seq<ModelConfig>): set<string> {
    set i | 0 <= i < |models| :: models[i].name
  }

  /** The ids of the keys that declare a rate limit. */
  function LimitedIds(keys: seq<KeyConfig>): set<string> {
    set i | 0 <= i < |keys| && keys[i].rateLimit.Some? :: keys[i].id
  }

  /** What validation guarantees and the reload path relies on. */
  predicate Sound(c: RuntimeConfig) {
    DistinctNames(c.models) && ConsistentGovernance(c.models)
  }
}
