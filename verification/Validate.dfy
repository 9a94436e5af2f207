/**
  The cross-field checks of configuration validation (crates/moaray-config/src/validate.rs): identifiers,
  prices, keys, recipes, and one governance per upstream identity.
*/
module Validate {
  import opened Wrappers
  import opened Config

  datatype RateLimitDoc = RateLimitDoc(rps: nat, burst: Option<nat>)

  /** A parsed model entry; `baseUrl` is `None` when it is not an http or https URL. */
  datatype ModelDoc = ModelDoc(
    name: string,
    providerType: ProviderType,
    baseUrl: Option<string>,
    apiKeyEnv: string,
    upstreamId: Option<string>,
    rateLimit: Option<RateLimitDoc>,
    maxConcurrency: Option<nat>,
    pricePrompt: Option<Usd>,
    priceCompletion: Option<Usd>)

  /**
    A price in dollars per million tokens, as a floating-point number may be. `nano` is what the
    floating-point product of it and 10^9 comes to; a product beyond all numbers is any that is too large.
  */
  datatype Usd = NotFinite | Usd(value: real, nano: real)

  /** A parsed inbound key: the name of a variable that holds it, or its digest. */
  datatype KeyDoc = KeyDoc(
    id: string,
    keyEnv: Option<string>,
    keySha256: Option<string>,
    allowModels: seq<string>,
    rateLimit: Option<RateLimitDoc>)

  datatype ConfigError =
    | NoModels
    | DuplicateModel(name: string)
    | BadBaseUrl(model: string)
    | BadRateLimit(scope: string, name: string)
    | BadPrice(model: string, field: string)
    | KeySecretShape(id: string)
    | EmptyAllowlist(id: string)
    | ConflictingUpstreamGovernance(upstreamId: string, first: string, second: string, field: string)
    | EmptyProposers(recipe: string)
    | UnknownRecipeModel(recipe: string, role: string, model: string)
    | BadQuorum(recipe: string, quorum: nat, max: nat)

  function ValidRateLimit(scope: string, name: string, doc: Option<RateLimitDoc>): Result<Option<RateLimit>, ConfigError> {
    match doc
    case None => Ok(None)
    case Some(rl) =>
      if rl.rps < 1 then Err(BadRateLimit(scope, name))
      else
        var burst := if rl.burst.None? || rl.burst.value < rl.rps then rl.rps else rl.burst.value;
        Ok(Some(RateLimit(rl.rps, burst)))
  }

  const TWO_63: int := 0x8000_0000_0000_0000

  /** The nearest integer, halves away from zero, of a number that is not negative. */
  function Round(x: real): int { (x + 0.5).Floor }

  /** A product of numbers that are not negative is not, however it is rounded. */
  predicate IsProduct(p: Usd) { p.Usd? && p.value >= 0.0 ==> p.nano >= 0.0 }

  /**
    A price in whole nano-dollars. Compared as floating-point numbers, the largest 64-bit integer reads
    as 2^63; that one value passes and is stored as the largest 64-bit integer.
  */
  function ValidPrice(model: string, field: string, price: Option<Usd>): Result<Option<int>, ConfigError> {
    match price
    case None => Ok(None)
    case Some(NotFinite) => Err(BadPrice(model, field))
    case Some(Usd(v, product)) =>
      if v < 0.0 then Err(BadPrice(model, field))
      else
        var nano := Round(product);
        if nano > TWO_63 then Err(BadPrice(model, field))
        else Ok(Some(if nano == TWO_63 then TWO_63 - 1 else nano))
  }

  /**
    An accepted price fits 64 bits, is not negative, and is the integer nearest to the floating-point
    product; so it is off by half a nano-dollar and the rounding error `e` of that product at most. The
    products from 2^63 - 1/2 up to 2^63 + 1/2 are accepted too and read as the largest integer.
  */
  lemma PriceIsNearest(model: string, field: string, p: Usd, e: real)
    requires IsProduct(p)
    ensures var r := ValidPrice(model, field, Some(p));
      && (r.Ok? <==> p.Usd? && 0.0 <= p.value && p.nano < TWO_63 as real + 0.5)
      && (r.Err? ==> r.error == BadPrice(model, field))
      && (r.Ok? ==> r.value.Some? && 0 <= r.value.value < TWO_63)
      && (r.Ok? && p.nano < TWO_63 as real - 0.5 ==>
            2.0 * (r.value.value as real - p.nano) <= 1.0 && 2.0 * (p.nano - r.value.value as real) < 1.0)
      && (r.Ok? && p.nano >= TWO_63 as real - 0.5 ==> r.value.value == TWO_63 - 1)
      && (r.Ok? && p.nano < TWO_63 as real - 0.5 && -e <= p.nano - p.value * 1_000_000_000.0 <= e ==>
            -e - 0.5 <= r.value.value as real - p.value * 1_000_000_000.0 <= e + 0.5)
  {
  }

  function ToModel(m: ModelDoc): Result<ModelConfig, ConfigError> {
    if m.baseUrl.None? then Err(BadBaseUrl(m.name))
    else
      match ValidRateLimit("model", m.name, m.rateLimit)
      case Err(e) => Err(e)
      case Ok(limit) =>
        match ValidPrice(m.name, "price_prompt_per_mtok_usd", m.pricePrompt)
        case Err(e) => Err(e)
        case Ok(prompt) =>
          match ValidPrice(m.name, "price_completion_per_mtok_usd", m.priceCompletion)
          case Err(e) => Err(e)
          case Ok(completion) =>
            Ok(ModelConfig(
              m.name, m.providerType, m.baseUrl.value, m.apiKeyEnv,
              DeriveStateKey(m.providerType, m.baseUrl.value, m.apiKeyEnv),
              if m.upstreamId.Some? then m.upstreamId.value else m.name,
              limit, m.maxConcurrency, prompt, completion))
  }

  /** The limit that a document asks for: a burst is at least the rate. */
  predicate LimitFrom(limit: Option<RateLimit>, doc: Option<RateLimitDoc>) {
    match doc
    case None => limit == None
    case Some(d) =>
      && limit.Some? && limit.value.rps == d.rps
      && limit.value.burst == if d.burst.Some? && d.burst.value > d.rps then d.burst.value else d.rps
  }

  predicate PriceOk(price: Option<Usd>) {
    price.None? || (price.value.Usd? && price.value.value >= 0.0 && price.value.nano < TWO_63 as real + 0.5)
  }

  /** The stored price: the nearest integer to the product, capped at 64 bits. */
  predicate PriceFrom(stored: Option<int>, price: Option<Usd>) {
    match price
    case None => stored == None
    case Some(p) =>
      && p.Usd? && stored.Some? && stored.value < TWO_63
      && (p.nano < TWO_63 as real - 0.5 ==> stored.value as real - 0.5 <= p.nano < stored.value as real + 0.5)
      && (p.nano >= TWO_63 as real - 0.5 ==> stored.value == TWO_63 - 1)
  }

  /** What makes an entry acceptable. */
  predicate ModelDocOk(d: ModelDoc) {
    && d.baseUrl.Some? && (d.rateLimit.Some? ==> d.rateLimit.value.rps >= 1)
    && PriceOk(d.pricePrompt) && PriceOk(d.priceCompletion)
  }

  /** The model an entry describes, field by field. */
  predicate ModelFrom(m: ModelConfig, d: ModelDoc) {
    && m.name == d.name && m.providerType == d.providerType
    && d.baseUrl == Some(m.baseUrl) && m.apiKeyEnv == d.apiKeyEnv
    && m.stateKey == (if m.providerType == Anthropic then "anthropic" else "openai-compat") + "|" + m.baseUrl + "|" + m.apiKeyEnv
    && m.upstreamId == (if d.upstreamId.Some? then d.upstreamId.value else d.name)
    && LimitFrom(m.rateLimit, d.rateLimit) && m.maxConcurrency == d.maxConcurrency
    && PriceFrom(m.pricePrompt, d.pricePrompt) && PriceFrom(m.priceCompletion, d.priceCompletion)
  }

  /** What an error about an entry says is so. */
  predicate ModelFault(d: ModelDoc, e: ConfigError) {
    match e
    case BadBaseUrl(name) => name == d.name && d.baseUrl.None?
    case BadRateLimit(scope, name) => scope == "model" && name == d.name && d.rateLimit.Some? && d.rateLimit.value.rps < 1
    case BadPrice(name, field) =>
      && name == d.name
      && ((field == "price_prompt_per_mtok_usd" && !PriceOk(d.pricePrompt))
          || (field == "price_completion_per_mtok_usd" && !PriceOk(d.priceCompletion)))
    case _ => false
  }

  /** An entry is converted exactly if it is acceptable, into the model it describes; else the error is true. */
  lemma ToModelMeans(d: ModelDoc)
    ensures match ToModel(d) case Ok(m) => ModelDocOk(d) && ModelFrom(m, d) case Err(e) => !ModelDocOk(d) && ModelFault(d, e)
  {
  }

  type EnvSource = string -> Option<string>

  /** Lower case; a digest has no letters beyond ASCII, so others are left alone. */
  function Lower(s: string): (r: string)
    ensures |r| == |s|
    ensures forall i :: 0 <= i < |s| ==> r[i] as int == if 0x41 <= s[i] as int <= 0x5A then s[i] as int + 0x20 else s[i] as int
  {
    if s == [] then [] else [if 'A' <= s[0] <= 'Z' then s[0] - 'A' + 'a' else s[0]] + Lower(s[1..])
  }

  /** Exactly one kind of secret, a list of models, a limit that allows something. An unset variable gives an empty secret. */
  function ToKey(k: KeyDoc, env: EnvSource): Result<KeyConfig, ConfigError> {
    if k.keyEnv.Some? == k.keySha256.Some? then Err(KeySecretShape(k.id))
    else if k.allowModels == [] then Err(EmptyAllowlist(k.id))
    else
      match ValidRateLimit("key", k.id, k.rateLimit)
      case Err(e) => Err(e)
      case Ok(limit) =>
        var secret :=
          if k.keySha256.Some? then Digest(Lower(k.keySha256.value))
          else
            var found := env(k.keyEnv.value);
            Plain(if found.Some? then found.value else "");
        Ok(KeyConfig(k.id, secret, k.allowModels, limit))
  }

  predicate KeyOk(k: KeyDoc) {
    && k.keyEnv.Some? != k.keySha256.Some? && k.allowModels != []
    && (k.rateLimit.Some? ==> k.rateLimit.value.rps >= 1)
  }

  /** The key an entry describes, field by field; an unset variable leaves the secret empty. */
  predicate KeyFrom(k: KeyConfig, d: KeyDoc, env: EnvSource) {
    && k.id == d.id && k.allowModels == d.allowModels && LimitFrom(k.rateLimit, d.rateLimit)
    && (d.keySha256.Some? ==> k.secret == Digest(Lower(d.keySha256.value)))
    && (d.keyEnv.Some? ==> k.secret == Plain(if env(d.keyEnv.value) == None then "" else env(d.keyEnv.value).value))
  }

  predicate KeyFault(d: KeyDoc, e: ConfigError) {
    match e
    case KeySecretShape(id) => id == d.id && d.keyEnv.Some? == d.keySha256.Some?
    case EmptyAllowlist(id) => id == d.id && d.allowModels == []
    case BadRateLimit(scope, id) => scope == "key" && id == d.id && d.rateLimit.Some? && d.rateLimit.value.rps < 1
    case _ => false
  }

  lemma ToKeyMeans(d: KeyDoc, env: EnvSource)
    ensures match ToKey(d, env) case Ok(k) => KeyOk(d) && KeyFrom(k, d, env) case Err(e) => !KeyOk(d) && KeyFault(d, e)
  {
  }

  /** The keys in document order; accepted exactly when each is well formed. Ids may repeat. */
  method BuildKeys(docs: seq<KeyDoc>, env: EnvSource) returns (r: Result<seq<KeyConfig>, ConfigError>)
    ensures r.Ok? <==> forall i :: 0 <= i < |docs| ==> KeyOk(docs[i])
    ensures r.Ok? ==> |r.value| == |docs|
    ensures r.Ok? ==> forall i :: 0 <= i < |docs| ==> ToKey(docs[i], env) == Ok(r.value[i]) && KeyFrom(r.value[i], docs[i], env)
    ensures r.Err? ==> exists i :: 0 <= i < |docs| && KeyFault(docs[i], r.error)
  {
    var keys: seq<KeyConfig> := [];
    for n := 0 to |docs|
      invariant |keys| == n
      invariant forall i :: 0 <= i < n ==> KeyOk(docs[i]) && ToKey(docs[i], env) == Ok(keys[i]) && KeyFrom(keys[i], docs[i], env)
    {
      var k := ToKey(docs[n], env);
      ToKeyMeans(docs[n], env);
      if k.Err? {
        assert !KeyOk(docs[n]) && KeyFault(docs[n], k.error);
        return Err(k.error);
      }
      keys := keys + [k.value];
    }
    return Ok(keys);
  }

  /** Strict lexicographic order on characters, the key order of the model map. */
  predicate Before(a: string, b: string) {
    if b == [] then false
    else if a == [] then true
    else if a[0] == b[0] then Before(a[1..], b[1..])
    else a[0] < b[0]
  }

  lemma {:induction false} BeforeIsTotalOrder(a: string, b: string, c: string)
    ensures !Before(a, a)
    ensures a == b || Before(a, b) || Before(b, a)
    ensures Before(a, b) && Before(b, c) ==> Before(a, c)
    decreases |a| + |b| + |c|
  {
    if a != [] && b != [] && c != [] && a[0] == b[0] == c[0] {
      BeforeIsTotalOrder(a[1..], b[1..], c[1..]);
      assert a[1..] == b[1..] ==> a == b;
    } else if a != [] && b != [] && a[0] == b[0] {
      BeforeIsTotalOrder(a[1..], b[1..], []);
      assert a[1..] == b[1..] ==> a == b;
    } else if a != [] {
      BeforeIsTotalOrder(a[1..], [], []);
    }
  }

  predicate Ordered(models: seq<ModelConfig>) {
    forall i, j :: 0 <= i < j < |models| ==> Before(models[i].name, models[j].name)
  }

  /** `BTreeMap::insert` of a new key. */
  method InsertModel(models: seq<ModelConfig>, m: ModelConfig) returns (r: seq<ModelConfig>)
    requires Ordered(models) && m.name !in Names(models)
    ensures Ordered(r) && |r| == |models| + 1
    ensures forall x :: x in r <==> x in models || x == m
    ensures Names(r) == Names(models) + {m.name}
  {
    var k := 0;
    while k < |models| && Before(models[k].name, m.name)
      invariant 0 <= k <= |models|
      invariant forall i :: 0 <= i < k ==> Before(models[i].name, m.name)
    {
      k := k + 1;
    }
    r := models[..k] + [m] + models[k..];
    assert models == models[..k] + models[k..];
    forall j | k <= j < |models| ensures Before(m.name, models[j].name) {
      assert models[j].name in Names(models);
      BeforeIsTotalOrder(m.name, models[k].name, models[j].name);
      if j > k { assert Before(models[k].name, models[j].name); }
    }
    StaysOrdered(models, k, m);
    NamesOfMembers(models);
    NamesOfMembers(r);
  }

  lemma StaysOrdered(models: seq<ModelConfig>, k: nat, m: ModelConfig)
    requires Ordered(models) && k <= |models|
    requires forall i :: 0 <= i < k ==> Before(models[i].name, m.name)
    requires forall j :: k <= j < |models| ==> Before(m.name, models[j].name)
    ensures Ordered(models[..k] + [m] + models[k..])
  {
    var r := models[..k] + [m] + models[k..];
    forall i, j | 0 <= i < j < |r| ensures Before(r[i].name, r[j].name) {
      if i != k && j != k {
        assert r[i] == models[if i < k then i else i - 1] && r[j] == models[if j < k then j else j - 1];
      }
    }
  }

  lemma NamesOfMembers(models: seq<ModelConfig>)
    ensures Names(models) == set m | m in models :: m.name
  {
  }

  predicate DistinctDocs(docs: seq<ModelDoc>) {
    forall i, j :: 0 <= i < j < |docs| ==> docs[i].name != docs[j].name
  }

  predicate AllConvert(docs: seq<ModelDoc>) {
    forall i :: 0 <= i < |docs| ==> ToModel(docs[i]).Ok?
  }

  /** The entries converted one by one, in document order. */
  function Converted(docs: seq<ModelDoc>): (models: seq<ModelConfig>)
    requires AllConvert(docs)
    ensures |models| == |docs|
    ensures forall i :: 0 <= i < |docs| ==> models[i] == ToModel(docs[i]).value
  {
    seq(|docs|, i requires 0 <= i < |docs| => ToModel(docs[i]).value)
  }

  predicate SameName(a: ModelDoc, b: ModelDoc) { a.name == b.name }

  /** What an error about the models says is so. */
  predicate ModelsFault(docs: seq<ModelDoc>, e: ConfigError) {
    match e
    case NoModels => docs == []
    case DuplicateModel(name) => exists i, j :: 0 <= i < j < |docs| && SameName(docs[i], docs[j]) && docs[j].name == name
    case _ => exists i :: 0 <= i < |docs| && ModelFault(docs[i], e)
  }

  /** Each entry is described by one of the models, and each model describes an entry. */
  ghost predicate ModelsFrom(models: seq<ModelConfig>, docs: seq<ModelDoc>) {
    && (forall d :: d in docs ==> exists m :: m in models && ModelFrom(m, d))
    && (forall m :: m in models ==> exists d :: d in docs && ModelFrom(m, d))
  }

  lemma AllConvertIff(docs: seq<ModelDoc>)
    ensures AllConvert(docs) <==> forall i :: 0 <= i < |docs| ==> ModelDocOk(docs[i])
  {
    forall i | 0 <= i < |docs| ensures ToModel(docs[i]).Ok? <==> ModelDocOk(docs[i]) {
      ToModelMeans(docs[i]);
    }
  }

  lemma ConvertedDescribe(models: seq<ModelConfig>, docs: seq<ModelDoc>)
    requires AllConvert(docs) && forall m :: m in models <==> m in Converted(docs)
    ensures ModelsFrom(models, docs)
  {
    hide ModelFrom, ModelDocOk;
    forall d | d in docs ensures exists m :: m in models && ModelFrom(m, d) {
      var i :| 0 <= i < |docs| && docs[i] == d;
      ToModelMeans(d);
      assert Converted(docs)[i] in models;
    }
    forall m | m in models ensures exists d :: d in docs && ModelFrom(m, d) {
      var i :| 0 <= i < |docs| && Converted(docs)[i] == m;
      ToModelMeans(docs[i]);
      assert docs[i] in docs;
    }
  }

  /** The models of a document: accepted exactly when names are distinct and every entry converts. */
  method BuildModels(docs: seq<ModelDoc>) returns (r: Result<seq<ModelConfig>, ConfigError>)
    ensures r.Ok? <==> docs != [] && DistinctDocs(docs) && AllConvert(docs)
    ensures r.Ok? <==> docs != [] && DistinctDocs(docs) && forall i :: 0 <= i < |docs| ==> ModelDocOk(docs[i])
    ensures r.Ok? ==> ModelsFrom(r.value, docs)
    ensures r.Ok? ==> Ordered(r.value) && |r.value| == |docs|
    ensures r.Ok? ==> forall m :: m in r.value <==> m in Converted(docs)
    ensures r.Err? ==> ModelsFault(docs, r.error)
  {
    hide ModelDocOk, ModelsFrom, ModelFault;
    AllConvertIff(docs);
    if docs == [] {
      return Err(NoModels);
    }
    var models: seq<ModelConfig> := [];
    for n := 0 to |docs|
      invariant Inserted(docs, n, models)
    {
      if docs[n].name in Names(models) {
        RepeatedName(docs, n, models);
        return Err(DuplicateModel(docs[n].name));
      }
      var m := ToModel(docs[n]);
      if m.Err? {
        ToModelMeans(docs[n]);
        return Err(m.error);
      }
      ghost var before := models;
      models := InsertModel(models, m.value);
      InsertedNext(docs, n, before, m.value, models);
    }
    assert docs[..|docs|] == docs;
    ConvertedDescribe(models, docs);
    return Ok(models);
  }

  /** The first `n` entries are in. */
  ghost predicate Inserted(docs: seq<ModelDoc>, n: nat, models: seq<ModelConfig>) {
    && n <= |docs| && Ordered(models) && |models| == n
    && DistinctDocs(docs[..n]) && AllConvert(docs[..n])
    && (forall m :: m in models <==> m in Converted(docs[..n]))
    && Names(models) == DocNames(docs[..n])
  }

  function DocNames(docs: seq<ModelDoc>): set<string> { set i | 0 <= i < |docs| :: docs[i].name }

  lemma RepeatedName(docs: seq<ModelDoc>, n: nat, models: seq<ModelConfig>)
    requires n < |docs| && Inserted(docs, n, models) && docs[n].name in Names(models)
    ensures !DistinctDocs(docs) && ModelsFault(docs, DuplicateModel(docs[n].name))
  {
    var i :| 0 <= i < n && docs[..n][i].name == docs[n].name;
    assert SameName(docs[i], docs[n]);
  }

  lemma InsertedNext(docs: seq<ModelDoc>, n: nat, before: seq<ModelConfig>, m: ModelConfig, after: seq<ModelConfig>)
    requires n < |docs| && Inserted(docs, n, before) && docs[n].name !in Names(before) && ToModel(docs[n]) == Ok(m)
    requires Ordered(after) && |after| == n + 1 && (forall x :: x in after <==> x in before || x == m)
    requires Names(after) == Names(before) + {m.name}
    ensures Inserted(docs, n + 1, after)
  {
    var front := docs[..n];
    assert docs[..n+1] == front + [docs[n]];
    ConvertedNext(front, docs[n], m);
    DocNamesNext(front, docs[n]);
  }

  lemma ConvertedNext(front: seq<ModelDoc>, doc: ModelDoc, m: ModelConfig)
    requires AllConvert(front) && ToModel(doc) == Ok(m)
    ensures AllConvert(front + [doc]) && Converted(front + [doc]) == Converted(front) + [m]
  {
  }

  lemma DocNamesNext(front: seq<ModelDoc>, doc: ModelDoc)
    requires DistinctDocs(front) && doc.name !in DocNames(front)
    ensures DocNames(front + [doc]) == DocNames(front) + {doc.name} && DistinctDocs(front + [doc])
  {
    var docs := front + [doc];
    assert docs[|front|] == doc;
    forall i | 0 <= i < |front| ensures docs[i] == front[i] && front[i].name in DocNames(front) && front[i].name in DocNames(docs) {
      assert docs[i].name in DocNames(docs);
    }
  }

  lemma OrderedAreDistinct(models: seq<ModelConfig>)
    requires Ordered(models)
    ensures DistinctNames(models)
  {
    forall i, j | 0 <= i < j < |models| ensures models[i].name != models[j].name {
      BeforeIsTotalOrder(models[i].name, models[j].name, []);
    }
  }

  /** The error a refusal reports: two models of one upstream, and the first field they differ in. */
  predicate Reports(e: ConfigError, first: ModelConfig, second: ModelConfig) {
    && first.stateKey == second.stateKey && !SameGovernance(first, second)
    && e == ConflictingUpstreamGovernance(
              second.upstreamId, first.name, second.name,
              if first.rateLimit != second.rateLimit then "rate_limit" else "max_concurrency")
  }

  /**
    The per-upstream consistency loop: each model is compared with the first one seen on its state
    key. That is enough: it accepts exactly when all models of a state key agree pairwise.
  */
  method CheckGovernance(models: seq<ModelConfig>) returns (r: Option<ConfigError>)
    ensures r.None? <==> ConsistentGovernance(models)
    ensures r.Some? ==> exists i, j :: 0 <= i < j < |models| && Reports(r.value, models[i], models[j])
  {
    var seen: map<string, nat> := map[];
    for n := 0 to |models|
      invariant forall k :: k in seen ==> seen[k] < n && models[seen[k]].stateKey == k
      invariant forall i :: 0 <= i < n ==> models[i].stateKey in seen
      invariant forall i :: 0 <= i < n ==> SameGovernance(models[seen[models[i].stateKey]], models[i])
    {
      var m := models[n];
      if m.stateKey !in seen {
        seen := seen[m.stateKey := n];
      } else {
        var first := models[seen[m.stateKey]];
        if first.rateLimit != m.rateLimit {
          r := Some(ConflictingUpstreamGovernance(m.upstreamId, first.name, m.name, "rate_limit"));
          assert Reports(r.value, models[seen[m.stateKey]], models[n]);
          return;
        }
        if first.maxConcurrency != m.maxConcurrency {
          r := Some(ConflictingUpstreamGovernance(m.upstreamId, first.name, m.name, "max_concurrency"));
          assert Reports(r.value, models[seen[m.stateKey]], models[n]);
          return;
        }
      }
    }
    return None;
  }

  predicate RecipeOk(known: set<string>, r: Recipe) {
    && r.proposers != []
    && (forall p :: p in r.proposers ==> p in known)
    && r.aggregator in known
    && 1 <= r.quorum <= |r.proposers|
  }

  /** What an error about a recipe says is so. */
  predicate RecipeFault(known: set<string>, r: Recipe, e: ConfigError) {
    match e
    case EmptyProposers(name) => name == r.name && r.proposers == []
    case UnknownRecipeModel(name, role, model) =>
      && name == r.name && model !in known
      && ((role == "proposer" && model in r.proposers) || (role == "aggregator" && model == r.aggregator))
    case BadQuorum(name, quorum, max) => name == r.name && quorum == r.quorum && max == |r.proposers| && !(1 <= quorum <= max)
    case _ => false
  }

  /** Accepts exactly the recipes whose arms are configured and whose quorum can be met. */
  method CheckRecipe(known: set<string>, recipe: Recipe) returns (r: Option<ConfigError>)
    ensures r.None? <==> RecipeOk(known, recipe)
    ensures r.Some? ==> RecipeFault(known, recipe, r.value)
  {
    if recipe.proposers == [] {
      return Some(EmptyProposers(recipe.name));
    }
    for n := 0 to |recipe.proposers|
      invariant forall i :: 0 <= i < n ==> recipe.proposers[i] in known
    {
      if recipe.proposers[n] !in known {
        return Some(UnknownRecipeModel(recipe.name, "proposer", recipe.proposers[n]));
      }
    }
    if recipe.aggregator !in known {
      return Some(UnknownRecipeModel(recipe.name, "aggregator", recipe.aggregator));
    }
    if recipe.quorum < 1 || recipe.quorum > |recipe.proposers| {
      return Some(BadQuorum(recipe.name, recipe.quorum, |recipe.proposers|));
    }
    return None;
  }

  /** What a document must satisfy, stated on its entries in any order. */
  predicate Acceptable(docs: seq<ModelDoc>, keys: seq<KeyDoc>, recipes: seq<Recipe>) {
    && docs != [] && DistinctDocs(docs) && AllConvert(docs)
    && ConsistentGovernance(Converted(docs))
    && (forall i :: 0 <= i < |keys| ==> KeyOk(keys[i]))
    && forall i :: 0 <= i < |recipes| ==> RecipeOk(Names(Converted(docs)), recipes[i])
  }

  /** Neither check can tell two lists with the same members apart. */
  lemma OrderDoesNotMatter(a: seq<ModelConfig>, b: seq<ModelConfig>)
    requires forall m :: m in a <==> m in b
    ensures ConsistentGovernance(a) ==> ConsistentGovernance(b)
    ensures Names(a) == Names(b)
  {
    NamesOfMembers(a);
    NamesOfMembers(b);
    if ConsistentGovernance(a) {
      forall i, j | 0 <= i < |b| && 0 <= j < |b| && b[i].stateKey == b[j].stateKey
        ensures SameGovernance(b[i], b[j])
      {
        assert b[i] in a && b[j] in a;
      }
    }
  }

  /**
    Validation of models, keys and recipes; `rest` carries the recipes and the parts of the configuration
    that no check touches. Accepted exactly when the document is acceptable, and then every later stage
    may rely on `Sound`.
  */
  method Validate(docs: seq<ModelDoc>, keyDocs: seq<KeyDoc>, env: EnvSource, rest: RuntimeConfig)
    returns (r: Result<RuntimeConfig, ConfigError>)
    ensures r.Ok? <==> Acceptable(docs, keyDocs, rest.recipes)
    ensures r.Ok? ==>
      && r.value == rest.(models := r.value.models, keys := r.value.keys) && Sound(r.value)
      && |r.value.keys| == |keyDocs|
      && (forall i :: 0 <= i < |keyDocs| ==> ToKey(keyDocs[i], env) == Ok(r.value.keys[i]) && KeyFrom(r.value.keys[i], keyDocs[i], env))
      && ModelsFrom(r.value.models, docs)
      && Ordered(r.value.models) && |r.value.models| == |docs|
      && forall m :: m in r.value.models <==> m in Converted(docs)
  {
    var built := BuildModels(docs);
    if built.Err? {
      return Err(built.error);
    }
    var models := built.value;
    OrderedAreDistinct(models);
    OrderDoesNotMatter(models, Converted(docs));
    OrderDoesNotMatter(Converted(docs), models);
    var conflict := CheckGovernance(models);
    if conflict.Some? {
      return Err(conflict.value);
    }
    var keys := BuildKeys(keyDocs, env);
    if keys.Err? {
      return Err(keys.error);
    }
    for n := 0 to |rest.recipes|
      invariant forall i :: 0 <= i < n ==> RecipeOk(Names(models), rest.recipes[i])
    {
      var bad := CheckRecipe(Names(models), rest.recipes[n]);
      if bad.Some? {
        return Err(bad.value);
      }
    }
    return Ok(rest.(models := models, keys := keys.value));
  }
}
