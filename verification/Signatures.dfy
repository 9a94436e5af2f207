/**
  The signature by which a reload recognizes an unchanged provider (crates/moaray/src/registry.rs). The
  source compares the joined text; the record is what the text was made from.
*/
module Signatures {
  import opened Wrappers
  import opened Text
  import opened Config
  import B = Breaker

  /** Every input that affects a provider. */
  datatype Signature = Signature(
    providerType: ProviderType,
    baseUrl: string,
    apiKeyEnv: string,
    apiKey: string,
    stateKey: string,
    upstreamId: string,
    defaultMaxTokens: nat,
    retry: RetryConfig,
    governance: Governance)

  function SignatureOf(m: ModelConfig, apiKey: string, config: RuntimeConfig): Signature {
    Signature(m.providerType, m.baseUrl, m.apiKeyEnv, apiKey, m.stateKey, m.upstreamId,
              config.defaultMaxTokens, config.retry, GovernanceOf(m, config.breaker))
  }

  // ---- the text ----

  function TypeText(p: ProviderType): string {
    match p
    case OpenaiCompat => "OpenaiCompat"
    case Anthropic => "Anthropic"
  }

  function BoolText(b: bool): string { if b then "true" else "false" }

  /** Three parts with a colon between them. */
  function Triple(a: string, b: string, c: string): string { a + ":" + (b + ":" + c) }

  function RetryText(r: RetryConfig): string { Triple(BoolText(r.enabled), Decimal(r.maxRetries), Decimal(r.backoffMs)) }

  function LimitText(limit: Option<RateLimit>): string {
    match limit
    case None => "none"
    case Some(l) => Decimal(l.rps) + ":" + Decimal(l.burst)
  }

  function CapText(cap: Option<nat>): string {
    match cap
    case None => "None"
    case Some(n) => "Some(" + (Decimal(n) + ")")
  }

  function BreakerText(c: B.Config): string {
    Triple(Decimal(c.failureThreshold as int), Decimal(c.openMs), Decimal(c.halfOpenSuccesses as int))
  }

  function NumberFields(s: Signature): seq<string> {
    ["dmt=" + Decimal(s.defaultMaxTokens), "retry=" + RetryText(s.retry), "rl=" + LimitText(s.governance.rateLimit),
     "mc=" + CapText(s.governance.maxConcurrency), "brk=" + BreakerText(s.governance.breaker)]
  }

  function NameFields(s: Signature): seq<string> {
    ["pt=" + TypeText(s.providerType), "url=" + s.baseUrl, "keyenv=" + s.apiKeyEnv, "key=" + s.apiKey,
     "sid=" + s.stateKey, "uid=" + s.upstreamId]
  }

  /** `provider_signature`: the fields joined by bars, without any length prefix. */
  function SignatureText(s: Signature): string { JoinBars(NameFields(s) + NumberFields(s)) }

  // ---- what equal texts have in common ----

  predicate NoBars(fields: seq<string>) {
    forall i :: 0 <= i < |fields| ==> '|' !in fields[i]
  }

  lemma NoBarsInPart(fields: seq<string>, i: nat, j: nat)
    requires NoBars(fields) && i <= j <= |fields|
    ensures NoBars(fields[i..j])
  {
  }

  lemma MoveLast(a: seq<string>, xs: seq<string>)
    requires xs != []
    ensures a + xs == (a + xs[..|xs|-1]) + [xs[|xs|-1]] && xs == xs[..|xs|-1] + [xs[|xs|-1]]
  {
  }

  /** A text followed by bar-free fields gives each of them away, last one first. */
  lemma {:induction false} PeelEnd(a: seq<string>, xs: seq<string>, b: seq<string>, ys: seq<string>)
    requires a != [] && b != [] && |xs| == |ys| && JoinBars(a + xs) == JoinBars(b + ys)
    requires NoBars(xs) && NoBars(ys)
    ensures xs == ys && JoinBars(a) == JoinBars(b)
    decreases |xs|
  {
    if xs == [] {
      assert a + xs == a && b + ys == b;
    } else {
      var n := |xs| - 1;
      MoveLast(a, xs);
      MoveLast(b, ys);
      DropLastField(a + xs[..n], b + ys[..n], xs[n], ys[n]);
      NoBarsInPart(xs, 0, n);
      NoBarsInPart(ys, 0, n);
      PeelEnd(a, xs[..n], b, ys[..n]);
    }
  }

  /** Bar-free fields in front are given away one by one. */
  lemma {:induction false} PeelFront(xs: seq<string>, a: seq<string>, ys: seq<string>, b: seq<string>)
    requires a != [] && b != [] && |xs| == |ys| && JoinBars(xs + a) == JoinBars(ys + b)
    requires NoBars(xs) && NoBars(ys)
    ensures xs == ys && JoinBars(a) == JoinBars(b)
    decreases |xs|
  {
    if xs == [] {
      assert xs + a == a && ys + b == b;
    } else {
      assert xs + a == [xs[0]] + (xs[1..] + a) && ys + b == [ys[0]] + (ys[1..] + b);
      DropFirstField(xs[0], ys[0], xs[1..] + a, ys[1..] + b);
      PeelFront(xs[1..], a, ys[1..], b);
      assert xs == [xs[0]] + xs[1..] && ys == [ys[0]] + ys[1..];
    }
  }

  lemma NumbersHaveNoBar(s: Signature)
    ensures NoBars(NumberFields(s))
  {
    LimitHasNoBar(s.governance.rateLimit);
    CapHasNoBar(s.governance.maxConcurrency);
    DecimalHasNo(s.defaultMaxTokens, '|');
    DecimalHasNo(s.retry.maxRetries, '|');
    DecimalHasNo(s.retry.backoffMs, '|');
    DecimalHasNo(s.governance.breaker.failureThreshold as int, '|');
    DecimalHasNo(s.governance.breaker.openMs, '|');
    DecimalHasNo(s.governance.breaker.halfOpenSuccesses as int, '|');
  }

  lemma LimitHasNoBar(limit: Option<RateLimit>)
    ensures '|' !in LimitText(limit)
  {
    if limit.Some? {
      DecimalHasNo(limit.value.rps, '|');
      DecimalHasNo(limit.value.burst, '|');
    }
  }

  lemma CapHasNoBar(cap: Option<nat>)
    ensures '|' !in CapText(cap)
  {
    if cap.Some? {
      DecimalHasNo(cap.value, '|');
    }
  }

  lemma TripleIsInjective(a: string, b: string, c: string, x: string, y: string, z: string)
    requires Triple(a, b, c) == Triple(x, y, z)
    requires ':' !in a && ':' !in b && ':' !in x && ':' !in y
    ensures a == x && b == y && c == z
  {
    SplitFirst(':', a, b + ":" + c, x, y + ":" + z);
    SplitFirst(':', b, c, y, z);
  }

  lemma RetryTextIsInjective(r: RetryConfig, s: RetryConfig)
    requires RetryText(r) == RetryText(s)
    ensures r == s
  {
    DecimalHasNo(r.maxRetries, ':');
    DecimalHasNo(s.maxRetries, ':');
    TripleIsInjective(BoolText(r.enabled), Decimal(r.maxRetries), Decimal(r.backoffMs),
                      BoolText(s.enabled), Decimal(s.maxRetries), Decimal(s.backoffMs));
    DecimalIsInjective(r.maxRetries, s.maxRetries);
    DecimalIsInjective(r.backoffMs, s.backoffMs);
  }

  lemma BreakerTextIsInjective(r: B.Config, s: B.Config)
    requires BreakerText(r) == BreakerText(s)
    ensures r == s
  {
    DecimalHasNo(r.failureThreshold as int, ':');
    DecimalHasNo(s.failureThreshold as int, ':');
    DecimalHasNo(r.openMs, ':');
    DecimalHasNo(s.openMs, ':');
    TripleIsInjective(Decimal(r.failureThreshold as int), Decimal(r.openMs), Decimal(r.halfOpenSuccesses as int),
                      Decimal(s.failureThreshold as int), Decimal(s.openMs), Decimal(s.halfOpenSuccesses as int));
    DecimalIsInjective(r.failureThreshold as int, s.failureThreshold as int);
    DecimalIsInjective(r.openMs, s.openMs);
    DecimalIsInjective(r.halfOpenSuccesses as int, s.halfOpenSuccesses as int);
  }

  lemma LimitTextIsInjective(r: Option<RateLimit>, s: Option<RateLimit>)
    requires LimitText(r) == LimitText(s)
    ensures r == s
  {
    if r.Some? && s.Some? {
      DecimalHasNo(r.value.rps, ':');
      DecimalHasNo(s.value.rps, ':');
      SplitFirst(':', Decimal(r.value.rps), Decimal(r.value.burst), Decimal(s.value.rps), Decimal(s.value.burst));
      DecimalIsInjective(r.value.rps, s.value.rps);
      DecimalIsInjective(r.value.burst, s.value.burst);
    } else if r.Some? {
      LimitIsNotNone(r.value);
    } else if s.Some? {
      LimitIsNotNone(s.value);
    }
  }

  lemma LimitIsNotNone(l: RateLimit)
    ensures LimitText(Some(l)) != LimitText(None)
  {
    assert LimitText(Some(l))[|Decimal(l.rps)|] == ':';
    assert ':' !in "none";
  }

  lemma CapTextIsInjective(r: Option<nat>, s: Option<nat>)
    requires CapText(r) == CapText(s)
    ensures r == s
  {
    if r.Some? && s.Some? {
      var x, y := Decimal(r.value), Decimal(s.value);
      assert ("Some(" + (x + ")"))[5..] == x + ")" && ("Some(" + (y + ")"))[5..] == y + ")";
      assert (x + ")")[..|x|] == x && (y + ")")[..|y|] == y;
      DecimalIsInjective(r.value, s.value);
    } else if r.Some? {
      CapIsNotNone(r.value);
    } else if s.Some? {
      CapIsNotNone(s.value);
    }
  }

  lemma CapIsNotNone(n: nat)
    ensures CapText(Some(n)) != CapText(None)
  {
    assert CapText(Some(n))[0] == 'S';
  }

  lemma Unlabelled(name: string, a: string, b: string)
    requires name + a == name + b
    ensures a == b
  {
    assert (name + a)[|name|..] == a && (name + b)[|name|..] == b;
  }

  lemma NumbersAreInjective(s: Signature, t: Signature)
    requires NumberFields(s) == NumberFields(t)
    ensures s.defaultMaxTokens == t.defaultMaxTokens && s.retry == t.retry && s.governance == t.governance
  {
    var f, g := NumberFields(s), NumberFields(t);
    assert f[0] == g[0] && f[1] == g[1] && f[2] == g[2] && f[3] == g[3] && f[4] == g[4];
    Unlabelled("dmt=", Decimal(s.defaultMaxTokens), Decimal(t.defaultMaxTokens));
    Unlabelled("retry=", RetryText(s.retry), RetryText(t.retry));
    Unlabelled("rl=", LimitText(s.governance.rateLimit), LimitText(t.governance.rateLimit));
    Unlabelled("mc=", CapText(s.governance.maxConcurrency), CapText(t.governance.maxConcurrency));
    Unlabelled("brk=", BreakerText(s.governance.breaker), BreakerText(t.governance.breaker));
    DecimalIsInjective(s.defaultMaxTokens, t.defaultMaxTokens);
    RetryTextIsInjective(s.retry, t.retry);
    LimitTextIsInjective(s.governance.rateLimit, t.governance.rateLimit);
    CapTextIsInjective(s.governance.maxConcurrency, t.governance.maxConcurrency);
    BreakerTextIsInjective(s.governance.breaker, t.governance.breaker);
  }

  lemma TypeHasNoBar(p: ProviderType)
    ensures '|' !in "pt=" + TypeText(p)
  {
  }

  lemma TypeTextIsInjective(p: ProviderType, q: ProviderType)
    requires TypeText(p) == TypeText(q)
    ensures p == q
  {
    assert TypeText(OpenaiCompat)[0] == 'O' && TypeText(Anthropic)[0] == 'A';
  }

  lemma TextsShareNumbers(s: Signature, t: Signature)
    requires SignatureText(s) == SignatureText(t)
    ensures NumberFields(s) == NumberFields(t) && JoinBars(NameFields(s)) == JoinBars(NameFields(t))
  {
    NumbersHaveNoBar(s);
    NumbersHaveNoBar(t);
    PeelEnd(NameFields(s), NumberFields(s), NameFields(t), NumberFields(t));
  }

  /**
    Whatever the names hold, equal texts mean equal provider type, token default, retry policy and
    limits: a provider reused by its text never works under other limits than its model asks for.
  */
  lemma EqualTextsEqualLimits(s: Signature, t: Signature)
    requires SignatureText(s) == SignatureText(t)
    ensures s.providerType == t.providerType && s.defaultMaxTokens == t.defaultMaxTokens
    ensures s.retry == t.retry && s.governance == t.governance
  {
    TextsShareNumbers(s, t);
    NumbersAreInjective(s, t);
    var f, g := NameFields(s), NameFields(t);
    TypeHasNoBar(s.providerType);
    TypeHasNoBar(t.providerType);
    assert f == [f[0]] + f[1..] && g == [g[0]] + g[1..];
    DropFirstField(f[0], g[0], f[1..], g[1..]);
    Unlabelled("pt=", TypeText(s.providerType), TypeText(t.providerType));
    TypeTextIsInjective(s.providerType, t.providerType);
  }

  /** No bar in what configuration and environment put into the text. */
  predicate BarFree(s: Signature) {
    '|' !in s.baseUrl && '|' !in s.apiKeyEnv && '|' !in s.apiKey && '|' !in s.upstreamId
  }

  lemma NamesHaveNoBar(s: Signature)
    requires BarFree(s)
    ensures NoBars(NameFields(s)[..4]) && '|' !in NameFields(s)[5]
  {
    TypeHasNoBar(s.providerType);
  }

  /** Without bars in the names the text determines the record, whatever is in the state key. */
  lemma BarFreeTextsAreInjective(s: Signature, t: Signature)
    requires SignatureText(s) == SignatureText(t) && BarFree(s) && BarFree(t)
    ensures s == t
  {
    EqualTextsEqualLimits(s, t);
    TextsShareNumbers(s, t);
    NamesHaveNoBar(s);
    NamesHaveNoBar(t);
    var f, g := NameFields(s), NameFields(t);
    assert f == f[..5] + [f[5]] && g == g[..5] + [g[5]];
    DropLastField(f[..5], g[..5], f[5], g[5]);
    assert f[..5] == f[..4] + [f[4]] && g[..5] == g[..4] + [g[4]];
    PeelFront(f[..4], [f[4]], g[..4], [g[4]]);
    SameNames(s, t);
  }

  lemma SameNames(s: Signature, t: Signature)
    requires NameFields(s)[..4] == NameFields(t)[..4] && NameFields(s)[4] == NameFields(t)[4] && NameFields(s)[5] == NameFields(t)[5]
    ensures s.baseUrl == t.baseUrl && s.apiKeyEnv == t.apiKeyEnv && s.apiKey == t.apiKey
    ensures s.stateKey == t.stateKey && s.upstreamId == t.upstreamId
  {
    var f, g := NameFields(s), NameFields(t);
    assert f[1] == f[..4][1] == g[..4][1] == g[1];
    assert f[2] == f[..4][2] == g[..4][2] == g[2];
    assert f[3] == f[..4][3] == g[..4][3] == g[3];
    Unlabelled("url=", s.baseUrl, t.baseUrl);
    Unlabelled("keyenv=", s.apiKeyEnv, t.apiKeyEnv);
    Unlabelled("key=", s.apiKey, t.apiKey);
    Unlabelled("sid=", s.stateKey, t.stateKey);
    Unlabelled("uid=", s.upstreamId, t.upstreamId);
  }

  // ---- a collision ----

  lemma {:induction false} LabelInside(name: string, head: string, rest: seq<string>)
    requires rest != []
    ensures name + JoinBars([head] + rest) == JoinBars([name + head] + rest)
  {
    JoinConcat([head], rest);
    JoinConcat([name + head], rest);
    var later := JoinBars(rest);
    assert name + (head + ['|'] + later) == (name + head) + ['|'] + later;
  }

  lemma {:induction false} SixGroups(a: seq<string>, b: seq<string>, c: seq<string>, d: seq<string>, e: seq<string>, f: seq<string>)
    ensures Concatenated([a, b, c, d, e, f]) == a + b + c + d + e + f
  {
    var g := [a, b, c, d, e, f];
    assert g[..5] == [a, b, c, d, e] && g[..5][..4] == [a, b, c, d] && g[..5][..4][..3] == [a, b, c];
    assert [a, b, c][..2] == [a, b] && [a, b][..1] == [a] && [a][..0] == [];
    assert Concatenated([a]) == [] + a == a;
    assert Concatenated([a, b]) == a + b;
    assert Concatenated([a, b, c]) == a + b + c;
    assert Concatenated([a, b, c, d]) == a + b + c + d;
    assert Concatenated([a, b, c, d, e]) == a + b + c + d + e;
  }

  /** Two upstreams: one behind `url` whose key value holds bars, one whose address and label do. */
  function FirstClash(p: ProviderType, url: string, like: Signature): Signature {
    var key := JoinBars(["z"] + ["keyenv=B", "key=k", "sid=" + p.AsStr(), url, "keyenv=A", "key=z", "B", "uid=m"]);
    Signature(p, url, "A", key, DeriveStateKey(p, url, "A"), "l", like.defaultMaxTokens, like.retry, like.governance)
  }

  function ClashUrl(url: string): string { JoinBars([url] + ["keyenv=A", "key=z"]) }

  function SecondClash(p: ProviderType, url: string, like: Signature): Signature {
    var uid := JoinBars(["m"] + ["sid=" + p.AsStr(), url, "A", "uid=l"]);
    Signature(p, ClashUrl(url), "B", "k", DeriveStateKey(p, ClashUrl(url), "B"), uid, like.defaultMaxTokens, like.retry, like.governance)
  }

  lemma {:induction false} StateKeyJoined(p: ProviderType, u: seq<string>, e: string)
    requires u != []
    ensures "sid=" + DeriveStateKey(p, JoinBars(u), e) == JoinBars(["sid=" + p.AsStr()] + u + [e])
  {
    var head := "sid=" + p.AsStr();
    JoinConcat([head], u);
    JoinAppend([head] + u, e);
    Reassociate("sid=", p.AsStr(), JoinBars(u), e);
  }

  lemma Reassociate(name: string, a: string, b: string, c: string)
    ensures name + (a + "|" + b + "|" + c) == ((name + a) + ['|'] + b) + ['|'] + c
  {
  }

  lemma Labels()
    ensures "keyenv=" + "A" == "keyenv=A" && "keyenv=" + "B" == "keyenv=B"
    ensures "key=" + "k" == "key=k" && "key=" + "z" == "key=z" && "uid=" + "l" == "uid=l" && "uid=" + "m" == "uid=m"
  {
  }

  /** Six fields, each joined from a group, read as the groups one after another. */
  lemma {:induction false} SixFields(
    fields: seq<string>, a: seq<string>, b: seq<string>, c: seq<string>, d: seq<string>, e: seq<string>, f: seq<string>)
    requires a != [] && b != [] && c != [] && d != [] && e != [] && f != []
    requires fields == [JoinBars(a), JoinBars(b), JoinBars(c), JoinBars(d), JoinBars(e), JoinBars(f)]
    ensures JoinBars(fields) == JoinBars(a + b + c + d + e + f)
  {
    JoinOfJoins([a, b, c, d, e, f], fields);
    SixGroups(a, b, c, d, e, f);
  }

  lemma FirstClashFields(p: ProviderType, url: string, like: Signature)
    ensures JoinBars(NameFields(FirstClash(p, url, like))) == JoinBars(ClashFields("pt=" + TypeText(p), url, "sid=" + p.AsStr()))
  {
    var rest := ["keyenv=B", "key=k", "sid=" + p.AsStr(), url, "keyenv=A", "key=z", "B", "uid=m"];
    LabelInside("key=", "z", rest);
    StateKeyJoined(p, [url], "A");
    Labels();
    FirstFlat("pt=" + TypeText(p), url, "sid=" + p.AsStr());
    SixFields(NameFields(FirstClash(p, url, like)),
      ["pt=" + TypeText(p)], ["url=" + url], ["keyenv=A"], ["key=z"] + rest, ["sid=" + p.AsStr()] + [url] + ["A"], ["uid=l"]);
  }

  lemma SecondClashFields(p: ProviderType, url: string, like: Signature)
    ensures JoinBars(NameFields(SecondClash(p, url, like))) == JoinBars(ClashFields("pt=" + TypeText(p), url, "sid=" + p.AsStr()))
  {
    var inner := ["keyenv=A", "key=z"];
    var later := ["sid=" + p.AsStr(), url, "A", "uid=l"];
    LabelInside("url=", url, inner);
    LabelInside("uid=", "m", later);
    StateKeyJoined(p, [url] + inner, "B");
    Labels();
    SecondFlat("pt=" + TypeText(p), url, "sid=" + p.AsStr());
    SixFields(NameFields(SecondClash(p, url, like)),
      ["pt=" + TypeText(p)], ["url=" + url] + inner, ["keyenv=B"], ["key=k"], ["sid=" + p.AsStr()] + ([url] + inner) + ["B"], ["uid=m"] + later);
  }

  lemma FirstFlat(pt: string, url: string, sid: string)
    ensures [pt] + ["url=" + url] + ["keyenv=A"]
      + (["key=z"] + ["keyenv=B", "key=k", sid, url, "keyenv=A", "key=z", "B", "uid=m"]) + ([sid] + [url] + ["A"]) + ["uid=l"]
      == ClashFields(pt, url, sid)
  {
  }

  lemma SecondFlat(pt: string, url: string, sid: string)
    ensures [pt] + (["url=" + url] + ["keyenv=A", "key=z"]) + ["keyenv=B"] + ["key=k"]
      + ([sid] + ([url] + ["keyenv=A", "key=z"]) + ["B"]) + (["uid=m"] + [sid, url, "A", "uid=l"])
      == ClashFields(pt, url, sid)
  {
  }

  /** What both read as. */
  function ClashFields(pt: string, url: string, sid: string): seq<string> {
    [pt, "url=" + url, "keyenv=A", "key=z", "keyenv=B", "key=k", sid, url,
     "keyenv=A", "key=z", "B", "uid=m", sid, url, "A", "uid=l"]
  }

  /**
    The text does not tell all upstreams apart: for any address, limits and policies there are two with
    different state keys and the same text.
  */
  lemma TextsCollide(p: ProviderType, url: string, like: Signature)
    ensures var s, t := FirstClash(p, url, like), SecondClash(p, url, like);
      && s.stateKey == DeriveStateKey(s.providerType, s.baseUrl, s.apiKeyEnv)
      && t.stateKey == DeriveStateKey(t.providerType, t.baseUrl, t.apiKeyEnv)
      && SignatureText(s) == SignatureText(t) && s.stateKey != t.stateKey
  {
    var s, t := FirstClash(p, url, like), SecondClash(p, url, like);
    FirstClashFields(p, url, like);
    SecondClashFields(p, url, like);
    assert NumberFields(s) == NumberFields(t);
    JoinConcat(NameFields(s), NumberFields(s));
    JoinConcat(NameFields(t), NumberFields(t));
    JoinConcat([url], ["keyenv=A", "key=z"]);
    assert |ClashUrl(url)| > |url|;
  }
}
