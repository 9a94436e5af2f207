module ReloadProtocol {
  import opened Wrappers
  import opened Config
  import opened Runtime
  import opened Signatures
  import opened Registry
  import opened Reload

  // The reload of module Reload, one shared-state write at a time (crates/moaray/src/reload.rs and runtime.rs).
  // Request handlers read in between. The reload lock admits one reload or one collection at a time; readers
  // take no lock. Steps that may need a new object carry it.

  /** Where the holder of the reload lock is. */
  datatype Pc =
    | Idle
    | Ensuring(config: RuntimeConfig, next: nat)
    | Building(config: RuntimeConfig, next: nat, built: map<string, BuiltProvider>)
    | Installing(config: RuntimeConfig, next: nat, built: map<string, BuiltProvider>)
    | Remembering(built: map<string, BuiltProvider>, prev: RuntimeConfig)
    | Reclaiming(prev: RuntimeConfig, reclaimed: set<string>)
    | Collecting

  /** `pinned` are the snapshots that requests loaded and may still be using. */
  datatype World = World(app: App, pc: Pc, pinned: seq<Published>)

  datatype Action =
    | ReloadBegins(config: RuntimeConfig)
    | EnsureStep(slot: UpstreamState)
    | EnsureDone
    | BuildStep(apiKey: string, provider: Provider)
    | BuildFails(apiKey: string)
    | BuildDone
    | InstallStep(bucket: Option<TokenBucket>)
    | Publish
    | Remember
    | ReclaimStep(id: string)
    | ReclaimDone
    | GcBegins
    | GcStep(key: string)
    | GcDone
    | ReaderPins

  function Live(w: World): RuntimeConfig { w.app.runtime.config }

  predicate Enabled(w: World, a: Action) {
    match a
    case ReloadBegins(config) => w.pc.Idle? && Sound(config)
    case EnsureStep(slot) =>
      w.pc.Ensuring? && w.pc.next < |w.pc.config.models|
      && Usable(w.app.slots, w.pc.config.models[w.pc.next], w.pc.config.breaker, slot)
    case EnsureDone => w.pc.Ensuring? && w.pc.next == |w.pc.config.models|
    case BuildStep(apiKey, provider) =>
      && w.pc.Building? && w.pc.next < |w.pc.config.models|
      && var m := w.pc.config.models[w.pc.next];
      Offers(w.app.slots, w.app.lastBuilt, m, SignatureOf(m, apiKey, w.pc.config), provider)
    case BuildFails(apiKey) =>
      && w.pc.Building? && w.pc.next < |w.pc.config.models|
      && var m := w.pc.config.models[w.pc.next];
      !Reuses(w.app.lastBuilt, m, SignatureOf(m, apiKey, w.pc.config)) && m.stateKey !in w.app.slots
    case BuildDone => w.pc.Building? && w.pc.next == |w.pc.config.models|
    case InstallStep(bucket) =>
      w.pc.Installing? && w.pc.next < |w.pc.config.keys| && UsableBucket(w.app.buckets, w.pc.config.keys[w.pc.next], bucket)
    case Publish => w.pc.Installing? && w.pc.next == |w.pc.config.keys|
    case Remember => w.pc.Remembering?
    case ReclaimStep(id) => w.pc.Reclaiming? && id in w.app.buckets && id !in LimitedIds(Live(w).keys)
    case ReclaimDone => w.pc.Reclaiming? && w.app.buckets.Keys <= LimitedIds(Live(w).keys)
    case GcBegins => w.pc.Idle? && w.app.gcTasks > 0
    case GcStep(key) => w.pc.Collecting? && key in w.app.slots && key !in StateKeys(Live(w).models)
    case GcDone => w.pc.Collecting? && w.app.slots.Keys <= StateKeys(Live(w).models)
    case ReaderPins => true
  }

  /** Where the lock holder is after building the next provider. */
  function Built(
    last: map<string, BuiltProvider>, c: RuntimeConfig, n: nat, built: map<string, BuiltProvider>, apiKey: string, provider: Provider): Pc
    requires n < |c.models|
  {
    var m := c.models[n];
    Building(c, n + 1, built[m.name := Chosen(last, m, SignatureOf(m, apiKey, c), provider)])
  }

  function Exec(w: World, a: Action): World
    requires Enabled(w, a)
  {
    match a
    case ReloadBegins(config) => w.(pc := Ensuring(config, 0))
    case EnsureStep(slot) =>
      var c, n := w.pc.config, w.pc.next;
      w.(app := w.app.(slots := EnsureOne(w.app.slots, c.models[n], c.breaker, slot)), pc := Ensuring(c, n + 1))
    case EnsureDone => w.(pc := Building(w.pc.config, 0, map[]))
    case BuildStep(apiKey, provider) => w.(pc := Built(w.app.lastBuilt, w.pc.config, w.pc.next, w.pc.built, apiKey, provider))
    case BuildFails(_) => w.(pc := Idle)
    case BuildDone => w.(pc := Installing(w.pc.config, 0, w.pc.built))
    case InstallStep(bucket) =>
      var c, n := w.pc.config, w.pc.next;
      w.(app := w.app.(buckets := InstallKey(w.app.buckets, c.keys[n], bucket)), pc := Installing(c, n + 1, w.pc.built))
    case Publish =>
      var c := w.pc.config.(usageStore := Live(w).usageStore);
      w.(app := w.app.(runtime := Snapshot(c, w.pc.built)), pc := Remembering(w.pc.built, Live(w)))
    case Remember => w.(app := w.app.(lastBuilt := w.pc.built), pc := Reclaiming(w.pc.prev, {}))
    case ReclaimStep(id) =>
      w.(app := w.app.(buckets := w.app.buckets - {id}), pc := Reclaiming(w.pc.prev, w.pc.reclaimed + {id}))
    case ReclaimDone => w.(app := w.app.(gcTasks := w.app.gcTasks + if Drops(w.pc.prev, Live(w)) then 1 else 0), pc := Idle)
    case GcBegins => w.(app := w.app.(gcTasks := w.app.gcTasks - 1), pc := Collecting)
    case GcStep(key) => w.(app := w.app.(slots := w.app.slots - {key}))
    case GcDone => w.(pc := Idle)
    case ReaderPins => w.(pinned := w.pinned + [w.app.runtime])
  }

  function Play(w: World, schedule: seq<Action>): Option<World>
    decreases |schedule|
  {
    if schedule == [] then Some(w)
    else if !Enabled(w, schedule[0]) then None
    else Play(Exec(w, schedule[0]), schedule[1..])
  }

  // ---------------------------------------------------------------------------------------------
  // The invariant
  // ---------------------------------------------------------------------------------------------

  predicate OwnLimits(rt: Published, m: ModelConfig) {
    m.name in rt.providers && rt.providers[m.name].slot.governance == GovernanceOf(m, rt.config.breaker)
  }

  /** A snapshot on its own: every model has a provider, under the model's own limits. */
  predicate Coherent(rt: Published) {
    Serves(rt) && forall i :: 0 <= i < |rt.config.models| ==> OwnLimits(rt, rt.config.models[i])
  }

  /** Every upstream of the configuration has a slot, every limited key of it a bucket. */
  predicate Covered(live: RuntimeConfig, slots: map<string, UpstreamState>, buckets: map<string, TokenBucket>) {
    StateKeys(live.models) <= slots.Keys && LimitedIds(live.keys) <= buckets.Keys
  }

  /** The first `n` models of `c` have a slot with the limits they ask for. */
  predicate EnsuredUpTo(slots: map<string, UpstreamState>, c: RuntimeConfig, n: nat) {
    forall j :: 0 <= j < n <= |c.models| ==> Preserves(slots, c.models[j], c.breaker)
  }

  /** A finished provider of `m`: tagged with what it was built from, under the limits of `m`. */
  predicate BuiltFor(c: RuntimeConfig, m: ModelConfig, b: BuiltProvider) {
    && b.signature == b.provider.inputs
    && b.signature.governance == GovernanceOf(m, c.breaker)
    && b.provider.slot.governance == GovernanceOf(m, c.breaker)
  }

  predicate BuiltForName(c: RuntimeConfig, m: ModelConfig, built: map<string, BuiltProvider>) {
    m.name in built && BuiltFor(c, m, built[m.name])
  }

  predicate AllBuiltUpTo(c: RuntimeConfig, n: nat, built: map<string, BuiltProvider>) {
    && n <= |c.models| && built.Keys == Names(c.models[..n])
    && forall j :: 0 <= j < n ==> BuiltForName(c, c.models[j], built)
  }

  predicate HasLastLimit(keys: seq<KeyConfig>, id: string, bucket: TokenBucket) {
    LastLimit(keys, id).Some? ==> LastLimit(keys, id).value == bucket.limit
  }

  /** Buckets carry the limits of `keys`. */
  predicate RightLimits(buckets: map<string, TokenBucket>, keys: seq<KeyConfig>) {
    forall id :: id in buckets ==> HasLastLimit(keys, id, buckets[id])
  }

  /** While no collection is pending, only upstreams of these configurations have a slot. */
  predicate NoOrphans(app: App, keys: set<string>) {
    app.gcTasks == 0 ==> app.slots.Keys <= keys
  }

  predicate PcInvariant(app: App, pc: Pc) {
    var live := app.runtime.config;
    match pc
    case Idle => Settled(app)
    case Ensuring(c, n) =>
      && n <= |c.models| && Sound(c) && Describes(app.lastBuilt, app.runtime) && Limits(app.buckets, live.keys)
      && EnsuredUpTo(app.slots, c, n)
      && NoOrphans(app, StateKeys(live.models) + StateKeys(c.models))
    case Building(c, n, built) =>
      && Sound(c) && Describes(app.lastBuilt, app.runtime) && Limits(app.buckets, live.keys)
      && EnsuredUpTo(app.slots, c, |c.models|) && AllBuiltUpTo(c, n, built)
      && NoOrphans(app, StateKeys(live.models) + StateKeys(c.models))
    case Installing(c, n, built) =>
      && n <= |c.keys| && Sound(c)
      && EnsuredUpTo(app.slots, c, |c.models|) && AllBuiltUpTo(c, |c.models|, built)
      && app.buckets.Keys == LimitedIds(live.keys) + LimitedIds(c.keys[..n]) && RightLimits(app.buckets, c.keys[..n])
      && NoOrphans(app, StateKeys(live.models) + StateKeys(c.models))
    case Remembering(built, prev) =>
      && Fits(app.slots, live) && Describes(built, app.runtime) && RightLimits(app.buckets, live.keys)
      && app.buckets.Keys == LimitedIds(prev.keys) + LimitedIds(live.keys)
      && (!Drops(prev, live) ==> NoOrphans(app, StateKeys(live.models)))
    case Reclaiming(prev, reclaimed) =>
      && Fits(app.slots, live) && Describes(app.lastBuilt, app.runtime) && RightLimits(app.buckets, live.keys)
      && app.buckets.Keys == LimitedIds(prev.keys) + LimitedIds(live.keys) - reclaimed
      && (!Drops(prev, live) ==> NoOrphans(app, StateKeys(live.models)))
    case Collecting =>
      && Fits(app.slots, live) && Describes(app.lastBuilt, app.runtime) && Limits(app.buckets, live.keys)
  }

  predicate AllCoherent(pinned: seq<Published>) {
    forall i :: 0 <= i < |pinned| ==> Coherent(pinned[i])
  }

  predicate Inv(w: World) {
    && Coherent(w.app.runtime) && Covered(Live(w), w.app.slots, w.app.buckets) && Distinct(w.app.slots)
    && PcInvariant(w.app, w.pc) && AllCoherent(w.pinned)
  }

  lemma DescribedIsCoherent(rt: Published, built: map<string, BuiltProvider>)
    requires Serves(rt) && Describes(built, rt)
    ensures Coherent(rt)
  {
    forall i | 0 <= i < |rt.config.models| ensures OwnLimits(rt, rt.config.models[i]) {
      assert DescribedModel(built, rt, rt.config.models[i]);
    }
  }

  lemma FittingIsCovered(slots: map<string, UpstreamState>, c: RuntimeConfig)
    requires Fits(slots, c)
    ensures StateKeys(c.models) <= slots.Keys
  {
    forall i | 0 <= i < |c.models| ensures c.models[i].stateKey in slots {
      assert Preserves(slots, c.models[i], c.breaker);
    }
  }

  // ---- ensuring ----

  lemma ReloadBeginsKeeps(w: World, config: RuntimeConfig)
    requires Inv(w) && Enabled(w, ReloadBegins(config))
    ensures Inv(Exec(w, ReloadBegins(config)))
  {
    hide Coherent, Describes, Serves, AllCoherent, Fits;
  }

  lemma EnsureReachesNext(slots: map<string, UpstreamState>, c: RuntimeConfig, n: nat, slot: UpstreamState)
    requires Sound(c) && n < |c.models| && EnsuredUpTo(slots, c, n) && Usable(slots, c.models[n], c.breaker, slot)
    ensures EnsuredUpTo(EnsureOne(slots, c.models[n], c.breaker, slot), c, n + 1)
  {
    var after := EnsureOne(slots, c.models[n], c.breaker, slot);
    forall j | 0 <= j < n + 1 ensures Preserves(after, c.models[j], c.breaker) {
      assert j < n ==> Preserves(slots, c.models[j], c.breaker);
      assert c.models[j].stateKey == c.models[n].stateKey ==> SameGovernance(c.models[j], c.models[n]);
    }
  }

  lemma EnsureStepKeeps(w: World, slot: UpstreamState)
    requires Inv(w) && Enabled(w, EnsureStep(slot))
    ensures Inv(Exec(w, EnsureStep(slot)))
  {
    hide Coherent, Describes, AllCoherent, Distinct, EnsuredUpTo, Limits;
    var c, n := w.pc.config, w.pc.next;
    assert c.models[n].stateKey in StateKeys(c.models);
    StaysDistinct(w.app.slots, c.models[n], c.breaker, slot);
    EnsureReachesNext(w.app.slots, c, n, slot);
  }

  // ---- building ----

  lemma EnsureDoneKeeps(w: World)
    requires Inv(w) && Enabled(w, EnsureDone)
    ensures Inv(Exec(w, EnsureDone))
  {
    hide Coherent, Describes, AllCoherent, Distinct, Limits;
    assert Names(w.pc.config.models[..0]) == {};
  }

  lemma ChosenHasOwnLimits(app: App, c: RuntimeConfig, m: ModelConfig, apiKey: string, provider: Provider)
    requires Describes(app.lastBuilt, app.runtime) && Preserves(app.slots, m, c.breaker)
    requires Offers(app.slots, app.lastBuilt, m, SignatureOf(m, apiKey, c), provider)
    ensures BuiltFor(c, m, Chosen(app.lastBuilt, m, SignatureOf(m, apiKey, c), provider))
  {
    hide SignatureText, Describes;
    if Reuses(app.lastBuilt, m, SignatureOf(m, apiKey, c)) {
      var _ := ReusedHasOwnLimits(app.runtime, app.lastBuilt, m, SignatureOf(m, apiKey, c));
    }
  }

  lemma BuildReachesNext(c: RuntimeConfig, n: nat, built: map<string, BuiltProvider>, one: BuiltProvider)
    requires DistinctNames(c.models) && n < |c.models| && AllBuiltUpTo(c, n, built) && BuiltFor(c, c.models[n], one)
    ensures AllBuiltUpTo(c, n + 1, built[c.models[n].name := one])
  {
    NamesNext(c.models, n);
    forall j | 0 <= j < n ensures BuiltForName(c, c.models[j], built[c.models[n].name := one]) {
      assert BuiltForName(c, c.models[j], built);
    }
  }

  lemma BuildStepKeeps(w: World, apiKey: string, provider: Provider)
    requires Inv(w) && Enabled(w, BuildStep(apiKey, provider))
    ensures Inv(Exec(w, BuildStep(apiKey, provider)))
  {
    hide Coherent, Describes, AllCoherent, Distinct, AllBuiltUpTo, Limits, BuiltFor, Chosen, Offers, SignatureText, SignatureOf;
    var c, n := w.pc.config, w.pc.next;
    var m := c.models[n];
    ChosenHasOwnLimits(w.app, c, m, apiKey, provider);
    BuildReachesNext(c, n, w.pc.built, Chosen(w.app.lastBuilt, m, SignatureOf(m, apiKey, c), provider));
  }

  /** The fail-closed error is unreachable: the slot of every model to build is there. */
  lemma BuildNeverFails(w: World, apiKey: string)
    requires Inv(w)
    ensures !Enabled(w, BuildFails(apiKey))
  {
    hide Coherent, Describes, AllCoherent, Reuses, SignatureOf;
    if w.pc.Building? && w.pc.next < |w.pc.config.models| {
      assert Preserves(w.app.slots, w.pc.config.models[w.pc.next], w.pc.config.breaker);
    }
  }

  // ---- installing and publishing ----

  lemma BuildDoneKeeps(w: World)
    requires Inv(w) && Enabled(w, BuildDone)
    ensures Inv(Exec(w, BuildDone))
  {
    hide Coherent, Describes, AllCoherent, Distinct, EnsuredUpTo, AllBuiltUpTo;
    assert w.pc.config.keys[..0] == [];
  }

  lemma LimitedNext(keys: seq<KeyConfig>, n: nat)
    requires n < |keys|
    ensures LimitedIds(keys[..n+1]) == LimitedIds(keys[..n]) + (if keys[n].rateLimit.Some? then {keys[n].id} else {})
  {
    assert keys[..n+1] == keys[..n] + [keys[n]];
    forall id | id in LimitedIds(keys[..n+1]) ensures id in LimitedIds(keys[..n]) || (id == keys[n].id && keys[n].rateLimit.Some?) {
      var i :| 0 <= i < n + 1 && keys[..n+1][i].rateLimit.Some? && keys[..n+1][i].id == id;
      assert i < n ==> keys[..n][i] == keys[i];
    }
    forall id | id in LimitedIds(keys[..n]) ensures id in LimitedIds(keys[..n+1]) {
      var i :| 0 <= i < n && keys[..n][i].rateLimit.Some? && keys[..n][i].id == id;
      assert keys[..n+1][i] == keys[i];
    }
    assert keys[..n+1][n] == keys[n];
  }

  lemma InstallReachesNext(buckets: map<string, TokenBucket>, keys: seq<KeyConfig>, n: nat, bucket: Option<TokenBucket>)
    requires n < |keys| && RightLimits(buckets, keys[..n]) && UsableBucket(buckets, keys[n], bucket)
    ensures var after := InstallKey(buckets, keys[n], bucket);
      && after.Keys == buckets.Keys + (if keys[n].rateLimit.Some? then {keys[n].id} else {})
      && RightLimits(after, keys[..n+1])
  {
    var after := InstallKey(buckets, keys[n], bucket);
    forall id | id in after ensures HasLastLimit(keys[..n+1], id, after[id]) {
      LastLimitNext(keys, n, id);
      assert id in buckets ==> HasLastLimit(keys[..n], id, buckets[id]);
    }
  }

  lemma InstallStepKeeps(w: World, bucket: Option<TokenBucket>)
    requires Inv(w) && Enabled(w, InstallStep(bucket))
    ensures Inv(Exec(w, InstallStep(bucket)))
  {
    hide Coherent, AllCoherent, Distinct, EnsuredUpTo, AllBuiltUpTo, InstallKey, RightLimits, LimitedIds;
    InstallReachesNext(w.app.buckets, w.pc.config.keys, w.pc.next, bucket);
    LimitedNext(w.pc.config.keys, w.pc.next);
  }

  lemma BuiltIsDescribed(c: RuntimeConfig, store: Option<string>, built: map<string, BuiltProvider>)
    requires AllBuiltUpTo(c, |c.models|, built) && Sound(c)
    ensures var next := Snapshot(c.(usageStore := store), built);
      Serves(next) && Describes(built, next) && Coherent(next)
  {
    var next := Snapshot(c.(usageStore := store), built);
    assert c.models[..|c.models|] == c.models;
    forall i | 0 <= i < |c.models| ensures DescribedModel(built, next, c.models[i]) {
      assert BuiltForName(c, c.models[i], built);
    }
    DescribedIsCoherent(next, built);
  }

  lemma PublishKeeps(w: World)
    requires Inv(w) && Enabled(w, Publish)
    ensures Inv(Exec(w, Publish))
  {
    hide Coherent, AllCoherent, Distinct, Describes, AllBuiltUpTo, RightLimits, LimitedIds;
    var c, built := w.pc.config, w.pc.built;
    assert c.keys[..|c.keys|] == c.keys;
    BuiltIsDescribed(c, Live(w).usageStore, built);
    var next := Exec(w, Publish).app.runtime;
    assert Fits(w.app.slots, next.config);
    FittingIsCovered(w.app.slots, next.config);
  }

  // ---- reclaiming and collecting ----

  lemma RememberKeeps(w: World)
    requires Inv(w) && Enabled(w, Remember)
    ensures Inv(Exec(w, Remember))
  {
    hide Coherent, AllCoherent, Distinct, Describes, RightLimits, Fits, StateKeys, LimitedIds;
  }

  lemma ReclaimStepKeeps(w: World, id: string)
    requires Inv(w) && Enabled(w, ReclaimStep(id))
    ensures Inv(Exec(w, ReclaimStep(id)))
  {
    hide Coherent, AllCoherent, Distinct, Describes, Fits, StateKeys;
  }

  lemma ReclaimDoneKeeps(w: World)
    requires Inv(w) && Enabled(w, ReclaimDone)
    ensures Inv(Exec(w, ReclaimDone))
  {
    hide Coherent, AllCoherent, Distinct, Describes, Fits, StateKeys;
    CoherentServes(w.app.runtime);
    forall id | id in w.app.buckets ensures LastLimit(Live(w).keys, id) == Some(w.app.buckets[id].limit) {
      LimitedHasLast(Live(w).keys, id);
      assert HasLastLimit(Live(w).keys, id, w.app.buckets[id]);
    }
  }

  lemma GcBeginsKeeps(w: World)
    requires Inv(w) && Enabled(w, GcBegins)
    ensures Inv(Exec(w, GcBegins))
  {
    hide Coherent, AllCoherent, Distinct, Describes, Fits, StateKeys, Limits;
  }

  lemma GcStepKeeps(w: World, key: string)
    requires Inv(w) && Enabled(w, GcStep(key))
    ensures Inv(Exec(w, GcStep(key)))
  {
    hide Coherent, AllCoherent, Describes, Limits;
    forall i | 0 <= i < |Live(w).models| ensures Preserves(w.app.slots - {key}, Live(w).models[i], Live(w).breaker) {
      assert Preserves(w.app.slots, Live(w).models[i], Live(w).breaker);
      assert Live(w).models[i].stateKey in StateKeys(Live(w).models);
    }
  }

  lemma GcDoneKeeps(w: World)
    requires Inv(w) && Enabled(w, GcDone)
    ensures Inv(Exec(w, GcDone))
  {
    hide Coherent, AllCoherent, Describes, Limits, Distinct, Fits, StateKeys;
    CoherentServes(w.app.runtime);
  }

  lemma CoherentServes(rt: Published)
    requires Coherent(rt)
    ensures Serves(rt)
  {
  }

  lemma ReaderPinsKeeps(w: World)
    requires Inv(w) && Enabled(w, ReaderPins)
    ensures Inv(Exec(w, ReaderPins))
  {
    hide Coherent, PcInvariant;
  }

  predicate Prepares(a: Action) {
    a.ReloadBegins? || a.EnsureStep? || a.EnsureDone? || a.BuildStep? || a.BuildFails? || a.BuildDone? || a.InstallStep?
  }

  lemma PreparationKeeps(w: World, a: Action)
    requires Inv(w) && Enabled(w, a) && Prepares(a)
    ensures Inv(Exec(w, a))
  {
    hide Inv, Exec;
    match a
    case ReloadBegins(config) => ReloadBeginsKeeps(w, config);
    case EnsureStep(slot) => EnsureStepKeeps(w, slot);
    case EnsureDone => EnsureDoneKeeps(w);
    case BuildStep(apiKey, provider) => BuildStepKeeps(w, apiKey, provider);
    case BuildFails(apiKey) => BuildNeverFails(w, apiKey);
    case BuildDone => BuildDoneKeeps(w);
    case InstallStep(bucket) => InstallStepKeeps(w, bucket);
  }

  lemma CompletionKeeps(w: World, a: Action)
    requires Inv(w) && Enabled(w, a) && !Prepares(a)
    ensures Inv(Exec(w, a))
  {
    hide Inv, Exec;
    match a
    case Publish => PublishKeeps(w);
    case Remember => RememberKeeps(w);
    case ReclaimStep(id) => ReclaimStepKeeps(w, id);
    case ReclaimDone => ReclaimDoneKeeps(w);
    case GcBegins => GcBeginsKeeps(w);
    case GcStep(key) => GcStepKeeps(w, key);
    case GcDone => GcDoneKeeps(w);
    case ReaderPins => ReaderPinsKeeps(w);
  }

  /** Every step of the lock holder and every reader keeps the invariant. */
  lemma StepKeepsInvariant(w: World, a: Action)
    requires Inv(w) && Enabled(w, a)
    ensures Inv(Exec(w, a))
  {
    hide Inv, Exec;
    if Prepares(a) {
      PreparationKeeps(w, a);
    } else {
      CompletionKeeps(w, a);
    }
  }

  // ---------------------------------------------------------------------------------------------
  // Binding
  // ---------------------------------------------------------------------------------------------

  predicate SharesSlot(rt: Published, a: ModelConfig, b: ModelConfig) {
    a.name in rt.providers && b.name in rt.providers
    && (a.stateKey == b.stateKey ==> rt.providers[a.name].slot == rt.providers[b.name].slot)
  }

  /** Models of one upstream share one slot. */
  predicate Shares(rt: Published) {
    forall i, j :: 0 <= i < |rt.config.models| && 0 <= j < |rt.config.models| ==>
      SharesSlot(rt, rt.config.models[i], rt.config.models[j])
  }

  predicate AllShare(pinned: seq<Published>) {
    forall i :: 0 <= i < |pinned| ==> Shares(pinned[i])
  }

  /** No model of `c` asks for other limits on the upstream of `m` than `g`. */
  predicate Uncontested(m: ModelConfig, g: Governance, c: RuntimeConfig) {
    forall j :: 0 <= j < |c.models| && c.models[j].stateKey == m.stateKey ==> GovernanceOf(c.models[j], c.breaker) == g
  }

  predicate UndisturbedModel(rt: Published, slots: map<string, UpstreamState>, c: RuntimeConfig, m: ModelConfig) {
    && m.stateKey in slots && m.name in rt.providers
    && (Uncontested(m, GovernanceOf(m, rt.config.breaker), c) ==> slots[m.stateKey] == rt.providers[m.name].slot)
  }

  /** Slots whose limits nobody wants changed are still the ones the live providers are bound to. */
  predicate Undisturbed(rt: Published, slots: map<string, UpstreamState>, c: RuntimeConfig) {
    forall i :: 0 <= i < |rt.config.models| ==> UndisturbedModel(rt, slots, c, rt.config.models[i])
  }

  predicate BoundBuilt(slots: map<string, UpstreamState>, m: ModelConfig, built: map<string, BuiltProvider>) {
    && m.name in built && m.stateKey in slots
    && built[m.name].provider.slot == slots[m.stateKey] && built[m.name].signature.stateKey == m.stateKey
  }

  /** The first `n` models of `c` have providers bound to their slots. */
  predicate BoundUpTo(slots: map<string, UpstreamState>, c: RuntimeConfig, n: nat, built: map<string, BuiltProvider>) {
    forall j :: 0 <= j < n <= |c.models| ==> BoundBuilt(slots, c.models[j], built)
  }

  predicate BoundPc(app: App, pc: Pc) {
    var live := app.runtime.config;
    match pc
    case Idle => Bound(app)
    case Ensuring(c, _) => Undisturbed(app.runtime, app.slots, c) && Tagged(app.lastBuilt, live)
    case Building(c, n, built) =>
      Undisturbed(app.runtime, app.slots, c) && Tagged(app.lastBuilt, live) && BoundUpTo(app.slots, c, n, built)
    case Installing(c, _, built) => BoundUpTo(app.slots, c, |c.models|, built)
    case Remembering(built, _) => Binds(app.runtime, app.slots) && Tagged(built, live)
    case Reclaiming(_, _) => Bound(app)
    case Collecting => Bound(app)
  }

  predicate AllBound(w: World) {
    BoundPc(w.app, w.pc) && Shares(w.app.runtime) && AllShare(w.pinned)
  }

  /** The step takes over no provider from another upstream. */
  predicate Honest(w: World, a: Action) {
    a.BuildStep? && w.pc.Building? && w.pc.next < |w.pc.config.models| ==>
      var m := w.pc.config.models[w.pc.next];
      !FalseReuse(w.app.lastBuilt, m, SignatureOf(m, a.apiKey, w.pc.config))
  }

  predicate HonestRun(w: World, schedule: seq<Action>)
    decreases |schedule|
  {
    schedule != [] && Enabled(w, schedule[0]) ==> Honest(w, schedule[0]) && HonestRun(Exec(w, schedule[0]), schedule[1..])
  }

  lemma BindingShares(rt: Published, slots: map<string, UpstreamState>)
    requires Binds(rt, slots)
    ensures Shares(rt)
  {
    forall i, j | 0 <= i < |rt.config.models| && 0 <= j < |rt.config.models|
      ensures SharesSlot(rt, rt.config.models[i], rt.config.models[j])
    {
      assert BoundModel(rt, slots, rt.config.models[i]) && BoundModel(rt, slots, rt.config.models[j]);
    }
  }

  lemma BeginStaysBound(app: App, c: RuntimeConfig)
    requires Bound(app)
    ensures Undisturbed(app.runtime, app.slots, c)
  {
    var rt := app.runtime;
    forall i | 0 <= i < |rt.config.models| ensures UndisturbedModel(rt, app.slots, c, rt.config.models[i]) {
      assert BoundModel(rt, app.slots, rt.config.models[i]);
    }
  }

  lemma EnsureStaysUndisturbed(rt: Published, slots: map<string, UpstreamState>, c: RuntimeConfig, n: nat, slot: UpstreamState)
    requires Coherent(rt) && Undisturbed(rt, slots, c) && n < |c.models|
    ensures Undisturbed(rt, EnsureOne(slots, c.models[n], c.breaker, slot), c)
  {
    var after := EnsureOne(slots, c.models[n], c.breaker, slot);
    forall i | 0 <= i < |rt.config.models| ensures UndisturbedModel(rt, after, c, rt.config.models[i]) {
      assert UndisturbedModel(rt, slots, c, rt.config.models[i]) && OwnLimits(rt, rt.config.models[i]);
    }
  }

  /** Reuse in mid-reload is safe unless it is false: the reused provider's slot has not been replaced. */
  lemma ReusedIsBound(app: App, c: RuntimeConfig, m: ModelConfig, signature: Signature)
    requires Describes(app.lastBuilt, app.runtime) && Undisturbed(app.runtime, app.slots, c) && Tagged(app.lastBuilt, app.runtime.config)
    requires Sound(c) && m in c.models && Reuses(app.lastBuilt, m, signature) && !FalseReuse(app.lastBuilt, m, signature)
    requires signature.governance == GovernanceOf(m, c.breaker)
    ensures m.stateKey in app.slots && app.lastBuilt[m.name].provider.slot == app.slots[m.stateKey]
  {
    hide SignatureText, Describes;
    var live := app.runtime.config;
    var i := ReusedHasOwnLimits(app.runtime, app.lastBuilt, m, signature);
    assert UndisturbedModel(app.runtime, app.slots, c, live.models[i]) && TaggedModel(app.lastBuilt, live.models[i]);
    var k :| 0 <= k < |c.models| && c.models[k] == m;
    forall j | 0 <= j < |c.models| && c.models[j].stateKey == m.stateKey
      ensures GovernanceOf(c.models[j], c.breaker) == GovernanceOf(m, c.breaker)
    {
      assert SameGovernance(c.models[j], c.models[k]);
    }
    assert Uncontested(live.models[i], GovernanceOf(live.models[i], live.breaker), c);
  }

  lemma ChosenIsBound(app: App, c: RuntimeConfig, m: ModelConfig, apiKey: string, provider: Provider)
    requires Describes(app.lastBuilt, app.runtime) && Undisturbed(app.runtime, app.slots, c) && Tagged(app.lastBuilt, app.runtime.config)
    requires Sound(c) && m in c.models && Offers(app.slots, app.lastBuilt, m, SignatureOf(m, apiKey, c), provider)
    requires !FalseReuse(app.lastBuilt, m, SignatureOf(m, apiKey, c))
    ensures var one := Chosen(app.lastBuilt, m, SignatureOf(m, apiKey, c), provider);
      m.stateKey in app.slots && one.provider.slot == app.slots[m.stateKey] && one.signature.stateKey == m.stateKey
  {
    hide SignatureText, Describes, Undisturbed, Tagged;
    if Reuses(app.lastBuilt, m, SignatureOf(m, apiKey, c)) {
      ReusedIsBound(app, c, m, SignatureOf(m, apiKey, c));
    }
  }

  lemma BoundReachesNext(slots: map<string, UpstreamState>, c: RuntimeConfig, n: nat, built: map<string, BuiltProvider>, one: BuiltProvider)
    requires DistinctNames(c.models) && n < |c.models| && BoundUpTo(slots, c, n, built)
    requires c.models[n].stateKey in slots && one.provider.slot == slots[c.models[n].stateKey]
    requires one.signature.stateKey == c.models[n].stateKey
    ensures BoundUpTo(slots, c, n + 1, built[c.models[n].name := one])
  {
    var after := built[c.models[n].name := one];
    forall j | 0 <= j < n + 1 ensures BoundBuilt(slots, c.models[j], after) {
      assert j < n ==> BoundBuilt(slots, c.models[j], built);
    }
  }

  lemma BuildStepBinds(w: World, apiKey: string, provider: Provider)
    requires Inv(w) && AllBound(w) && Enabled(w, BuildStep(apiKey, provider)) && Honest(w, BuildStep(apiKey, provider))
    ensures AllBound(Exec(w, BuildStep(apiKey, provider)))
  {
    hide Coherent, Describes, AllShare, Shares, Undisturbed, Tagged, BoundUpTo, Chosen, Offers, FalseReuse, SignatureOf;
    var c, n := w.pc.config, w.pc.next;
    var m := c.models[n];
    ChosenIsBound(w.app, c, m, apiKey, provider);
    BoundReachesNext(w.app.slots, c, n, w.pc.built, Chosen(w.app.lastBuilt, m, SignatureOf(m, apiKey, c), provider));
  }

  lemma PublishedIsBound(slots: map<string, UpstreamState>, c: RuntimeConfig, store: Option<string>, built: map<string, BuiltProvider>)
    requires BoundUpTo(slots, c, |c.models|, built)
    ensures var next := Snapshot(c.(usageStore := store), built);
      Binds(next, slots) && Tagged(built, next.config) && Shares(next)
  {
    var next := Snapshot(c.(usageStore := store), built);
    forall i | 0 <= i < |c.models| ensures BoundModel(next, slots, c.models[i]) && TaggedModel(built, c.models[i]) {
      assert BoundBuilt(slots, c.models[i], built);
    }
    BindingShares(next, slots);
  }

  lemma GcStepStaysBound(w: World, key: string)
    requires AllBound(w) && Enabled(w, GcStep(key))
    ensures AllBound(Exec(w, GcStep(key)))
  {
    hide AllShare, Shares, Tagged;
    var after := w.app.slots - {key};
    forall i | 0 <= i < |Live(w).models| ensures BoundModel(w.app.runtime, after, Live(w).models[i]) {
      assert BoundModel(w.app.runtime, w.app.slots, Live(w).models[i]);
      assert Live(w).models[i].stateKey in StateKeys(Live(w).models);
    }
  }

  lemma QuietStepStaysBound(w: World, a: Action)
    requires AllBound(w) && Enabled(w, a)
    requires a.EnsureDone? || a.BuildDone? || a.InstallStep? || a.Remember? || a.ReclaimStep? || a.ReclaimDone?
      || a.GcBegins? || a.GcDone? || a.ReaderPins?
    ensures AllBound(Exec(w, a))
  {
    hide Binds, Tagged, Undisturbed, Shares, InstallKey, UsableBucket;
  }

  /** No honest step unbinds a published or finished provider. */
  lemma StepKeepsBinding(w: World, a: Action)
    requires Inv(w) && AllBound(w) && Enabled(w, a) && Honest(w, a)
    ensures AllBound(Exec(w, a))
  {
    hide Coherent, Describes, AllShare, Shares, Undisturbed, Tagged, BoundUpTo, Binds, InstallKey, UsableBucket, Honest, SignatureOf;
    match a
    case ReloadBegins(config) => BeginStaysBound(w.app, config);
    case EnsureStep(slot) => EnsureStaysUndisturbed(w.app.runtime, w.app.slots, w.pc.config, w.pc.next, slot);
    case BuildStep(apiKey, provider) => BuildStepBinds(w, apiKey, provider);
    case BuildFails(apiKey) => BuildNeverFails(w, apiKey);
    case Publish => PublishedIsBound(w.app.slots, w.pc.config, Live(w).usageStore, w.pc.built);
    case GcStep(key) => GcStepStaysBound(w, key);
    case _ => QuietStepStaysBound(w, a);
  }

  // ---- bars ----

  predicate BarFreeModel(m: ModelConfig) { '|' !in m.baseUrl && '|' !in m.apiKeyEnv && '|' !in m.upstreamId }

  predicate BarFreeConfig(c: RuntimeConfig) {
    forall i :: 0 <= i < |c.models| ==> BarFreeModel(c.models[i])
  }

  predicate BarFreeBuilt(built: map<string, BuiltProvider>) {
    forall name :: name in built ==> BarFree(built[name].signature)
  }

  predicate BarFreeAction(a: Action) {
    match a
    case ReloadBegins(config) => BarFreeConfig(config)
    case BuildStep(apiKey, _) => '|' !in apiKey
    case _ => true
  }

  predicate BarFreeSchedule(schedule: seq<Action>) {
    forall i :: 0 <= i < |schedule| ==> BarFreeAction(schedule[i])
  }

  /** No bar in anything the reload in progress, or the next one, compares. */
  predicate BarFreeWorld(w: World) {
    && BarFreeBuilt(w.app.lastBuilt)
    && match w.pc
       case Ensuring(c, _) => BarFreeConfig(c)
       case Building(c, _, built) => BarFreeConfig(c) && BarFreeBuilt(built)
       case Installing(_, _, built) => BarFreeBuilt(built)
       case Remembering(built, _) => BarFreeBuilt(built)
       case _ => true
  }

  lemma BarFreeStepIsHonest(w: World, a: Action)
    requires BarFreeWorld(w) && BarFreeAction(a) && Enabled(w, a)
    ensures Honest(w, a) && BarFreeWorld(Exec(w, a))
  {
    hide SignatureText;
    if a.BuildStep? {
      var m := w.pc.config.models[w.pc.next];
      assert BarFreeModel(m);
      BarFreeReuseIsTrue(w.app.lastBuilt, m, SignatureOf(m, a.apiKey, w.pc.config));
    }
  }

  lemma {:induction false} BarFreeRunIsHonest(w: World, schedule: seq<Action>)
    requires BarFreeWorld(w) && BarFreeSchedule(schedule)
    ensures HonestRun(w, schedule)
    decreases |schedule|
  {
    hide BarFreeWorld, BarFreeAction, Honest, Enabled, Exec;
    if schedule != [] && Enabled(w, schedule[0]) {
      BarFreeStepIsHonest(w, schedule[0]);
      BarFreeRunIsHonest(Exec(w, schedule[0]), schedule[1..]);
    }
  }

  // ---------------------------------------------------------------------------------------------
  // Every run
  // ---------------------------------------------------------------------------------------------

  /** Just started, or between any two reloads. */
  predicate Start(w: World) { w.pc.Idle? && w.pinned == [] && Settled(w.app) }

  lemma {:induction false} RunKeepsInvariant(w: World, schedule: seq<Action>)
    requires Inv(w) && Play(w, schedule).Some?
    ensures Inv(Play(w, schedule).value)
    decreases |schedule|
  {
    hide Inv, Exec, Enabled;
    if schedule != [] {
      StepKeepsInvariant(w, schedule[0]);
      RunKeepsInvariant(Exec(w, schedule[0]), schedule[1..]);
    }
  }

  lemma {:induction false} RunKeepsBinding(w: World, schedule: seq<Action>)
    requires Inv(w) && AllBound(w) && Play(w, schedule).Some? && HonestRun(w, schedule)
    ensures AllBound(Play(w, schedule).value)
    decreases |schedule|
  {
    hide Inv, AllBound, Exec, Enabled, Honest;
    if schedule != [] {
      StepKeepsInvariant(w, schedule[0]);
      StepKeepsBinding(w, schedule[0]);
      RunKeepsBinding(Exec(w, schedule[0]), schedule[1..]);
    }
  }

  lemma StartInvariant(w: World)
    requires Start(w)
    ensures Inv(w) && (Bound(w.app) ==> AllBound(w))
  {
    hide Fits, Describes, Binds, Distinct;
    DescribedIsCoherent(w.app.runtime, w.app.lastBuilt);
    FittingIsCovered(w.app.slots, Live(w));
    if Bound(w.app) {
      BindingShares(w.app.runtime, w.app.slots);
    }
  }

  lemma {:induction false} ReachedInvariant(w: World, schedule: seq<Action>, t: World)
    requires Start(w) && Play(w, schedule) == Some(t)
    ensures Inv(t)
  {
    hide Inv, Start;
    StartInvariant(w);
    RunKeepsInvariant(w, schedule);
  }

  lemma {:induction false} ReachedBinding(w: World, schedule: seq<Action>, t: World)
    requires Start(w) && Bound(w.app) && Play(w, schedule) == Some(t) && HonestRun(w, schedule)
    ensures AllBound(t)
  {
    hide Inv, Start, AllBound, Bound;
    StartInvariant(w);
    RunKeepsBinding(w, schedule);
  }

  /**
    No coverage gap: at every instant of any interleaving of reloads, collections and readers, each
    upstream of the published configuration has a slot and each rate-limited key of it has a bucket.
  */
  lemma {:induction false} NoCoverageGap(w: World, schedule: seq<Action>, t: World)
    requires Start(w) && Play(w, schedule) == Some(t)
    ensures forall i :: 0 <= i < |Live(t).models| ==> Live(t).models[i].stateKey in t.app.slots
    ensures forall i :: 0 <= i < |Live(t).keys| && Live(t).keys[i].rateLimit.Some? ==> Live(t).keys[i].id in t.app.buckets
  {
    hide PcInvariant, Coherent, AllCoherent, Start;
    ReachedInvariant(w, schedule, t);
    forall i | 0 <= i < |Live(t).models| ensures Live(t).models[i].stateKey in t.app.slots {
      assert Live(t).models[i].stateKey in StateKeys(Live(t).models);
    }
    forall i | 0 <= i < |Live(t).keys| && Live(t).keys[i].rateLimit.Some? ensures Live(t).keys[i].id in t.app.buckets {
      assert Live(t).keys[i].id in LimitedIds(Live(t).keys);
    }
  }

  /** Always, and whatever was reused: every published provider works under its own model's limits. */
  lemma {:induction false} ProvidersUnderOwnLimits(w: World, schedule: seq<Action>, t: World, i: nat)
    requires Start(w) && Play(w, schedule) == Some(t) && i < |Live(t).models|
    ensures var rt := t.app.runtime;
      var m := Live(t).models[i];
      && m.name in rt.providers && rt.resolver == rt.providers
      && rt.providers[m.name].slot.governance == GovernanceOf(m, Live(t).breaker)
  {
    hide PcInvariant, AllCoherent, Start;
    ReachedInvariant(w, schedule, t);
    assert OwnLimits(t.app.runtime, Live(t).models[i]);
  }

  /**
    Published provider binding: as long as no provider is taken over from another upstream, whenever
    the reload lock is free, every published model's provider, built or reused, is bound to the very
    object in the slot map under the model's state key, and that object has the model's own limits. So
    aliases of one upstream, and MoA arms on it, share one slot.
  */
  lemma {:induction false} ProvidersBoundToSlots(w: World, schedule: seq<Action>, t: World, i: nat, j: nat)
    requires Start(w) && Bound(w.app) && Play(w, schedule) == Some(t) && t.pc.Idle? && HonestRun(w, schedule)
    requires i < |Live(t).models| && j < |Live(t).models|
    ensures var rt := t.app.runtime;
      var a, b := Live(t).models[i], Live(t).models[j];
      && a.name in rt.providers && b.name in rt.providers && a.stateKey in t.app.slots
      && rt.providers[a.name].slot == t.app.slots[a.stateKey]
      && t.app.slots[a.stateKey].governance == GovernanceOf(a, Live(t).breaker)
      && rt.resolver == rt.providers
      && (a.stateKey == b.stateKey ==> rt.resolver[b.name].slot == rt.providers[a.name].slot)
  {
    hide AllCoherent, AllShare, Start, HonestRun, Describes;
    ReachedInvariant(w, schedule, t);
    ReachedBinding(w, schedule, t);
    assert BoundModel(t.app.runtime, t.app.slots, Live(t).models[i]) && BoundModel(t.app.runtime, t.app.slots, Live(t).models[j]);
    assert Preserves(t.app.slots, Live(t).models[i], Live(t).breaker);
  }

  /** In particular if no address, variable name, label or key value ever holds a bar. */
  lemma {:induction false} BarFreeRunsStayBound(w: World, schedule: seq<Action>, t: World)
    requires Start(w) && Bound(w.app) && Play(w, schedule) == Some(t)
    requires BarFreeBuilt(w.app.lastBuilt) && BarFreeSchedule(schedule)
    ensures HonestRun(w, schedule) && AllBound(t)
  {
    hide AllBound, BarFreeSchedule;
    BarFreeRunIsHonest(w, schedule);
    ReachedBinding(w, schedule, t);
  }

  /**
    A request keeps the snapshot it loaded for as long as it runs, whatever is reloaded or collected
    meanwhile: in it too, every model has a provider with its own limits, and aliases share one slot
    as long as nothing is taken over from another upstream.
  */
  lemma {:induction false} PinnedSnapshotsStayCoherent(w: World, schedule: seq<Action>, t: World, r: nat)
    requires Start(w) && Play(w, schedule) == Some(t) && r < |t.pinned|
    ensures Coherent(t.pinned[r])
    ensures Bound(w.app) && HonestRun(w, schedule) ==> Shares(t.pinned[r])
  {
    hide PcInvariant, Coherent, Shares, Start, Bound, HonestRun, BoundPc;
    ReachedInvariant(w, schedule, t);
    if Bound(w.app) && HonestRun(w, schedule) {
      ReachedBinding(w, schedule, t);
    }
  }

  /** Between the first bucket installed and the last one reclaimed. */
  predicate ChangingBuckets(pc: Pc) { pc.Installing? || pc.Remembering? || pc.Reclaiming? }

  /**
    The per-key limit is looked up in the current map by every request, also by one that holds an older
    snapshot. It is always found if the published configuration limits the key; and except while a
    reload is replacing buckets it is found only then, with the published limit. So a request that
    pinned a limited key runs unlimited exactly if a reload has lifted the limit since. While buckets are
    being replaced, those of the configuration going out and of the one coming in are there together,
    as far as they have been installed and not yet reclaimed.
  */
  lemma {:induction false} LookupFollowsPublished(w: World, schedule: seq<Action>, t: World, id: string)
    requires Start(w) && Play(w, schedule) == Some(t)
    ensures id in LimitedIds(Live(t).keys) ==> id in t.app.buckets
    ensures !ChangingBuckets(t.pc) ==>
      && (id in t.app.buckets <==> id in LimitedIds(Live(t).keys))
      && (id in t.app.buckets ==> LastLimit(Live(t).keys, id) == Some(t.app.buckets[id].limit))
    ensures t.pc.Installing? ==>
      t.pc.next <= |t.pc.config.keys|
      && (id in t.app.buckets <==> id in LimitedIds(Live(t).keys) || id in LimitedIds(t.pc.config.keys[..t.pc.next]))
    ensures t.pc.Remembering? ==>
      (id in t.app.buckets <==> id in LimitedIds(Live(t).keys) || id in LimitedIds(t.pc.prev.keys))
    ensures t.pc.Reclaiming? ==>
      (id in t.app.buckets <==> id in LimitedIds(Live(t).keys) || (id in LimitedIds(t.pc.prev.keys) && id !in t.pc.reclaimed))
    ensures (t.pc.Remembering? || t.pc.Reclaiming?) && id in LimitedIds(Live(t).keys) ==>
      LastLimit(Live(t).keys, id) == Some(t.app.buckets[id].limit)
  {
    hide Coherent, AllCoherent, Start, Describes, Fits, Distinct, LimitedIds, StateKeys;
    ReachedInvariant(w, schedule, t);
    if (t.pc.Remembering? || t.pc.Reclaiming?) && id in LimitedIds(Live(t).keys) {
      LimitedHasLast(Live(t).keys, id);
      assert HasLastLimit(Live(t).keys, id, t.app.buckets[id]);
    }
  }

  /**
    All or nothing: a reload that has begun cannot fail. The failing step is never possible, and the
    step that builds a provider against the slot of the next model always is.
  */
  lemma {:induction false} ReloadNeverFails(w: World, schedule: seq<Action>, t: World, apiKey: string, provider: Provider)
    requires Start(w) && Play(w, schedule) == Some(t)
    ensures !Enabled(t, BuildFails(apiKey))
    ensures t.pc.Building? && t.pc.next < |t.pc.config.models| ==>
      var m := t.pc.config.models[t.pc.next];
      && m.stateKey in t.app.slots
      && (provider.inputs == SignatureOf(m, apiKey, t.pc.config) && provider.slot == t.app.slots[m.stateKey]
          ==> Enabled(t, BuildStep(apiKey, provider)))
  {
    hide Coherent, AllCoherent, Start, Describes, Distinct, Reuses, SignatureOf;
    ReachedInvariant(w, schedule, t);
    BuildNeverFails(t, apiKey);
    if t.pc.Building? && t.pc.next < |t.pc.config.models| {
      assert Preserves(t.app.slots, t.pc.config.models[t.pc.next], t.pc.config.breaker);
    }
  }

  /** Collection never removes a slot the live configuration uses, even one removed and added again since. */
  lemma {:induction false} CollectionSparesLive(w: World, schedule: seq<Action>, t: World, key: string, i: nat)
    requires Start(w) && Play(w, schedule) == Some(t) && Enabled(t, GcStep(key)) && i < |Live(t).models|
    ensures var k := Live(t).models[i].stateKey;
      k in Exec(t, GcStep(key)).app.slots && Exec(t, GcStep(key)).app.slots[k] == t.app.slots[k]
  {
    hide Coherent, AllCoherent, Start, PcInvariant;
    ReachedInvariant(w, schedule, t);
    assert Live(t).models[i].stateKey in StateKeys(Live(t).models);
  }

  /** When a collection is done the slot keys are exactly the live upstreams. */
  lemma {:induction false} CollectionIsExact(w: World, schedule: seq<Action>, t: World)
    requires Start(w) && Play(w, schedule) == Some(t) && Enabled(t, GcDone)
    ensures Exec(t, GcDone).app.slots.Keys == StateKeys(Live(t).models)
  {
    hide Coherent, AllCoherent, Start, PcInvariant;
    ReachedInvariant(w, schedule, t);
  }

  /** Nothing leaks: while the lock is free, an orphan slot implies that a collection is still pending. */
  lemma {:induction false} OrphansHaveATask(w: World, schedule: seq<Action>, t: World)
    requires Start(w) && Play(w, schedule) == Some(t) && t.pc.Idle?
    ensures t.app.slots.Keys != StateKeys(Live(t).models) ==> t.app.gcTasks > 0
  {
    hide Coherent, AllCoherent, Start, Describes, Fits;
    ReachedInvariant(w, schedule, t);
  }

  /** The usage store the process started with is the one every published configuration names. */
  lemma {:induction false} UsageStoreIsFrozen(w: World, schedule: seq<Action>)
    requires Play(w, schedule).Some?
    ensures Live(Play(w, schedule).value).usageStore == Live(w).usageStore
    decreases |schedule|
  {
    if schedule != [] {
      UsageStoreIsFrozen(Exec(w, schedule[0]), schedule[1..]);
    }
  }
}
