/**
  Whole phases of a reload as runs of the reload protocol, and their completion.
*/
module ReloadRuns {
  import opened Wrappers
  import opened Config
  import opened Runtime
  import opened Signatures
  import opened Registry
  import opened Reload
  import opened ReloadProtocol

  lemma {:induction false} PlayConcat(w: World, a: seq<Action>, b: seq<Action>)
    requires Play(w, a).Some?
    ensures Play(w, a + b) == Play(Play(w, a).value, b)
    decreases |a|
  {
    hide Enabled, Exec;
    if a == [] {
      assert a + b == b;
    } else {
      assert (a + b)[1..] == a[1..] + b;
      PlayConcat(Exec(w, a[0]), a[1..], b);
    }
  }

  lemma {:induction false} PlayOne(w: World, a: Action)
    requires Enabled(w, a)
    ensures Play(w, [a]) == Some(Exec(w, a))
  {
    hide Enabled, Exec;
    assert [a][1..] == [];
  }

  lemma {:induction false} PlayThen(w: World, schedule: seq<Action>, a: Action)
    requires Play(w, schedule).Some? && Enabled(Play(w, schedule).value, a)
    ensures Play(w, schedule + [a]) == Some(Exec(Play(w, schedule).value, a))
  {
    hide Enabled, Exec;
    PlayConcat(w, schedule, [a]);
    PlayOne(Play(w, schedule).value, a);
  }

  // ---- the loops ----

  function EnsureSteps(made: seq<UpstreamState>): seq<Action> {
    if made == [] then [] else EnsureSteps(made[..|made|-1]) + [EnsureStep(made[|made|-1])]
  }

  lemma {:induction false} UsableBefore(slots: map<string, UpstreamState>, c: RuntimeConfig, n: nat, made: seq<UpstreamState>)
    requires made != [] && n + |made| <= |c.models| && AllUsable(slots, c, n, made)
    ensures var i := |made| - 1;
      && AllUsable(slots, c, n, made[..i])
      && Usable(EnsureAll(slots, c, n, made[..i]), c.models[n + i], c.breaker, made[i])
  {
    hide Usable, EnsureAll;
    var i := |made| - 1;
    forall j | 0 <= j < i ensures Usable(EnsureAll(slots, c, n, made[..i][..j]), c.models[n + j], c.breaker, made[..i][j]) {
      assert made[..i][..j] == made[..j];
    }
  }

  lemma {:induction false} EnsureRun(w: World, c: RuntimeConfig, n: nat, made: seq<UpstreamState>)
    requires w.pc == Ensuring(c, n) && n + |made| <= |c.models| && AllUsable(w.app.slots, c, n, made)
    ensures Play(w, EnsureSteps(made)) == Some(w.(
      app := w.app.(slots := EnsureAll(w.app.slots, c, n, made)), pc := Ensuring(c, n + |made|)))
  {
    hide Usable, EnsureOne, AllUsable;
    if made != [] {
      var i := |made| - 1;
      UsableBefore(w.app.slots, c, n, made);
      EnsureRun(w, c, n, made[..i]);
      PlayThen(w, EnsureSteps(made[..i]), EnsureStep(made[i]));
    }
  }

  function BuildSteps(c: RuntimeConfig, env: Env, n: nat, made: seq<Provider>): seq<Action>
    requires n + |made| <= |c.models|
  {
    if made == [] then []
    else
      var i := |made| - 1;
      BuildSteps(c, env, n, made[..i]) + [BuildStep(env(c.models[n + i].apiKeyEnv), made[i])]
  }

  lemma OfferedBefore(
    c: RuntimeConfig, slots: map<string, UpstreamState>, env: Env, prev: map<string, BuiltProvider>, n: nat, made: seq<Provider>)
    requires made != [] && n + |made| <= |c.models| && AllOffered(c, slots, env, prev, n, made)
    ensures var i := |made| - 1;
      && AllOffered(c, slots, env, prev, n, made[..i])
      && Offers(slots, prev, c.models[n + i], SignatureOf(c.models[n + i], env(c.models[n + i].apiKeyEnv), c), made[i])
  {
    hide Offers, SignatureOf;
    assert Offers(slots, prev, c.models[n + |made| - 1], Inputs(c, env, c.models[n + |made| - 1]), made[|made|-1]);
  }

  lemma {:induction false} BuildRun(
    w: World, c: RuntimeConfig, env: Env, n: nat, built: map<string, BuiltProvider>, made: seq<Provider>)
    requires w.pc == Building(c, n, built) && n + |made| <= |c.models|
    requires AllOffered(c, w.app.slots, env, w.app.lastBuilt, n, made)
    ensures Play(w, BuildSteps(c, env, n, made)) == Some(w.(
      pc := Building(c, n + |made|, BuildAll(c, env, w.app.lastBuilt, n, built, made))))
  {
    hide Offers, Chosen, SignatureOf, AllOffered;
    if made != [] {
      var i := |made| - 1;
      var m := c.models[n + i];
      OfferedBefore(c, w.app.slots, env, w.app.lastBuilt, n, made);
      BuildRun(w, c, env, n, built, made[..i]);
      PlayThen(w, BuildSteps(c, env, n, made[..i]), BuildStep(env(m.apiKeyEnv), made[i]));
    }
  }

  function InstallSteps(made: seq<Option<TokenBucket>>): seq<Action> {
    if made == [] then [] else InstallSteps(made[..|made|-1]) + [InstallStep(made[|made|-1])]
  }

  lemma {:induction false} BucketsUsableBefore(
    buckets: map<string, TokenBucket>, keys: seq<KeyConfig>, n: nat, made: seq<Option<TokenBucket>>)
    requires made != [] && n + |made| <= |keys| && AllBucketsUsable(buckets, keys, n, made)
    ensures var i := |made| - 1;
      && AllBucketsUsable(buckets, keys, n, made[..i])
      && UsableBucket(InstallAll(buckets, keys, n, made[..i]), keys[n + i], made[i])
  {
    hide UsableBucket, InstallAll;
    var i := |made| - 1;
    forall j | 0 <= j < i ensures UsableBucket(InstallAll(buckets, keys, n, made[..i][..j]), keys[n + j], made[..i][j]) {
      assert made[..i][..j] == made[..j];
    }
  }

  lemma {:induction false} InstallRun(
    w: World, c: RuntimeConfig, n: nat, built: map<string, BuiltProvider>, made: seq<Option<TokenBucket>>)
    requires w.pc == Installing(c, n, built) && n + |made| <= |c.keys| && AllBucketsUsable(w.app.buckets, c.keys, n, made)
    ensures Play(w, InstallSteps(made)) == Some(w.(
      app := w.app.(buckets := InstallAll(w.app.buckets, c.keys, n, made)), pc := Installing(c, n + |made|, built)))
  {
    hide UsableBucket, InstallKey, AllBucketsUsable;
    if made != [] {
      var i := |made| - 1;
      BucketsUsableBefore(w.app.buckets, c.keys, n, made);
      InstallRun(w, c, n, built, made[..i]);
      PlayThen(w, InstallSteps(made[..i]), InstallStep(made[i]));
    }
  }

  lemma {:induction false} ReclaimRun(w: World, ids: set<string>) returns (schedule: seq<Action>)
    requires w.pc.Reclaiming? && ids <= w.app.buckets.Keys && ids !! LimitedIds(Live(w).keys)
    ensures Play(w, schedule) ==
      Some(w.(app := w.app.(buckets := w.app.buckets - ids), pc := Reclaiming(w.pc.prev, w.pc.reclaimed + ids)))
    decreases |ids|
  {
    if ids == {} {
      schedule := [];
      assert w.app.buckets - ids == w.app.buckets && w.pc.reclaimed + ids == w.pc.reclaimed;
    } else {
      var id :| id in ids;
      var rest := ids - {id};
      schedule := ReclaimRun(w, rest);
      PlayThen(w, schedule, ReclaimStep(id));
      schedule := schedule + [ReclaimStep(id)];
      assert w.pc.reclaimed + rest + {id} == w.pc.reclaimed + ids;
      assert w.app.buckets - rest - {id} == w.app.buckets - ids;
    }
  }

  lemma {:induction false} GcRun(w: World, keys: set<string>) returns (schedule: seq<Action>)
    requires w.pc.Collecting? && keys <= w.app.slots.Keys && keys !! StateKeys(Live(w).models)
    ensures Play(w, schedule) == Some(w.(app := w.app.(slots := w.app.slots - keys)))
    decreases |keys|
  {
    if keys == {} {
      schedule := [];
      assert w.app.slots - keys == w.app.slots;
    } else {
      var key :| key in keys;
      var rest := keys - {key};
      schedule := GcRun(w, rest);
      PlayThen(w, schedule, GcStep(key));
      schedule := schedule + [GcStep(key)];
      assert w.app.slots - rest - {key} == w.app.slots - keys;
    }
  }

  // ---- from the last bucket to the end ----

  /** What is left when the lock is released after publishing. */
  function Reclaimed(w: World): World
    requires w.pc.Reclaiming?
  {
    w.(app := w.app.(buckets := Restrict(w.app.buckets, LimitedIds(Live(w).keys)),
                     gcTasks := w.app.gcTasks + if Drops(w.pc.prev, Live(w)) then 1 else 0), pc := Idle)
  }

  lemma FinishReclaiming(w: World) returns (schedule: seq<Action>)
    requires w.pc.Reclaiming?
    ensures Play(w, schedule) == Some(Reclaimed(w))
  {
    var dead := w.app.buckets.Keys - LimitedIds(Live(w).keys);
    schedule := ReclaimRun(w, dead);
    assert w.app.buckets - dead == Restrict(w.app.buckets, LimitedIds(Live(w).keys));
    PlayThen(w, schedule, ReclaimDone);
    schedule := schedule + [ReclaimDone];
  }

  lemma {:induction false} PlayFirst(w: World, a: Action, later: seq<Action>)
    requires Enabled(w, a)
    ensures Play(w, [a] + later) == Play(Exec(w, a), later)
  {
    hide Enabled, Exec;
    assert ([a] + later)[1..] == later;
  }

  lemma FinishRemembering(w: World) returns (schedule: seq<Action>)
    requires w.pc.Remembering?
    ensures Play(w, schedule) == Some(Reclaimed(Exec(w, Remember)))
  {
    schedule := FinishReclaiming(Exec(w, Remember));
    PlayFirst(w, Remember, schedule);
    schedule := [Remember] + schedule;
  }

  /** The state after publishing and cleaning up. */
  function Completed(w: World): World
    requires w.pc.Installing? && w.pc.next == |w.pc.config.keys|
  {
    Reclaimed(Exec(Exec(w, Publish), Remember))
  }

  lemma FinishInstalled(w: World) returns (schedule: seq<Action>)
    requires w.pc.Installing? && w.pc.next == |w.pc.config.keys|
    ensures Play(w, schedule) == Some(Completed(w))
  {
    schedule := FinishRemembering(Exec(w, Publish));
    PlayFirst(w, Publish, schedule);
    schedule := [Publish] + schedule;
  }

  // ---- a whole reload ----

  /** The end of a reload that made these slots, providers and buckets. */
  function Reloaded(
    w: World, c: RuntimeConfig, slots: map<string, UpstreamState>, built: map<string, BuiltProvider>, buckets: map<string, TokenBucket>): World
  {
    var published := c.(usageStore := Live(w).usageStore);
    w.(app := App(slots, Restrict(buckets, LimitedIds(c.keys)), Snapshot(published, built), built,
                  w.app.gcTasks + if Drops(Live(w), published) then 1 else 0),
       pc := Idle)
  }

  lemma InstallAndFinish(
    w: World, c: RuntimeConfig, n: nat, built: map<string, BuiltProvider>, buckets: seq<Option<TokenBucket>>) returns (schedule: seq<Action>)
    requires w.pc == Installing(c, n, built) && n + |buckets| == |c.keys| && AllBucketsUsable(w.app.buckets, c.keys, n, buckets)
    ensures Play(w, schedule) == Some(Reloaded(w, c, w.app.slots, built, InstallAll(w.app.buckets, c.keys, n, buckets)))
  {
    hide AllBucketsUsable, InstallAll;
    InstallRun(w, c, n, built, buckets);
    var installed := Play(w, InstallSteps(buckets)).value;
    var rest := FinishInstalled(installed);
    PlayConcat(w, InstallSteps(buckets), rest);
    schedule := InstallSteps(buckets) + rest;
  }

  lemma BuildAndFinish(
    w: World, c: RuntimeConfig, env: Env, n: nat, built: map<string, BuiltProvider>,
    providers: seq<Provider>, buckets: seq<Option<TokenBucket>>) returns (schedule: seq<Action>)
    requires w.pc == Building(c, n, built) && n + |providers| == |c.models| && |buckets| == |c.keys|
    requires AllOffered(c, w.app.slots, env, w.app.lastBuilt, n, providers) && AllBucketsUsable(w.app.buckets, c.keys, 0, buckets)
    ensures Play(w, schedule) == Some(Reloaded(
      w, c, w.app.slots, BuildAll(c, env, w.app.lastBuilt, n, built, providers), InstallAll(w.app.buckets, c.keys, 0, buckets)))
  {
    hide AllBucketsUsable, InstallAll, AllOffered, BuildAll, Reloaded;
    BuildRun(w, c, env, n, built, providers);
    var steps := BuildSteps(c, env, n, providers);
    var finished := Play(w, steps).value;
    PlayThen(w, steps, BuildDone);
    var ready := Exec(finished, BuildDone);
    var rest := InstallAndFinish(ready, c, 0, finished.pc.built, buckets);
    PlayConcat(w, steps + [BuildDone], rest);
    schedule := steps + [BuildDone] + rest;
    SameEnd(w, ready, c, w.app.slots, finished.pc.built, InstallAll(w.app.buckets, c.keys, 0, buckets));
  }

  /** The end depends on what was published before and on what was pinned, not on the steps in between. */
  lemma SameEnd(
    w: World, v: World, c: RuntimeConfig, slots: map<string, UpstreamState>, built: map<string, BuiltProvider>, buckets: map<string, TokenBucket>)
    requires v.app.runtime == w.app.runtime && v.app.gcTasks == w.app.gcTasks && v.pinned == w.pinned
    ensures Reloaded(v, c, slots, built, buckets) == Reloaded(w, c, slots, built, buckets)
  {
  }

  lemma EnsureAndFinish(
    w: World, c: RuntimeConfig, env: Env, n: nat, slots: seq<UpstreamState>, providers: seq<Provider>, buckets: seq<Option<TokenBucket>>)
    returns (schedule: seq<Action>)
    requires w.pc == Ensuring(c, n) && n + |slots| == |c.models| == |providers| && |buckets| == |c.keys|
    requires AllUsable(w.app.slots, c, n, slots) && AllBucketsUsable(w.app.buckets, c.keys, 0, buckets)
    requires AllOffered(c, EnsureAll(w.app.slots, c, n, slots), env, w.app.lastBuilt, 0, providers)
    ensures Play(w, schedule) == Some(Reloaded(
      w, c, EnsureAll(w.app.slots, c, n, slots), BuildAll(c, env, w.app.lastBuilt, 0, map[], providers),
      InstallAll(w.app.buckets, c.keys, 0, buckets)))
  {
    hide AllBucketsUsable, InstallAll, AllOffered, BuildAll, AllUsable, EnsureAll, Reloaded;
    EnsureRun(w, c, n, slots);
    var steps := EnsureSteps(slots);
    PlayThen(w, steps, EnsureDone);
    var ready := Exec(Play(w, steps).value, EnsureDone);
    var rest := BuildAndFinish(ready, c, env, 0, map[], providers, buckets);
    PlayConcat(w, steps + [EnsureDone], rest);
    schedule := steps + [EnsureDone] + rest;
    SameEnd(w, ready, c, EnsureAll(w.app.slots, c, n, slots), BuildAll(c, env, w.app.lastBuilt, 0, map[], providers),
            InstallAll(w.app.buckets, c.keys, 0, buckets));
  }

  /** A whole reload, from a free lock to a free lock, is a run of the protocol. */
  lemma WholeReload(
    w: World, c: RuntimeConfig, env: Env, slots: seq<UpstreamState>, providers: seq<Provider>, buckets: seq<Option<TokenBucket>>)
    returns (schedule: seq<Action>)
    requires w.pc.Idle? && Sound(c) && |slots| == |c.models| == |providers| && |buckets| == |c.keys|
    requires AllUsable(w.app.slots, c, 0, slots) && AllBucketsUsable(w.app.buckets, c.keys, 0, buckets)
    requires AllOffered(c, EnsureAll(w.app.slots, c, 0, slots), env, w.app.lastBuilt, 0, providers)
    ensures Play(w, schedule) == Some(Reloaded(
      w, c, EnsureAll(w.app.slots, c, 0, slots), BuildAll(c, env, w.app.lastBuilt, 0, map[], providers),
      InstallAll(w.app.buckets, c.keys, 0, buckets)))
  {
    hide AllBucketsUsable, InstallAll, AllOffered, BuildAll, AllUsable, EnsureAll, Reloaded;
    var begun := Exec(w, ReloadBegins(c));
    var rest := EnsureAndFinish(begun, c, env, 0, slots, providers, buckets);
    PlayFirst(w, ReloadBegins(c), rest);
    schedule := [ReloadBegins(c)] + rest;
    SameEnd(w, begun, c, EnsureAll(w.app.slots, c, 0, slots), BuildAll(c, env, w.app.lastBuilt, 0, map[], providers),
            InstallAll(w.app.buckets, c.keys, 0, buckets));
  }

  /** So is a whole collection. */
  lemma WholeCollection(w: World) returns (schedule: seq<Action>)
    requires w.pc.Idle? && w.app.gcTasks > 0
    ensures Play(w, schedule) == Some(w.(app := Collected(w.app)))
  {
    var begun := Exec(w, GcBegins);
    var dead := w.app.slots.Keys - StateKeys(Live(w).models);
    var steps := GcRun(begun, dead);
    assert w.app.slots - dead == Restrict(w.app.slots, StateKeys(Live(w).models));
    PlayThen(begun, steps, GcDone);
    PlayFirst(w, GcBegins, steps + [GcDone]);
    schedule := [GcBegins] + (steps + [GcDone]);
  }

  // ---- completion ----

  /** Objects for the steps that are left: slots and buckets to use where one must be replaced, providers to bind. */
  datatype Supplies = Supplies(slots: seq<UpstreamState>, providers: seq<Provider>, buckets: seq<Option<TokenBucket>>)

  predicate Supplied(w: World, env: Env, s: Supplies) {
    match w.pc
    case Ensuring(c, n) =>
      && n + |s.slots| == |c.models| == |s.providers| && |s.buckets| == |c.keys|
      && AllUsable(w.app.slots, c, n, s.slots) && AllBucketsUsable(w.app.buckets, c.keys, 0, s.buckets)
      && AllOffered(c, EnsureAll(w.app.slots, c, n, s.slots), env, w.app.lastBuilt, 0, s.providers)
    case Building(c, n, _) =>
      && n + |s.providers| == |c.models| && |s.buckets| == |c.keys|
      && AllOffered(c, w.app.slots, env, w.app.lastBuilt, n, s.providers) && AllBucketsUsable(w.app.buckets, c.keys, 0, s.buckets)
    case Installing(c, n, _) => n + |s.buckets| == |c.keys| && AllBucketsUsable(w.app.buckets, c.keys, n, s.buckets)
    case _ => true
  }

  method NewSlots(slots: map<string, UpstreamState>, c: RuntimeConfig, n: nat) returns (made: seq<UpstreamState>)
    requires n <= |c.models|
    ensures n + |made| == |c.models| && AllUsable(slots, c, n, made)
  {
    hide EnsureAll;
    made := [];
    for i := n to |c.models|
      invariant n + |made| == i && AllUsable(slots, c, n, made)
    {
      var now := EnsureAll(slots, c, n, made);
      var one;
      if Preserves(now, c.models[i], c.breaker) {
        one := now[c.models[i].stateKey];
      } else {
        one := new UpstreamState(c.models[i], c.breaker);
        EnsureAllIsOld(slots, c, n, made);
      }
      EnsureAllNext(slots, c, n, made, one);
      made := made + [one];
    }
  }

  /** The loop puts no other objects in than it was given. */
  lemma {:induction false} EnsureAllIsOld(slots: map<string, UpstreamState>, c: RuntimeConfig, n: nat, made: seq<UpstreamState>)
    requires n + |made| <= |c.models|
    ensures forall k :: k in EnsureAll(slots, c, n, made) ==>
      EnsureAll(slots, c, n, made)[k] in slots.Values || EnsureAll(slots, c, n, made)[k] in made
  {
    if made != [] {
      EnsureAllIsOld(slots, c, n, made[..|made|-1]);
    }
  }

  lemma {:induction false} InstallAllIsOld(buckets: map<string, TokenBucket>, keys: seq<KeyConfig>, n: nat, made: seq<Option<TokenBucket>>)
    requires n + |made| <= |keys|
    ensures forall k :: k in InstallAll(buckets, keys, n, made) ==>
      InstallAll(buckets, keys, n, made)[k] in buckets.Values || Some(InstallAll(buckets, keys, n, made)[k]) in made
  {
    if made != [] {
      InstallAllIsOld(buckets, keys, n, made[..|made|-1]);
    }
  }

  method NewBuckets(buckets: map<string, TokenBucket>, keys: seq<KeyConfig>, n: nat) returns (made: seq<Option<TokenBucket>>)
    requires n <= |keys|
    ensures n + |made| == |keys| && AllBucketsUsable(buckets, keys, n, made)
  {
    hide InstallAll;
    made := [];
    for i := n to |keys|
      invariant n + |made| == i && AllBucketsUsable(buckets, keys, n, made)
    {
      var now := InstallAll(buckets, keys, n, made);
      var one: Option<TokenBucket> := None;
      if keys[i].rateLimit.Some? {
        var bucket := new TokenBucket(keys[i].rateLimit.value);
        InstallAllIsOld(buckets, keys, n, made);
        one := Some(bucket);
      }
      InstallAllNext(buckets, keys, n, made, one);
      made := made + [one];
    }
  }

  method NewProviders(
    c: RuntimeConfig, slots: map<string, UpstreamState>, env: Env, prev: map<string, BuiltProvider>, n: nat)
    returns (made: seq<Provider>)
    requires n <= |c.models| && forall i :: 0 <= i < |c.models| ==> c.models[i].stateKey in slots
    ensures n + |made| == |c.models| && AllOffered(c, slots, env, prev, n, made)
  {
    hide SignatureOf, Reuses;
    made := [];
    for i := n to |c.models|
      invariant n + |made| == i && AllOffered(c, slots, env, prev, n, made)
    {
      var one := new Provider(Inputs(c, env, c.models[i]), slots[c.models[i].stateKey]);
      made := made + [one];
    }
  }

  lemma {:induction false} EnsureAllCovers(slots: map<string, UpstreamState>, c: RuntimeConfig, n: nat, made: seq<UpstreamState>)
    requires n + |made| <= |c.models|
    ensures forall k :: k in slots ==> k in EnsureAll(slots, c, n, made)
    ensures forall i :: n <= i < n + |made| ==> c.models[i].stateKey in EnsureAll(slots, c, n, made)
  {
    if made != [] {
      EnsureAllCovers(slots, c, n, made[..|made|-1]);
    }
  }

  lemma {:induction false} AllHaveSlots(slots: map<string, UpstreamState>, c: RuntimeConfig, n: nat, made: seq<UpstreamState>)
    requires EnsuredUpTo(slots, c, n) && n + |made| == |c.models|
    ensures forall i :: 0 <= i < |c.models| ==> c.models[i].stateKey in EnsureAll(slots, c, n, made)
  {
    EnsureAllCovers(slots, c, n, made);
    forall i | 0 <= i < n ensures c.models[i].stateKey in slots {
      assert Preserves(slots, c.models[i], c.breaker);
    }
  }

  /** In every state that the invariant allows, the constructors can supply what the reload needs to go on. */
  method Supply(w: World, env: Env) returns (s: Supplies)
    requires Inv(w)
    ensures Supplied(w, env, s)
  {
    hide AllUsable, AllOffered, AllBucketsUsable, InstallAll, EnsureAll, BuildAll, Coherent, AllCoherent, Describes, Settled;
    s := Supplies([], [], []);
    match w.pc {
      case Ensuring(c, n) =>
        var slots := NewSlots(w.app.slots, c, n);
        AllHaveSlots(w.app.slots, c, n, slots);
        var providers := NewProviders(c, EnsureAll(w.app.slots, c, n, slots), env, w.app.lastBuilt, 0);
        var buckets := NewBuckets(w.app.buckets, c.keys, 0);
        s := Supplies(slots, providers, buckets);
      case Building(c, n, _) =>
        forall i | 0 <= i < |c.models| ensures c.models[i].stateKey in w.app.slots {
          assert Preserves(w.app.slots, c.models[i], c.breaker);
        }
        var providers := NewProviders(c, w.app.slots, env, w.app.lastBuilt, n);
        var buckets := NewBuckets(w.app.buckets, c.keys, 0);
        s := Supplies([], providers, buckets);
      case Installing(c, n, _) =>
        var buckets := NewBuckets(w.app.buckets, c.keys, n);
        s := Supplies([], [], buckets);
      case _ =>
    }
  }

  /** The configuration a reload in progress is going to publish; none if it has, or if none is in progress. */
  function Target(pc: Pc): Option<RuntimeConfig> {
    match pc
    case Ensuring(c, _) => Some(c)
    case Building(c, _, _) => Some(c)
    case Installing(c, _, _) => Some(c)
    case _ => None
  }

  /** The lock is free again, and what was under way to be published is. */
  predicate Done(w: World, t: World) {
    && t.pc.Idle? && t.pinned == w.pinned
    && match Target(w.pc)
       case Some(c) => Live(t) == c.(usageStore := Live(w).usageStore)
       case None => t.app.runtime == w.app.runtime
  }

  lemma FinishEnsuring(w: World, env: Env, s: Supplies) returns (rest: seq<Action>)
    requires w.pc.Ensuring? && Supplied(w, env, s)
    ensures Play(w, rest).Some? && Done(w, Play(w, rest).value)
  {
    hide AllUsable, AllOffered, AllBucketsUsable, InstallAll, EnsureAll, BuildAll;
    rest := EnsureAndFinish(w, w.pc.config, env, w.pc.next, s.slots, s.providers, s.buckets);
  }

  lemma FinishBuilding(w: World, env: Env, s: Supplies) returns (rest: seq<Action>)
    requires w.pc.Building? && Supplied(w, env, s)
    ensures Play(w, rest).Some? && Done(w, Play(w, rest).value)
  {
    hide AllOffered, AllBucketsUsable, InstallAll, BuildAll;
    rest := BuildAndFinish(w, w.pc.config, env, w.pc.next, w.pc.built, s.providers, s.buckets);
  }

  lemma FinishInstalling(w: World, env: Env, s: Supplies) returns (rest: seq<Action>)
    requires w.pc.Installing? && Supplied(w, env, s)
    ensures Play(w, rest).Some? && Done(w, Play(w, rest).value)
  {
    hide AllBucketsUsable, InstallAll;
    rest := InstallAndFinish(w, w.pc.config, w.pc.next, w.pc.built, s.buckets);
  }

  lemma FinishCollecting(w: World) returns (rest: seq<Action>)
    requires w.pc.Collecting?
    ensures Play(w, rest).Some? && Done(w, Play(w, rest).value)
  {
    var dead := w.app.slots.Keys - StateKeys(Live(w).models);
    rest := GcRun(w, dead);
    PlayThen(w, rest, GcDone);
    rest := rest + [GcDone];
  }

  /**
    A reload that has begun can always be completed, and a collection too: from every state, with the
    objects that the constructors supply and whatever the environment holds, some run frees the lock
    with the configuration of the reload published.
  */
  lemma LockIsAlwaysFreed(t: World, env: Env, s: Supplies) returns (rest: seq<Action>)
    requires Supplied(t, env, s)
    ensures Play(t, rest).Some? && Done(t, Play(t, rest).value)
  {
    hide Supplied;
    match t.pc
    case Idle => rest := [];
    case Ensuring(_, _) => rest := FinishEnsuring(t, env, s);
    case Building(_, _, _) => rest := FinishBuilding(t, env, s);
    case Installing(_, _, _) => rest := FinishInstalling(t, env, s);
    case Remembering(_, _) => rest := FinishRemembering(t);
    case Reclaiming(_, _) => rest := FinishReclaiming(t);
    case Collecting => rest := FinishCollecting(t);
  }

  /** So from every reachable state: the reload in progress can run to its end. */
  method CompleteReload(w: World, ghost schedule: seq<Action>, t: World, env: Env) returns (s: Supplies, ghost rest: seq<Action>)
    requires Start(w) && Play(w, schedule) == Some(t)
    ensures Supplied(t, env, s)
    ensures Play(t, rest).Some? && Done(t, Play(t, rest).value)
  {
    hide Inv, Start, Supplied;
    ReachedInvariant(w, schedule, t);
    s := Supply(t, env);
    rest := LockIsAlwaysFreed(t, env, s);
  }
}
