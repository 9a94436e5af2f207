/**
  The reloader with its fields (crates/moaray/src/reload.rs); each operation is a run of the reload
  protocol.
*/
module Reloader {
  import opened Wrappers
  import opened Config
  import opened Runtime
  import opened Registry
  import opened Reload
  import P = ReloadProtocol
  import R = ReloadRuns

  /** Nobody reads in between. */
  function Alone(a: App): P.World { P.World(a, P.Idle, []) }

  class ConfigReloader {
    const stateful: StatefulState
    var runtime: Published
    var lastBuilt: map<string, BuiltProvider>
    /** Garbage-collection tasks that have been spawned and have not run yet. */
    var gcTasks: nat

    function View(): App
      reads this, stateful
    {
      App(stateful.perUpstream, stateful.perKey, runtime, lastBuilt, gcTasks)
    }

    /** Startup: state first, then providers against it, then the snapshot. */
    constructor (config: RuntimeConfig, env: Env)
      requires Sound(config)
      ensures Settled(View()) && Bound(View()) && fresh(stateful) && runtime.config == config && gcTasks == 0
      ensures BuiltFrom(config, stateful.perUpstream, env, map[], lastBuilt)
      ensures AllServed(runtime, config, env, map[])
    {
      hide BuiltOne, DescribedModel, InstalledOne, EnsuredOne, Settled, Bound, CanBuild;
      var state := new StatefulState();
      var _ := state.EnsureForConfig(config);
      var _, _ := state.InstallKeyLimiters(config);
      AllCanBuild(config, map[], state.perUpstream, env, map[]);
      var built, _ := BuildProvidersWith(config, state.perUpstream, env, map[]);
      stateful := state;
      runtime := Snapshot(config, built.value);
      lastBuilt := built.value;
      gcTasks := 0;
      StartSettles(config, env, state.perUpstream, state.perKey, built.value);
      StartServes(config, env, state.perUpstream, built.value);
    }

    /**
      State first, then the providers against it. The build cannot fail here: every slot it looks up
      has just been ensured.
    */
    method Stage(newConfig: RuntimeConfig, env: Env)
      returns (built: Result<map<string, BuiltProvider>, string>, ghost slots: seq<UpstreamState>, ghost providers: seq<Provider>)
      requires Sound(newConfig)
      modifies stateful`perUpstream
      ensures built.Ok?
      ensures Ensured(old(stateful.perUpstream), stateful.perUpstream, newConfig)
      ensures Distinct(old(stateful.perUpstream)) ==> Distinct(stateful.perUpstream)
      ensures BuiltFrom(newConfig, stateful.perUpstream, env, lastBuilt, built.value)
      ensures forall i :: 0 <= i < |newConfig.models| ==>
        var m := newConfig.models[i];
        Preserves(old(stateful.perUpstream), m, newConfig.breaker) || fresh(stateful.perUpstream[m.stateKey])
      ensures |slots| == |newConfig.models| == |providers|
      ensures AllUsable(old(stateful.perUpstream), newConfig, 0, slots)
      ensures stateful.perUpstream == EnsureAll(old(stateful.perUpstream), newConfig, 0, slots)
      ensures MadeFrom(newConfig, stateful.perUpstream, env, lastBuilt, built.value, providers)
    {
      hide BuiltOne, CanBuild, MadeFrom, AllUsable, EnsureAll, Distinct;
      slots := stateful.EnsureForConfig(newConfig);
      AllCanBuild(newConfig, old(stateful.perUpstream), stateful.perUpstream, env, lastBuilt);
      built, providers := BuildProvidersWith(newConfig, stateful.perUpstream, env, lastBuilt);
    }

    /**
      Buckets, then the snapshot, then the record of the build; then buckets no key declares any more
      are reclaimed and, if an upstream is gone, a collection task is spawned. A bucket that is not the
      one from before is a new object.
    */
    method Publish(newConfig: RuntimeConfig, built: map<string, BuiltProvider>)
      returns (ghost installed: map<string, TokenBucket>, ghost buckets: seq<Option<TokenBucket>>)
      modifies this, stateful`perKey
      ensures Installed(old(stateful.perKey), installed, newConfig.keys)
      ensures |buckets| == |newConfig.keys| && AllBucketsUsable(old(stateful.perKey), newConfig.keys, 0, buckets)
      ensures installed == InstallAll(old(stateful.perKey), newConfig.keys, 0, buckets)
      ensures var was := old(stateful.perKey);
        forall id :: id in installed && !(id in was && installed[id] == was[id]) ==> fresh(installed[id])
      ensures stateful.perKey == Restrict(installed, LimitedIds(newConfig.keys))
      ensures runtime == Snapshot(newConfig.(usageStore := old(runtime.config.usageStore)), built)
      ensures lastBuilt == built
      ensures gcTasks == old(gcTasks) + if Drops(old(runtime.config), newConfig) then 1 else 0
    {
      hide InstalledOne, AllBucketsUsable, InstallAll, LimitedIds;
      var prevConfig := runtime.config;
      var updated;
      updated, buckets := stateful.InstallKeyLimiters(newConfig);
      installed := stateful.perKey;
      runtime := Snapshot(newConfig.(usageStore := prevConfig.usageStore), built);
      lastBuilt := built;
      var _ := stateful.RetainKeyLimiters(newConfig);
      if Drops(prevConfig, newConfig) {
        gcTasks := gcTasks + 1;
      }
    }

    /**
      A reload of a validated configuration always completes, and leaves everything settled. Providers
      end up bound to their slots exactly if none is taken over from another upstream. Applying the
      running configuration again changes nothing, except that it replaces buckets exactly if two
      declarations of one key conflict. Every model is served as the new configuration says, and one more
      collection is pending exactly if some upstream is gone. Step by step, the reload is a run of the
      protocol.
    */
    method Apply(newConfig: RuntimeConfig, env: Env)
      returns (r: Result<(), string>, ghost installed: map<string, TokenBucket>, ghost run: seq<P.Action>)
      requires Settled(View()) && Sound(newConfig)
      modifies this, stateful
      ensures r.Ok? && Settled(View())
      ensures Bound(old(View())) ==> (Bound(View()) <==> NoFalseReuse(old(lastBuilt), newConfig, env))
      ensures AllServed(runtime, newConfig, env, old(runtime.providers))
      ensures runtime.config == newConfig.(usageStore := old(runtime.config.usageStore)) && runtime.resolver == runtime.providers
      ensures gcTasks == old(gcTasks) + if SomeGone(old(runtime.config.models), newConfig.models) then 1 else 0
      ensures IsReload(old(View()), View(), newConfig, env, installed)
      ensures newConfig == old(runtime.config) && SameInputs(old(lastBuilt), newConfig, env) ==>
        && View() == old(View()).(buckets := View().buckets)
        && (View().buckets == old(View()).buckets <==> NoConflictingLimits(newConfig.keys))
      ensures forall i :: 0 <= i < |newConfig.models| ==>
        var m := newConfig.models[i];
        Preserves(old(stateful.perUpstream), m, newConfig.breaker) || fresh(stateful.perUpstream[m.stateKey])
      ensures var now, was := stateful.perKey, old(stateful.perKey);
        forall id :: id in now && !(id in was && now[id] == was[id]) ==> fresh(now[id])
      ensures P.Play(Alone(old(View())), run) == Some(Alone(View()))
    {
      hide BuiltOne, CanBuild, MadeFrom, AllUsable, EnsureAll, Distinct, InstalledOne, AllBucketsUsable, InstallAll, Ensured,
           BuiltFrom, Installed, Settled, Bound, NoFalseReuse, SameInputs, NoConflictingLimits, Sound, P.Play, ServedModel;
      ghost var before := View();
      var built, slots, providers := Stage(newConfig, env);
      if built.Err? {
        assert false;
      }
      ghost var buckets;
      installed, buckets := Publish(newConfig, built.value);
      ghost var after := View();
      assert IsReload(before, after, newConfig, env, installed);
      ReloadSettles(before, after, newConfig, env, installed);
      ReloadServes(before, after, newConfig, env, installed);
      DropsIffSomeGone(before.runtime.config, newConfig);
      if Bound(before) {
        ReloadBindsIff(before, after, newConfig, env, installed);
      }
      if newConfig == before.runtime.config && SameInputs(before.lastBuilt, newConfig, env) {
        ReapplyChangesNothing(before, after, newConfig, env, installed);
      }
      run := ReloadRun(before, after, newConfig, env, installed, slots, providers, buckets);
      r := Ok(());
    }

    /** One collection task: under the reload lock, against the configuration that is live by then. */
    method Collect() returns (ghost run: seq<P.Action>)
      requires Settled(View()) && gcTasks > 0
      modifies this`gcTasks, stateful`perUpstream
      ensures View() == Collected(old(View())) && Settled(View())
      ensures Bound(old(View())) ==> Bound(View())
      ensures stateful.perUpstream.Keys == StateKeys(runtime.config.models)
      ensures P.Play(Alone(old(View())), run) == Some(Alone(View()))
    {
      hide Settled, Bound, P.Play, StateKeys;
      CollectionSettles(View());
      run := R.WholeCollection(Alone(View()));
      gcTasks := gcTasks - 1;
      var _ := stateful.RetainForConfig(runtime.config);
    }
  }

  lemma AllCanBuild(
    config: RuntimeConfig, before: map<string, UpstreamState>, slots: map<string, UpstreamState>, env: Env, prev: map<string, BuiltProvider>)
    requires Ensured(before, slots, config)
    ensures forall i :: 0 <= i < |config.models| ==> CanBuild(config, slots, env, prev, config.models[i])
  {
    hide Reuses, Inputs;
    forall i | 0 <= i < |config.models| ensures CanBuild(config, slots, env, prev, config.models[i]) {
      assert EnsuredOne(before, slots, config.models[i], config.breaker);
    }
  }

  /** The objects a reload made, as the supplies of a run that ends where the reload ends. */
  lemma ReloadRun(
    before: App, after: App, c: RuntimeConfig, env: Env, installed: map<string, TokenBucket>,
    slots: seq<UpstreamState>, providers: seq<Provider>, buckets: seq<Option<TokenBucket>>) returns (run: seq<P.Action>)
    requires IsReload(before, after, c, env, installed) && Sound(c)
    requires |slots| == |c.models| == |providers| && |buckets| == |c.keys|
    requires AllUsable(before.slots, c, 0, slots) && after.slots == EnsureAll(before.slots, c, 0, slots)
    requires MadeFrom(c, after.slots, env, before.lastBuilt, after.lastBuilt, providers)
    requires AllBucketsUsable(before.buckets, c.keys, 0, buckets) && installed == InstallAll(before.buckets, c.keys, 0, buckets)
    ensures P.Play(Alone(before), run) == Some(Alone(after))
  {
    hide AllUsable, EnsureAll, AllOffered, BuildAll, AllBucketsUsable, InstallAll, Ensured, BuiltFrom, Installed, P.Play, Sound;
    run := R.WholeReload(Alone(before), c, env, slots, providers, buckets);
  }
}
