/** The plugin manager: three registries (permanent, temporary, system), the
    registration of plugin types into them, and the dispatch of an event to
    the steps registered on its operation and stage. */
module Plugins {
  import opened Wrappers
  import opened Xrm
  import opened Contexts
  import opened Triggers
  import opened Registries

  /* ---------------------------------------------------------------------
     Registration
     --------------------------------------------------------------------- */

  /** Hint of the error for a plugin without step configurations that the
      platform does not know either. */
  const RegistrationHint: string :=
    "', please use DAXIF registration or make sure the plugin is uploaded to CRM."

  /** Hint of the error for an additional plugin without step configurations. */
  const AdditionalRegistrationHint: string :=
    "', please use the MockPlugin to register your plugin."

  function UnknownPluginMessage(fullName: string, hint: string): string
  {
    "Unknown plugin '" + fullName + hint
  }

  /** `plugins.FirstOrDefault(x => x.AssemblyName == fullName)`. */
  function FirstMatching(plugins: seq<MetaPlugin>, fullName: string): (r: Option<MetaPlugin>)
    ensures r.None? <==> forall p :: p in plugins ==> p.assemblyName != fullName
    ensures r.Some? ==> r.value.assemblyName == fullName
    ensures r.Some? ==> exists i :: 0 <= i < |plugins| && plugins[i] == r.value
                                    && forall j :: 0 <= j < i ==> plugins[j].assemblyName != fullName
    decreases |plugins|
  {
    if plugins == [] then None
    else if plugins[0].assemblyName == fullName then
      assert plugins[0] == plugins[0];
      Some(plugins[0])
    else
      var r := FirstMatching(plugins[1..], fullName);
      assert plugins == [plugins[0]] + plugins[1..];
      assert r.Some? ==> exists i :: 1 <= i < |plugins| && plugins[i] == r.value
                                     && forall j :: 0 <= j < i ==> plugins[j].assemblyName != fullName by {
        if r.Some? {
          var i :| 0 <= i < |plugins[1..]| && plugins[1..][i] == r.value
                   && forall j :: 0 <= j < i ==> plugins[1..][j].assemblyName != fullName;
          assert plugins[i + 1] == r.value;
        }
      }
      r
  }

  /** The step configuration built from a platform step registration:
      deployment 0, the empty user context, no images. */
  function MetaStepConfig(p: MetaPlugin): StepConfig
  {
    StepConfig(
      StepSubscription(p.assemblyName, p.stage, p.messageName, p.primaryEntity),
      StepDeployment(0, p.mode, p.name, p.rank, p.filteredAttributes, EmptyGuidText, p.assemblyIsolationMode),
      [])
  }

  /** The step configurations a plugin type registers: its own when it
      declares them, otherwise the one built from the first platform step
      registration of the same assembly name, otherwise an error. */
  function StepConfigsOf(pluginType: PluginType, plugins: seq<MetaPlugin>): (r: Result<seq<StepConfig>, Error>)
    ensures pluginType.stepConfigs.Some? ==> r == Success(pluginType.stepConfigs.value)
    ensures r.Failure? <==>
              pluginType.stepConfigs.None? && forall p :: p in plugins ==> p.assemblyName != pluginType.fullName
    ensures r.Failure? ==> r.error == UnknownPlugin(UnknownPluginMessage(pluginType.fullName, RegistrationHint))
    ensures pluginType.stepConfigs.None? && r.Success? ==>
              && FirstMatching(plugins, pluginType.fullName).Some?
              && var p := FirstMatching(plugins, pluginType.fullName).value;
                 && |r.value| == 1
                 && r.value[0].subscription.className == pluginType.fullName
                 && r.value[0].subscription
                    == StepSubscription(p.assemblyName, p.stage, p.messageName, p.primaryEntity)
                 && r.value[0].deployment
                    == StepDeployment(0, p.mode, p.name, p.rank, p.filteredAttributes, EmptyGuidText,
                                      p.assemblyIsolationMode)
                 && r.value[0].images == []
  {
    if pluginType.stepConfigs.Some? then Success(pluginType.stepConfigs.value)
    else
      match FirstMatching(plugins, pluginType.fullName)
      case None => Failure(UnknownPlugin(UnknownPluginMessage(pluginType.fullName, RegistrationHint)))
      case Some(p) => Success([MetaStepConfig(p)])
  }

  /** One trigger per step configuration, in order, each running `handler`. */
  function TriggersOf(stepConfigs: seq<StepConfig>, handler: HandlerId, metadata: Metadata): seq<PluginTrigger>
  {
    seq(|stepConfigs|, i requires 0 <= i < |stepConfigs| =>
      NewTrigger(stepConfigs[i].subscription.eventOperation, stepConfigs[i].subscription.executionStage,
                 handler, stepConfigs[i], metadata))
  }

  /** The triggers `RegisterPlugin` adds for one plugin type, or its error. */
  function Registration(pluginType: PluginType, metadata: Metadata, plugins: seq<MetaPlugin>)
    : Result<seq<PluginTrigger>, Error>
  {
    match StepConfigsOf(pluginType, plugins)
    case Failure(e) => Failure(e)
    case Success(configs) => Success(TriggersOf(configs, pluginType.fullName, metadata))
  }

  function Prepended(ts: seq<PluginTrigger>, r: Result<seq<PluginTrigger>, Error>): Result<seq<PluginTrigger>, Error>
  {
    if r.Failure? then r else Success(ts + r.value)
  }

  /** The triggers registered for a list of plugin types, in order; the first
      plugin type that cannot be registered makes the whole registration fail. */
  function AllRegistrations(types: seq<PluginType>, metadata: Metadata, plugins: seq<MetaPlugin>)
    : Result<seq<PluginTrigger>, Error>
    decreases |types|
  {
    if types == [] then Success([])
    else
      match Registration(types[0], metadata, plugins)
      case Failure(e) => Failure(e)
      case Success(ts) => Prepended(ts, AllRegistrations(types[1..], metadata, plugins))
  }

  lemma AllRegistrationsStep(types: seq<PluginType>, i: nat, metadata: Metadata, plugins: seq<MetaPlugin>)
    requires i < |types|
    ensures Registration(types[i], metadata, plugins).Failure? ==>
              AllRegistrations(types[i..], metadata, plugins) == Failure(Registration(types[i], metadata, plugins).error)
    ensures Registration(types[i], metadata, plugins).Success? ==>
              AllRegistrations(types[i..], metadata, plugins)
              == Prepended(Registration(types[i], metadata, plugins).value, AllRegistrations(types[i + 1..], metadata, plugins))
  {
    assert types[i..][0] == types[i] && types[i..][1..] == types[i + 1..];
  }

  lemma PrependedAppend(xs: seq<PluginTrigger>, ys: seq<PluginTrigger>, r: Result<seq<PluginTrigger>, Error>)
    ensures Prepended(xs, Prepended(ys, r)) == Prepended(xs + ys, r)
  {
    if r.Success? {
      assert xs + (ys + r.value) == (xs + ys) + r.value;
    }
  }

  /** Registration fails exactly when some plugin type neither declares step
      configurations nor is known to the platform, and the error names the
      first such type; otherwise every trigger runs one of the given types. */
  lemma {:induction false} RegistrationOutcome(types: seq<PluginType>, metadata: Metadata, plugins: seq<MetaPlugin>)
    ensures AllRegistrations(types, metadata, plugins).Failure? <==>
              exists i :: 0 <= i < |types| && StepConfigsOf(types[i], plugins).Failure?
    ensures AllRegistrations(types, metadata, plugins).Failure? ==>
              exists i :: 0 <= i < |types| && StepConfigsOf(types[i], plugins).Failure?
                          && AllRegistrations(types, metadata, plugins).error
                             == UnknownPlugin(UnknownPluginMessage(types[i].fullName, RegistrationHint))
                          && forall j :: 0 <= j < i ==> StepConfigsOf(types[j], plugins).Success?
    ensures AllRegistrations(types, metadata, plugins).Success? ==>
              forall t :: t in AllRegistrations(types, metadata, plugins).value ==>
                exists ty :: ty in types && t.pluginExecute == ty.fullName
    decreases |types|
  {
    if types != [] {
      RegistrationOutcome(types[1..], metadata, plugins);
      var head := StepConfigsOf(types[0], plugins);
      var rest := AllRegistrations(types[1..], metadata, plugins);
      if head.Failure? {
        assert AllRegistrations(types, metadata, plugins) == Failure(head.error);
      } else {
        var ts := TriggersOf(head.value, types[0].fullName, metadata);
        assert AllRegistrations(types, metadata, plugins) == Prepended(ts, rest);
        if rest.Failure? {
          var i :| 0 <= i < |types[1..]| && StepConfigsOf(types[1..][i], plugins).Failure?
                   && rest.error == UnknownPlugin(UnknownPluginMessage(types[1..][i].fullName, RegistrationHint))
                   && forall j :: 0 <= j < i ==> StepConfigsOf(types[1..][j], plugins).Success?;
          assert types[i + 1] == types[1..][i];
          assert forall j :: 1 <= j < i + 1 ==> types[j] == types[1..][j - 1];
        } else {
          forall i | 0 <= i < |types|
            ensures StepConfigsOf(types[i], plugins).Success?
          {
            if i > 0 {
              assert types[i] == types[1..][i - 1];
            }
          }
          forall t | t in ts + rest.value
            ensures exists ty :: ty in types && t.pluginExecute == ty.fullName
          {
            if t in ts {
              var k :| 0 <= k < |ts| && ts[k] == t;
              assert t.pluginExecute == types[0].fullName;
            } else {
              var ty :| ty in types[1..] && t.pluginExecute == ty.fullName;
              assert ty in types;
            }
          }
        }
      }
    }
  }

  /** A system plugin: its name and the step configurations it declares. */
  datatype SystemPlugin = SystemPlugin(name: HandlerId, stepConfigs: seq<StepConfig>)

  /** The triggers the system-plugin registration adds. The configuration
      list is shared across the loop: plugin k registers the configurations
      of plugins 0..k, all running plugin k. */
  function SystemTriggers(ps: seq<SystemPlugin>, accumulated: seq<StepConfig>): seq<PluginTrigger>
    decreases |ps|
  {
    if ps == [] then []
    else
      var configs := accumulated + ps[0].stepConfigs;
      TriggersOf(configs, ps[0].name, map[]) + SystemTriggers(ps[1..], configs)
  }

  lemma SystemTriggersStep(ps: seq<SystemPlugin>, k: nat, accumulated: seq<StepConfig>, done: seq<PluginTrigger>)
    requires k < |ps|
    requires SystemTriggers(ps, []) == done + SystemTriggers(ps[k..], accumulated)
    ensures SystemTriggers(ps, [])
            == (done + TriggersOf(accumulated + ps[k].stepConfigs, ps[k].name, map[]))
               + SystemTriggers(ps[k + 1..], accumulated + ps[k].stepConfigs)
  {
    assert ps[k..][0] == ps[k] && ps[k..][1..] == ps[k + 1..];
    var ts := TriggersOf(accumulated + ps[k].stepConfigs, ps[k].name, map[]);
    var rest := SystemTriggers(ps[k + 1..], accumulated + ps[k].stepConfigs);
    assert done + (ts + rest) == (done + ts) + rest;
  }

  /** With two system plugins, the first one's configuration is registered
      twice: once for itself and once more running the second plugin. */
  lemma SystemConfigsAccumulate(first: SystemPlugin, second: SystemPlugin, c1: StepConfig, c2: StepConfig)
    requires first.stepConfigs == [c1] && second.stepConfigs == [c2]
    ensures var ts := SystemTriggers([first, second], []);
            && |ts| == 3
            && ts[0] == NewTrigger(c1.subscription.eventOperation, c1.subscription.executionStage, first.name, c1, map[])
            && ts[1] == NewTrigger(c1.subscription.eventOperation, c1.subscription.executionStage, second.name, c1, map[])
            && ts[2] == NewTrigger(c2.subscription.eventOperation, c2.subscription.executionStage, second.name, c2, map[])
  {
    assert [first, second][1..] == [second];
    assert [] + [c1] == [c1] && [c1] + [c2] == [c1, c2];
    assert SystemTriggers([first, second], []) == TriggersOf([c1], first.name, map[]) + SystemTriggers([second], [c1]);
    assert SystemTriggers([second], [c1]) == TriggersOf([c1, c2], second.name, map[]) + SystemTriggers([], [c1, c2]);
  }

  /** Adding a concatenation is adding one list, then the other. */
  lemma {:induction false} AddAllAppend(b: Buckets, xs: seq<PluginTrigger>, ys: seq<PluginTrigger>)
    ensures AddAll(b, xs + ys) == AddAll(AddAll(b, xs), ys)
    decreases |xs|
  {
    if xs != [] {
      assert (xs + ys)[0] == xs[0];
      assert (xs + ys)[1..] == xs[1..] + ys;
      AddAllAppend(Added(b, xs[0].operation, xs[0].stage, xs[0]), xs[1..], ys);
    } else {
      assert xs + ys == ys;
    }
  }

  /* ---------------------------------------------------------------------
     Dispatch
     --------------------------------------------------------------------- */

  /** What offering an event to a list of steps did: the exception that ended
      the pass (if any), the target as the steps left it, the parent's shared
      variables, and the steps whose plugin was called. */
  datatype Pass = Pass(error: Option<Error>, stamped: Target, shared: map<string, Value>, ran: seq<PluginTrigger>)

  /** What offering the event to one step does, given the target as the
      steps before left it and the parent context. */
  type Offer = (PluginTrigger, Target, ContextView) -> Step

  /** `ExecuteIfMatch` with the event's images and the plugin runner fixed. */
  function OfferEvent(preImage: Option<Entity>, postImage: Option<Entity>, execute: Handler): Offer
  {
    (t: PluginTrigger, target: Target, parent: ContextView) => t.Decide(target, preImage, postImage, parent, execute)
  }

  /** `list.ForEach(p => p.ExecuteIfMatch(...))`: the steps in list order;
      the first exception ends the pass; a plugin that returns writes its
      shared variables back before the next step. */
  function RunPass(ts: seq<PluginTrigger>, target: Target, parent: ContextView, offer: Offer): Pass
    decreases |ts|
  {
    if ts == [] then Pass(None, target, parent.sharedVariables, [])
    else
      var step := offer(ts[0], target, parent);
      match step.outcome
      case Skipped => RunPass(ts[1..], step.stamped, parent, offer)
      case Rejected(e) => Pass(Some(e), step.stamped, parent.sharedVariables, [])
      case Invoked(_, reply) =>
        if reply.Failure? then Pass(Some(HandlerFault(reply.error)), step.stamped, parent.sharedVariables, [ts[0]])
        else
          var rest := RunPass(ts[1..], step.stamped,
                              parent.(sharedVariables := Merged(parent.sharedVariables, reply.value)), offer);
          rest.(ran := [ts[0]] + rest.ran)
  }

  /** A pass preceded by steps that already ran. */
  function Continued(ran: seq<PluginTrigger>, p: Pass): Pass
  {
    p.(ran := ran + p.ran)
  }

  /** What a second list does after a first pass: nothing when the first
      pass threw, otherwise a pass from where the first left the target and
      the shared variables. */
  function Then(first: Pass, ts: seq<PluginTrigger>, parent: ContextView, offer: Offer): Pass
  {
    if first.error.Some? then first
    else Continued(first.ran, RunPass(ts, first.stamped, parent.(sharedVariables := first.shared), offer))
  }

  /** Running two lists one after the other is running their concatenation. */
  lemma {:induction false} RunPassAppend(xs: seq<PluginTrigger>, ys: seq<PluginTrigger>, target: Target,
                                         parent: ContextView, offer: Offer)
    ensures RunPass(xs + ys, target, parent, offer) == Then(RunPass(xs, target, parent, offer), ys, parent, offer)
    decreases |xs|
  {
    if xs == [] {
      assert xs + ys == ys;
      assert parent.(sharedVariables := parent.sharedVariables) == parent;
    } else {
      assert (xs + ys)[0] == xs[0];
      assert (xs + ys)[1..] == xs[1..] + ys;
      var step := offer(xs[0], target, parent);
      match step.outcome
      case Skipped =>
        RunPassAppend(xs[1..], ys, step.stamped, parent, offer);
      case Rejected(e) =>
      case Invoked(_, reply) =>
        if reply.Success? {
          var merged := parent.(sharedVariables := Merged(parent.sharedVariables, reply.value));
          RunPassAppend(xs[1..], ys, step.stamped, merged, offer);
          var first := RunPass(xs[1..], step.stamped, merged, offer);
          if first.error.None? {
            assert merged.(sharedVariables := first.shared) == parent.(sharedVariables := first.shared);
          }
        }
    }
  }

  /** The steps whose plugin was called are steps of the list, each called
      at most as often as it occurs in the list. */
  lemma {:induction false} RanFromList(ts: seq<PluginTrigger>, target: Target, parent: ContextView, offer: Offer)
    ensures var p := RunPass(ts, target, parent, offer);
            && |p.ran| <= |ts|
            && multiset(p.ran) <= multiset(ts)
            && (forall t :: t in p.ran ==> t in ts)
    decreases |ts|
  {
    if ts != [] {
      var step := offer(ts[0], target, parent);
      assert ts == [ts[0]] + ts[1..];
      assert multiset(ts) == multiset{ts[0]} + multiset(ts[1..]);
      match step.outcome
      case Skipped =>
        RanFromList(ts[1..], step.stamped, parent, offer);
      case Rejected(e) =>
      case Invoked(_, reply) =>
        if reply.Success? {
          var merged := parent.(sharedVariables := Merged(parent.sharedVariables, reply.value));
          RanFromList(ts[1..], step.stamped, merged, offer);
          var rest := RunPass(ts[1..], step.stamped, merged, offer);
          assert multiset([ts[0]] + rest.ran) == multiset{ts[0]} + multiset(rest.ran);
        }
    }
  }

  /** On a list sorted by execution order, the plugins are called in
      execution order. */
  lemma {:induction false} RanInListOrder(ts: seq<PluginTrigger>, target: Target, parent: ContextView, offer: Offer)
    requires SortedByOrder(ts)
    ensures SortedByOrder(RunPass(ts, target, parent, offer).ran)
    decreases |ts|
  {
    if ts != [] {
      var step := offer(ts[0], target, parent);
      assert SortedByOrder(ts[1..]);
      match step.outcome
      case Skipped =>
        RanInListOrder(ts[1..], step.stamped, parent, offer);
      case Rejected(e) =>
      case Invoked(_, reply) =>
        if reply.Success? {
          var merged := parent.(sharedVariables := Merged(parent.sharedVariables, reply.value));
          RanInListOrder(ts[1..], step.stamped, merged, offer);
          RanFromList(ts[1..], step.stamped, merged, offer);
          var rest := RunPass(ts[1..], step.stamped, merged, offer);
          assert forall t :: t in ts[1..] ==> ts[0].order <= t.order;
          SortedCons(ts[0], rest.ran);
        }
    }
  }

  /** The primary-id stamp never changes which record the target names. */
  lemma {:induction false} StampedTargetKeepsIdentity(ts: seq<PluginTrigger>, target: Target,
                                                      preImage: Option<Entity>, postImage: Option<Entity>,
                                                      parent: ContextView, execute: Handler)
    ensures var p := RunPass(ts, target, parent, OfferEvent(preImage, postImage, execute));
            TargetName(p.stamped) == TargetName(target) && TargetId(p.stamped) == TargetId(target)
    decreases |ts|
  {
    if ts != [] {
      var offer := OfferEvent(preImage, postImage, execute);
      var step := ts[0].Decide(target, preImage, postImage, parent, execute);
      assert offer(ts[0], target, parent) == step;
      assert TargetName(step.stamped) == TargetName(target) && TargetId(step.stamped) == TargetId(target);
      match step.outcome
      case Skipped =>
        StampedTargetKeepsIdentity(ts[1..], step.stamped, preImage, postImage, parent, execute);
      case Rejected(e) =>
      case Invoked(_, reply) =>
        if reply.Success? {
          var merged := parent.(sharedVariables := Merged(parent.sharedVariables, reply.value));
          StampedTargetKeepsIdentity(ts[1..], step.stamped, preImage, postImage, merged, execute);
        }
    }
  }

  /** Past the depth ceiling no plugin is called: the first step for the
      target's entity throws the infinite-loop fault, and a list with no such
      step passes without effect. */
  lemma {:induction false} DeepContextRunsNothing(ts: seq<PluginTrigger>, target: Target,
                                                  preImage: Option<Entity>, postImage: Option<Entity>,
                                                  parent: ContextView, execute: Handler)
    requires parent.depth > MaxDepth
    ensures var p := RunPass(ts, target, parent, OfferEvent(preImage, postImage, execute));
            && p.ran == []
            && p.shared == parent.sharedVariables
            && (p.error.None? <==> forall t :: t in ts ==> !t.NameMatches(TargetName(target)))
            && (p.error.Some? ==> p.error == Some(InfiniteLoopFault(InfiniteLoopMessage)))
    decreases |ts|
  {
    if ts != [] {
      var offer := OfferEvent(preImage, postImage, execute);
      var step := ts[0].Decide(target, preImage, postImage, parent, execute);
      assert offer(ts[0], target, parent) == step;
      assert ts == [ts[0]] + ts[1..];
      if !ts[0].NameMatches(TargetName(target)) {
        assert step == Step(target, Skipped);
        DeepContextRunsNothing(ts[1..], target, preImage, postImage, parent, execute);
      } else {
        assert step.outcome == Rejected(InfiniteLoopFault(InfiniteLoopMessage));
      }
    }
  }

  /** Offers an event to a bucket, step by step, as `ForEach` does. */
  method RunBucket(bucket: seq<PluginTrigger>, entity: Target, preImage: Option<Entity>, postImage: Option<Entity>,
                   pluginContext: PluginContext, execute: Handler)
    returns (error: Option<Error>, stamped: Target, ran: seq<PluginTrigger>)
    modifies pluginContext
    ensures Pass(error, stamped, pluginContext.sharedVariables, ran)
            == RunPass(bucket, entity, old(pluginContext.View()), OfferEvent(preImage, postImage, execute))
    ensures pluginContext.View() == old(pluginContext.View()).(sharedVariables := pluginContext.sharedVariables)
  {
    ghost var offer := OfferEvent(preImage, postImage, execute);
    error, stamped, ran := None, entity, [];
    var i := 0;
    while i < |bucket|
      invariant 0 <= i <= |bucket|
      invariant pluginContext.View() == old(pluginContext.View()).(sharedVariables := pluginContext.sharedVariables)
      invariant RunPass(bucket, entity, old(pluginContext.View()), offer)
                == Continued(ran, RunPass(bucket[i..], stamped, pluginContext.View(), offer))
      decreases |bucket| - i
    {
      ghost var view := pluginContext.View();
      ghost var before := stamped;
      assert bucket[i..][0] == bucket[i] && bucket[i..][1..] == bucket[i + 1..];
      var outcome;
      outcome, stamped := bucket[i].ExecuteIfMatch(stamped, preImage, postImage, pluginContext, execute);
      assert offer(bucket[i], before, view) == Step(stamped, outcome);
      if outcome.Rejected? {
        error := Some(outcome.error);
        return;
      }
      if outcome.Invoked? {
        ran := ran + [bucket[i]];
        if outcome.reply.Failure? {
          error := Some(HandlerFault(outcome.reply.error));
          return;
        }
        assert pluginContext.View() == view.(sharedVariables := Merged(view.sharedVariables, outcome.reply.value));
      }
      i := i + 1;
    }
    assert bucket[i..] == [];
  }

  /** Offers an event to one bucket, then, unless that threw, to another. */
  method RunBuckets(first: seq<PluginTrigger>, second: seq<PluginTrigger>, entity: Target,
                    preImage: Option<Entity>, postImage: Option<Entity>, pluginContext: PluginContext, execute: Handler)
    returns (error: Option<Error>, stamped: Target, ran: seq<PluginTrigger>)
    modifies pluginContext
    ensures Pass(error, stamped, pluginContext.sharedVariables, ran)
            == RunPass(first + second, entity, old(pluginContext.View()), OfferEvent(preImage, postImage, execute))
    ensures pluginContext.View() == old(pluginContext.View()).(sharedVariables := pluginContext.sharedVariables)
  {
    RunPassAppend(first, second, entity, pluginContext.View(), OfferEvent(preImage, postImage, execute));
    error, stamped, ran := RunBucket(first, entity, preImage, postImage, pluginContext, execute);
    if error.Some? {
      return;
    }
    var ranSecond;
    error, stamped, ranSecond := RunBucket(second, stamped, preImage, postImage, pluginContext, execute);
    ran := ran + ranSecond;
  }

  /* ---------------------------------------------------------------------
     The manager
     --------------------------------------------------------------------- */

  /** The contents of the three registries and the disable flag. */
  datatype ManagerState = ManagerState(registered: Buckets, temporary: Buckets, system: Buckets, disabled: bool)

  /** The steps `Trigger` offers an event to, in order: the permanent ones
      unless they are disabled, then the temporary ones. */
  function Active(s: ManagerState, op: EventOperation, st: ExecutionStage): seq<PluginTrigger>
  {
    (if s.disabled then [] else Bucket(s.registered, op, st)) + Bucket(s.temporary, op, st)
  }

  /** The state after `ResetPlugins`: no temporary steps, nothing disabled. */
  function Reset(s: ManagerState): ManagerState
  {
    s.(temporary := map[], disabled := false)
  }

  /** Resetting twice is resetting once, and a reset keeps the permanent and
      system registries. */
  lemma ResetIdempotent(s: ManagerState)
    ensures Reset(Reset(s)) == Reset(s)
    ensures Reset(s).registered == s.registered && Reset(s).system == s.system
  {
  }

  class PluginManager {
    var registeredPlugins: Registry
    var temporaryPlugins: Registry
    var registeredSystemPlugins: Registry
    var disableRegisteredPlugins: bool
    var systemPlugins: seq<SystemPlugin>

    /** The three registries are distinct objects. */
    ghost predicate Valid()
      reads this
    {
      && registeredPlugins != temporaryPlugins
      && registeredPlugins != registeredSystemPlugins
      && temporaryPlugins != registeredSystemPlugins
    }

    function State(): ManagerState
      reads this, registeredPlugins, temporaryPlugins, registeredSystemPlugins
    {
      ManagerState(registeredPlugins.buckets, temporaryPlugins.buckets, registeredSystemPlugins.buckets,
                   disableRegisteredPlugins)
    }

    /** Three empty registries, nothing disabled, no system plugins. */
    constructor Empty()
      ensures Valid()
      ensures State() == ManagerState(map[], map[], map[], false)
      ensures systemPlugins == []
      ensures fresh(registeredPlugins) && fresh(temporaryPlugins) && fresh(registeredSystemPlugins)
    {
      registeredPlugins := new Registry();
      temporaryPlugins := new Registry();
      registeredSystemPlugins := new Registry();
      disableRegisteredPlugins := false;
      systemPlugins := [];
    }

    /** The constructor: registers the plugin types into the permanent
        registry and the system plugins into the system registry, each sorted.
        An unknown plugin type makes construction throw. */
    static method Create(basePluginTypes: seq<PluginType>, metadata: Metadata, plugins: seq<MetaPlugin>)
      returns (r: Result<PluginManager, Error>)
      ensures AllRegistrations(basePluginTypes, metadata, plugins).Failure? ==>
                r == Failure(AllRegistrations(basePluginTypes, metadata, plugins).error)
      ensures AllRegistrations(basePluginTypes, metadata, plugins).Success? ==>
                && r.Success?
                && fresh(r.value) && fresh(r.value.registeredPlugins) && fresh(r.value.temporaryPlugins)
                && fresh(r.value.registeredSystemPlugins)
                && r.value.Valid()
                && SortedVersionOf(r.value.registeredPlugins.buckets,
                                   AddAll(map[], AllRegistrations(basePluginTypes, metadata, plugins).value))
                && r.value.temporaryPlugins.buckets == map[]
                && r.value.registeredSystemPlugins.buckets == map[]
                && !r.value.disableRegisteredPlugins
    {
      var m := new PluginManager.Empty();
      var error := m.RegisterPlugins(basePluginTypes, metadata, plugins, m.registeredPlugins);
      if error.Some? {
        return Failure(error.value);
      }
      m.RegisterSystemPlugins(m.registeredSystemPlugins);
      assert m.registeredSystemPlugins.buckets.Keys == {};
      return Success(m);
    }

    /** Registers the given plugin types, in order, then sorts every bucket. */
    method RegisterPlugins(basePluginTypes: seq<PluginType>, metadata: Metadata, plugins: seq<MetaPlugin>,
                           register: Registry)
      returns (error: Option<Error>)
      modifies register
      ensures AllRegistrations(basePluginTypes, metadata, plugins).Failure? ==>
                error == Some(AllRegistrations(basePluginTypes, metadata, plugins).error)
      ensures AllRegistrations(basePluginTypes, metadata, plugins).Success? ==>
                && error.None?
                && SortedVersionOf(register.buckets,
                                   AddAll(old(register.buckets), AllRegistrations(basePluginTypes, metadata, plugins).value))
    {
      error := None;
      ghost var done: seq<PluginTrigger> := [];
      assert basePluginTypes[0..] == basePluginTypes;
      assert AllRegistrations(basePluginTypes, metadata, plugins).Success? ==>
               [] + AllRegistrations(basePluginTypes, metadata, plugins).value
               == AllRegistrations(basePluginTypes, metadata, plugins).value;
      for i := 0 to |basePluginTypes|
        invariant error.None?
        invariant register.buckets == AddAll(old(register.buckets), done)
        invariant AllRegistrations(basePluginTypes, metadata, plugins)
                  == Prepended(done, AllRegistrations(basePluginTypes[i..], metadata, plugins))
      {
        AllRegistrationsStep(basePluginTypes, i, metadata, plugins);
        error := RegisterPlugin(basePluginTypes[i], metadata, plugins, register);
        if error.Some? {
          return;
        }
        ghost var ts := Registration(basePluginTypes[i], metadata, plugins).value;
        AddAllAppend(old(register.buckets), done, ts);
        PrependedAppend(done, ts, AllRegistrations(basePluginTypes[i + 1..], metadata, plugins));
        done := done + ts;
      }
      assert basePluginTypes[|basePluginTypes|..] == [];
      assert AllRegistrations(basePluginTypes, metadata, plugins) == Success(done + []);
      assert done + [] == done;
      SortAllLists(register);
    }

    /** Adds the triggers of one plugin type to `register`, unsorted. */
    method RegisterPlugin(basePluginType: PluginType, metadata: Metadata, plugins: seq<MetaPlugin>, register: Registry)
      returns (error: Option<Error>)
      modifies register
      ensures Registration(basePluginType, metadata, plugins).Failure? ==>
                && error == Some(Registration(basePluginType, metadata, plugins).error)
                && register.buckets == old(register.buckets)
      ensures Registration(basePluginType, metadata, plugins).Success? ==>
                && error.None?
                && register.buckets == AddAll(old(register.buckets), Registration(basePluginType, metadata, plugins).value)
    {
      var stepConfigs: seq<StepConfig>;
      if basePluginType.stepConfigs.Some? {
        stepConfigs := basePluginType.stepConfigs.value;
      } else {
        var metaPlugin := FirstMatching(plugins, basePluginType.fullName);
        if metaPlugin.None? {
          return Some(UnknownPlugin(UnknownPluginMessage(basePluginType.fullName, RegistrationHint)));
        }
        stepConfigs := [MetaStepConfig(metaPlugin.value)];
      }
      AddConfigs(stepConfigs, basePluginType.fullName, metadata, register);
      error := None;
    }

    /** The `foreach (var stepConfig in stepConfigs)` loop: one trigger per
        configuration, added in order. */
    method AddConfigs(stepConfigs: seq<StepConfig>, pluginExecute: HandlerId, metadata: Metadata, register: Registry)
      modifies register
      ensures register.buckets == AddAll(old(register.buckets), TriggersOf(stepConfigs, pluginExecute, metadata))
    {
      ghost var ts := TriggersOf(stepConfigs, pluginExecute, metadata);
      for i := 0 to |stepConfigs|
        invariant AddAll(old(register.buckets), ts) == AddAll(register.buckets, ts[i..])
      {
        var stepConfig := stepConfigs[i];
        var operation := stepConfig.subscription.eventOperation;
        var stage := stepConfig.subscription.executionStage;
        var trigger := NewTrigger(operation, stage, pluginExecute, stepConfig, metadata);
        assert ts[i..] == [trigger] + ts[i + 1..];
        AddTrigger(operation, stage, trigger, register);
      }
      assert ts[|stepConfigs|..] == [];
    }

    /** Registers the system plugins, as written: the configuration list
        grows across plugins, so each plugin re-registers the configurations
        of those before it. Then sorts every bucket. */
    method RegisterSystemPlugins(register: Registry)
      modifies register
      ensures SortedVersionOf(register.buckets, AddAll(old(register.buckets), SystemTriggers(systemPlugins, [])))
    {
      AddSystemConfigs(systemPlugins, register);
      SortAllLists(register);
    }

    /** The `foreach (var plugin in systemPlugins)` loop of the system
        registration, before sorting. */
    method AddSystemConfigs(ps: seq<SystemPlugin>, register: Registry)
      modifies register
      ensures register.buckets == AddAll(old(register.buckets), SystemTriggers(ps, []))
    {
      var stepConfigs: seq<StepConfig> := [];
      ghost var done: seq<PluginTrigger> := [];
      assert ps[0..] == ps;
      assert [] + SystemTriggers(ps, []) == SystemTriggers(ps, []);
      for k := 0 to |ps|
        invariant register.buckets == AddAll(old(register.buckets), done)
        invariant SystemTriggers(ps, []) == done + SystemTriggers(ps[k..], stepConfigs)
      {
        var plugin := ps[k];
        SystemTriggersStep(ps, k, stepConfigs, done);
        stepConfigs := stepConfigs + plugin.stepConfigs;
        AddConfigs(stepConfigs, plugin.name, map[], register);
        ghost var ts := TriggersOf(stepConfigs, plugin.name, map[]);
        AddAllAppend(old(register.buckets), done, ts);
        done := done + ts;
      }
      assert ps[|ps|..] == [];
      assert done + [] == done;
    }

    /** Appends `trigger` to the bucket of (operation, stage), creating the
        bucket first when it is missing. */
    method AddTrigger(operation: EventOperation, stage: ExecutionStage, trigger: PluginTrigger, register: Registry)
      modifies register
      ensures register.buckets == Added(old(register.buckets), operation, stage, trigger)
    {
      ghost var before := register.buckets;
      ghost var stages := if operation in before then before[operation] else map[];
      if operation !in register.buckets {
        register.buckets := register.buckets[operation := map[]];
      }
      ghost var created := register.buckets[operation];
      if stage !in register.buckets[operation] {
        register.buckets := register.buckets[operation := register.buckets[operation][stage := []]];
      }
      var list := register.buckets[operation][stage];
      assert list == Bucket(before, operation, stage);
      register.buckets := register.buckets[operation := register.buckets[operation][stage := list + [trigger]]];
      assert register.buckets[operation] == stages[stage := list + [trigger]];
      assert register.buckets == before[operation := stages[stage := list + [trigger]]];
    }

    /** Sorts every bucket of `plugins` by execution order. */
    method SortAllLists(plugins: Registry)
      modifies plugins
      ensures SortedVersionOf(plugins.buckets, old(plugins.buckets))
    {
      var todo := plugins.buckets.Keys;
      while todo != {}
        invariant todo <= plugins.buckets.Keys
        invariant plugins.buckets.Keys == old(plugins.buckets).Keys
        invariant forall op :: op in plugins.buckets ==> plugins.buckets[op].Keys == old(plugins.buckets)[op].Keys
        invariant forall op :: op in todo ==> plugins.buckets[op] == old(plugins.buckets)[op]
        invariant forall op, st :: op !in todo && HasBucket(plugins.buckets, op, st) ==>
                    && SortedByOrder(plugins.buckets[op][st])
                    && multiset(plugins.buckets[op][st]) == multiset(old(plugins.buckets)[op][st])
        decreases todo
      {
        var op :| op in todo;
        var stages := SortStages(plugins.buckets[op]);
        plugins.buckets := plugins.buckets[op := stages];
        todo := todo - {op};
      }
    }

    /** Drops every temporary step and re-enables the permanent ones. */
    method ResetPlugins()
      requires Valid()
      modifies this
      ensures Valid()
      ensures State() == Reset(old(State()))
      ensures registeredPlugins == old(registeredPlugins) && registeredSystemPlugins == old(registeredSystemPlugins)
      ensures fresh(temporaryPlugins)
      ensures forall op, st :: Active(State(), op, st) == Bucket(registeredPlugins.buckets, op, st)
    {
      disableRegisteredPlugins := false;
      temporaryPlugins := new Registry();
    }

    /** Sets whether the permanent steps are skipped. */
    method DisabelRegisteredPlugins(disable: bool)
      modifies this
      ensures State() == old(State()).(disabled := disable)
      ensures registeredPlugins == old(registeredPlugins) && temporaryPlugins == old(temporaryPlugins)
      ensures registeredSystemPlugins == old(registeredSystemPlugins) && systemPlugins == old(systemPlugins)
      ensures disable ==> forall op, st :: Active(State(), op, st) == Bucket(temporaryPlugins.buckets, op, st)
    {
      disableRegisteredPlugins := disable;
    }

    /** Registers a plugin type that declares its step configurations into
        the registry its scope names, appended without sorting. */
    method RegisterAdditionalPlugin(pluginType: PluginType, metadata: Metadata, plugins: seq<MetaPlugin>,
                                    scope: PluginRegistrationScope)
      returns (error: Option<Error>)
      requires Valid()
      modifies registeredPlugins, temporaryPlugins
      ensures pluginType.stepConfigs.None? ==>
                && error == Some(UnknownPlugin(UnknownPluginMessage(pluginType.fullName, AdditionalRegistrationHint)))
                && State() == old(State())
      ensures pluginType.stepConfigs.Some? && scope == Permanent ==>
                && error.None?
                && State() == old(State()).(registered :=
                     AddAll(old(registeredPlugins.buckets), TriggersOf(pluginType.stepConfigs.value, pluginType.fullName, metadata)))
      ensures pluginType.stepConfigs.Some? && scope == Temporary ==>
                && error.None?
                && State() == old(State()).(temporary :=
                     AddAll(old(temporaryPlugins.buckets), TriggersOf(pluginType.stepConfigs.value, pluginType.fullName, metadata)))
    {
      if pluginType.stepConfigs.None? {
        return Some(UnknownPlugin(UnknownPluginMessage(pluginType.fullName, AdditionalRegistrationHint)));
      }
      if scope == Permanent {
        error := RegisterPlugin(pluginType, metadata, plugins, registeredPlugins);
      } else {
        error := RegisterPlugin(pluginType, metadata, plugins, temporaryPlugins);
      }
    }

    /** Offers an event to the permanent steps of its operation and stage
        (unless disabled), then to the temporary ones. */
    method Trigger(operation: EventOperation, stage: ExecutionStage, entity: Target,
                   preImage: Option<Entity>, postImage: Option<Entity>,
                   pluginContext: PluginContext, execute: Handler)
      returns (error: Option<Error>, stamped: Target, ran: seq<PluginTrigger>)
      modifies pluginContext
      ensures Pass(error, stamped, pluginContext.sharedVariables, ran)
              == RunPass(Active(State(), operation, stage), entity, old(pluginContext.View()),
                         OfferEvent(preImage, postImage, execute))
      ensures pluginContext.View() == old(pluginContext.View()).(sharedVariables := pluginContext.sharedVariables)
    {
      var permanent: seq<PluginTrigger> := [];
      if !disableRegisteredPlugins && operation in registeredPlugins.buckets && stage in registeredPlugins.buckets[operation] {
        permanent := registeredPlugins.buckets[operation][stage];
      }
      var temporary: seq<PluginTrigger> := [];
      if operation in temporaryPlugins.buckets && stage in temporaryPlugins.buckets[operation] {
        temporary := temporaryPlugins.buckets[operation][stage];
      }
      ghost var active := Active(State(), operation, stage);
      assert permanent + temporary == active;
      error, stamped, ran := RunBuckets(permanent, temporary, entity, preImage, postImage, pluginContext, execute);
      assert State() == old(State());
    }

    /** Offers an event to the system steps of its operation and stage; a
        missing bucket is a no-op. */
    method TriggerSystem(operation: EventOperation, stage: ExecutionStage, entity: Target,
                         preImage: Option<Entity>, postImage: Option<Entity>,
                         pluginContext: PluginContext, execute: Handler)
      returns (error: Option<Error>, stamped: Target, ran: seq<PluginTrigger>)
      modifies pluginContext
      ensures Pass(error, stamped, pluginContext.sharedVariables, ran)
              == RunPass(Bucket(registeredSystemPlugins.buckets, operation, stage), entity, old(pluginContext.View()),
                         OfferEvent(preImage, postImage, execute))
      ensures pluginContext.View() == old(pluginContext.View()).(sharedVariables := pluginContext.sharedVariables)
    {
      if operation !in registeredSystemPlugins.buckets {
        return None, entity, [];
      }
      if stage !in registeredSystemPlugins.buckets[operation] {
        return None, entity, [];
      }
      error, stamped, ran := RunBucket(registeredSystemPlugins.buckets[operation][stage], entity, preImage, postImage,
                                       pluginContext, execute);
      assert State() == old(State());
    }
  }
}
