/**
 What a route plan promises, and what follows for the gateway that executes it:
 few plans, exactly the ones that pass the router's checks, all of them on one
 provider when opaque state must be replayed. The checks do not ask whether the
 transport itself carries that state.
 */
module RoutingSafety {
  import opened Wrappers
  import opened Sequences
  import opened Routing
  import G = Gateway
  import GatewaySafety

  // ----- all targets -----

  /** A plan belongs to one of the aliases and serves the request. */
  ghost predicate PlanServes(config: Config, route: Route, request: Request, first: string, aliases: seq<string>,
                             p: RoutePlan) {
    && p.alias in aliases && p.alias in config.models && config.models[p.alias].provider in config.providers
    && p.provider == config.models[p.alias].provider
    && Serves(config, route, request, first, config.models[p.alias], p.transport)
    && p.categories == route.fallbackOn && p.maxTotalAttempts == route.maxTotalAttempts
  }

  /** What the walk promises for the aliases it has seen. */
  ghost predicate WalkSound(config: Config, route: Route, request: Request, first: string, aliases: seq<string>,
                            plans: seq<RoutePlan>, rejected: seq<Rejected>)
  {
    && |plans| + 2 * |rejected| <= 2 * |aliases|
    && |aliases| <= |plans| + |rejected|
    && (forall i :: 0 <= i < |plans| ==> PlanServes(config, route, request, first, aliases, plans[i]))
    && (forall i :: 0 <= i < |plans| ==> plans[i].fallback == (i > 0) && (plans[i].reason == None <==> i == 0))
    && (forall i :: 0 <= i < |rejected| ==> rejected[i].alias in aliases)
  }

  /** Every transport that serves has a plan, and an alias without one has a reason. */
  ghost predicate Decided(config: Config, route: Route, request: Request, first: string, aliases: seq<string>,
                          plans: seq<RoutePlan>, rejected: seq<Rejected>)
  {
    forall i :: 0 <= i < |aliases| ==> DecidedAt(config, route, request, first, aliases[i], plans, rejected)
  }

  ghost predicate DecidedAt(config: Config, route: Route, request: Request, first: string, alias: string,
                            plans: seq<RoutePlan>, rejected: seq<Rejected>)
  {
    && Reached(config, route, request, first, alias, plans, rejected)
    && (HasReason(rejected, alias) <==> forall t :: !Serves(config, route, request, first, config.models[alias], t))
  }

  ghost predicate Reached(config: Config, route: Route, request: Request, first: string, alias: string,
                          plans: seq<RoutePlan>, rejected: seq<Rejected>)
  {
    && alias in config.models && config.models[alias].provider in config.providers
    && (forall t :: Serves(config, route, request, first, config.models[alias], t) ==> HasPlan(plans, alias, t))
    && ((forall t :: !Serves(config, route, request, first, config.models[alias], t)) ==> HasReason(rejected, alias))
  }

  ghost predicate HasPlan(plans: seq<RoutePlan>, alias: string, t: Transport) {
    exists i :: 0 <= i < |plans| && plans[i].alias == alias && plans[i].transport == t
  }

  ghost predicate HasReason(rejected: seq<Rejected>, alias: string) {
    exists i :: 0 <= i < |rejected| && rejected[i].alias == alias
  }

  lemma ServesGrows(config: Config, route: Route, request: Request, first: string, aliases: seq<string>, alias: string,
                    p: RoutePlan)
    requires PlanServes(config, route, request, first, aliases, p)
    ensures PlanServes(config, route, request, first, aliases + [alias], p)
  {
  }

  lemma SoundReject(config: Config, route: Route, request: Request, first: string, aliases: seq<string>, alias: string,
                    plans: seq<RoutePlan>, rejected: seq<Rejected>, reason: Rejection)
    requires WalkSound(config, route, request, first, aliases, plans, rejected)
    ensures WalkSound(config, route, request, first, aliases + [alias], plans, rejected + [Rejected(alias, reason)])
  {
    forall i | 0 <= i < |plans|
      ensures PlanServes(config, route, request, first, aliases + [alias], plans[i])
    {
      ServesGrows(config, route, request, first, aliases, alias, plans[i]);
    }
  }

  lemma SoundAccept(config: Config, route: Route, request: Request, first: string, aliases: seq<string>, alias: string,
                    plans: seq<RoutePlan>, rejected: seq<Rejected>, usable: seq<Transport>)
    requires WalkSound(config, route, request, first, aliases, plans, rejected)
    requires alias in config.models && config.models[alias].provider in config.providers
    requires 1 <= |usable| <= 2 && forall t :: t in usable ==>
               Serves(config, route, request, first, config.models[alias], t)
    ensures WalkSound(config, route, request, first, aliases + [alias],
                      plans + TargetPlans(config, route, request, alias, config.models[alias], usable, |plans|),
                   rejected)
  {
    var own := TargetPlans(config, route, request, alias, config.models[alias], usable, |plans|);
    var all := plans + own;
    forall i | 0 <= i < |all|
      ensures PlanServes(config, route, request, first, aliases + [alias], all[i])
      ensures all[i].fallback == (i > 0) && (all[i].reason == None <==> i == 0)
    {
      if i < |plans| {
        assert all[i] == plans[i];
        ServesGrows(config, route, request, first, aliases, alias, plans[i]);
      } else {
        assert all[i] == own[i - |plans|];
        assert usable[i - |plans|] in usable;
      }
    }
  }

  lemma {:induction false} WalkIsSound(config: Config, route: Route, request: Request, first: string,
                                       aliases: seq<string>)
    requires forall alias :: alias in aliases ==>
               alias in config.models && config.models[alias].provider in config.providers
    ensures var (plans, rejected) := Walk(config, route, request, first, aliases);
            WalkSound(config, route, request, first, aliases, plans, rejected)
  {
    if aliases != [] {
      var n := |aliases| - 1;
      var front, alias := aliases[..n], aliases[n];
      assert alias in aliases && forall a :: a in front ==> a in aliases;
      WalkIsSound(config, route, request, first, front);
      var (plans, rejected) := Walk(config, route, request, first, front);
      SplitLast(aliases);
      AcceptedServes(config, route, request, first, config.models[alias]);
      match Judge(config, route, request, first, config.models[alias])
      case Reject(reason) => SoundReject(config, route, request, first, front, alias, plans, rejected, reason);
      case Accept(usable) => SoundAccept(config, route, request, first, front, alias, plans, rejected, usable);
    }
  }

  /** Rejected aliases serve on no transport. */
  lemma {:induction false} RejectedServeNot(config: Config, route: Route, request: Request, first: string,
                                            aliases: seq<string>, k: nat)
    requires forall alias :: alias in aliases ==>
               alias in config.models && config.models[alias].provider in config.providers
    requires k < |Walk(config, route, request, first, aliases).1|
    ensures var alias := Walk(config, route, request, first, aliases).1[k].alias;
            && alias in config.models && config.models[alias].provider in config.providers
            && forall t :: !Serves(config, route, request, first, config.models[alias], t)
  {
    var n := |aliases| - 1;
    var front, alias := aliases[..n], aliases[n];
    assert alias in aliases && forall a :: a in front ==> a in aliases;
    AcceptedServes(config, route, request, first, config.models[alias]);
    if k < |Walk(config, route, request, first, front).1| {
      RejectedServeNot(config, route, request, first, front, k);
    }
  }

  lemma {:induction false} WalkDecides(config: Config, route: Route, request: Request, first: string,
                                       aliases: seq<string>, i: nat)
    requires forall alias :: alias in aliases ==>
               alias in config.models && config.models[alias].provider in config.providers
    requires i < |aliases|
    ensures var (plans, rejected) := Walk(config, route, request, first, aliases);
            Reached(config, route, request, first, aliases[i], plans, rejected)
  {
    var n := |aliases| - 1;
    var front, alias := aliases[..n], aliases[n];
    assert alias in aliases && forall a :: a in front ==> a in aliases;
    var before := Walk(config, route, request, first, front);
    if i < n {
      WalkDecides(config, route, request, first, front, i);
    }
    WalkReaches(config, route, request, first, alias, before.0, before.1, Walk(config, route, request, first, aliases),
                aliases[i], i < n);
  }

  lemma WalkReaches(config: Config, route: Route, request: Request, first: string, alias: string,
                    plans: seq<RoutePlan>, rejected: seq<Rejected>, after: (seq<RoutePlan>, seq<Rejected>),
                    other: string, earlier: bool)
    requires alias in config.models && config.models[alias].provider in config.providers
    requires match Judge(config, route, request, first, config.models[alias])
             case Reject(reason) => after == (plans, rejected + [Rejected(alias, reason)])
             case Accept(usable) =>
               after
               == (plans + TargetPlans(config, route, request, alias, config.models[alias], usable, |plans|),
                   rejected)
    requires if earlier then Reached(config, route, request, first, other, plans, rejected) else other == alias
    ensures Reached(config, route, request, first, other, after.0, after.1)
  {
    if earlier {
      DecisionsStay(plans, after.0, rejected, after.1, other);
    } else {
      AcceptedServes(config, route, request, first, config.models[alias]);
      match Judge(config, route, request, first, config.models[alias])
      case Reject(reason) => assert after.1[|rejected|].alias == alias;
      case Accept(usable) =>
        PlansForUsable(config, route, request, alias, plans, usable);
        assert usable[0] in usable;
    }
  }

  lemma PlansForUsable(config: Config, route: Route, request: Request, alias: string, before: seq<RoutePlan>,
                       usable: seq<Transport>)
    requires alias in config.models
    ensures forall t :: t in usable ==>
              HasPlan(before + TargetPlans(config, route, request, alias, config.models[alias], usable, |before|),
                      alias, t)
  {
    var own := TargetPlans(config, route, request, alias, config.models[alias], usable, |before|);
    forall t | t in usable
      ensures HasPlan(before + own, alias, t)
    {
      var k :| 0 <= k < |usable| && usable[k] == t;
      assert (before + own)[|before| + k] == own[k];
    }
  }

  lemma DecisionsStay(plans: seq<RoutePlan>, plans': seq<RoutePlan>, rejected: seq<Rejected>, rejected': seq<Rejected>,
                      alias: string)
    requires plans <= plans' && rejected <= rejected'
    ensures forall t :: HasPlan(plans, alias, t) ==> HasPlan(plans', alias, t)
    ensures HasReason(rejected, alias) ==> HasReason(rejected', alias)
  {
    assert forall i :: 0 <= i < |plans| ==> plans'[i] == plans[i];
    assert forall i :: 0 <= i < |rejected| ==> rejected'[i] == rejected[i];
  }

  lemma WalkDecidesAll(config: Config, route: Route, request: Request, first: string, aliases: seq<string>)
    requires forall alias :: alias in aliases ==>
               alias in config.models && config.models[alias].provider in config.providers
    ensures var (plans, rejected) := Walk(config, route, request, first, aliases);
            Decided(config, route, request, first, aliases, plans, rejected)
  {
    var (plans, rejected) := Walk(config, route, request, first, aliases);
    forall i | 0 <= i < |aliases|
      ensures DecidedAt(config, route, request, first, aliases[i], plans, rejected)
    {
      WalkDecides(config, route, request, first, aliases, i);
      if k :| 0 <= k < |rejected| && rejected[k].alias == aliases[i] {
        RejectedServeNot(config, route, request, first, aliases, k);
      }
    }
  }

  // ----- a route plan -----

  /** The plans of a request, as a function. */
  function PlansOf(config: Config, request: Request): (r: (seq<RoutePlan>, seq<Rejected>))
    requires RouteName(config, request) in config.routes
    requires var aliases := Aliases(config, config.routes[RouteName(config, request)], request);
             aliases != [] && forall alias :: alias in aliases ==>
                 alias in config.models && config.models[alias].provider in config.providers
  {
    var route := config.routes[RouteName(config, request)];
    var aliases := Aliases(config, route, request);
    Walk(config, route, request, config.models[aliases[0]].provider, aliases)
  }

  lemma RouteKnown(config: Config, request: Request)
    requires ValidConfig(config) && RouteName(config, request) in config.routes
    ensures var aliases := Aliases(config, config.routes[RouteName(config, request)], request);
            && aliases != [] && |aliases| <= config.routes[RouteName(config, request)].maxFallbackHops + 1
            && (forall alias :: alias in aliases ==>
                  alias in config.models && config.models[alias].provider in config.providers)
            && (request.model.Some? && request.model.value in config.models ==> aliases[0] == request.model.value)
  {
    AliasesKnown(config, config.routes[RouteName(config, request)], request);
  }

  /**
   At most two plans for each allowed hop; the plans are exactly the aliases and
   transports that pass the router's checks, and an alias is rejected exactly when
   it passes them on no transport; only the first plan is not a fallback. With
   provider state, or when crossing providers is disabled, all plans are on the
   provider of the first alias, even if that alias itself was rejected.
   */
  lemma RouteIsSound(config: Config, request: Request)
    requires ValidConfig(config) && RouteName(config, request) in config.routes
    ensures var route := config.routes[RouteName(config, request)];
            var aliases := Aliases(config, route, request);
            && aliases != []
            && (forall alias :: alias in aliases ==>
                  alias in config.models && config.models[alias].provider in config.providers)
            && var first := config.models[aliases[0]].provider;
               var (plans, rejected) := PlansOf(config, request);
               && |plans| <= 2 * (route.maxFallbackHops + 1)
               && WalkSound(config, route, request, first, aliases, plans, rejected)
               && Decided(config, route, request, first, aliases, plans, rejected)
               && (request.providerState || !route.allowCrossProvider ==> forall i :: 0 <= i < |plans| ==>
                     plans[i].provider == first)
  {
    RouteKnown(config, request);
    var route := config.routes[RouteName(config, request)];
    var aliases := Aliases(config, route, request);
    var first := config.models[aliases[0]].provider;
    WalkIsSound(config, route, request, first, aliases);
    WalkDecidesAll(config, route, request, first, aliases);
    var (plans, rejected) := Walk(config, route, request, first, aliases);
    forall i | 0 <= i < |plans| && (request.providerState || !route.allowCrossProvider)
      ensures plans[i].provider == first
    {
      assert PlanServes(config, route, request, first, aliases, plans[i]);
    }
  }

  // ----- opaque state and transports -----

  /** Only the Responses transport has a place for opaque provider state. */
  predicate CarriesState(t: Transport) {
    t == ResponsesApi
  }

  /** The guard under which a target is served without carrying the state it is asked to carry. */
  predicate DropsState(config: Config, request: Request, target: Target)
    requires target.provider in config.providers
  {
    var provider := config.providers[target.provider];
    && ResolvedEffort(config, target, request) == "none"
    && ChatCompletions in provider.transports
    && (target.transport == Fixed(ChatCompletions)
        || (target.transport == Auto && (provider.profile == OpenAiCompatible || config.sameModelTransport)))
  }

  /** A target that passes the checks on some transport is served without its state exactly under that guard. */
  lemma StateDroppedOn(config: Config, route: Route, request: Request, first: string, target: Target)
    requires target.provider in config.providers
    requires exists t :: Serves(config, route, request, first, target, t)
    ensures (exists t :: Serves(config, route, request, first, target, t) && !CarriesState(t))
            <==> DropsState(config, request, target)
  {
    assert Serves(config, route, request, first, target, ChatCompletions) <==> DropsState(config, request, target);
  }

  /** No alias that passes the checks meets the guard. */
  ghost predicate NoneDrops(config: Config, route: Route, request: Request, first: string, aliases: seq<string>)
    requires forall alias :: alias in aliases ==>
               alias in config.models && config.models[alias].provider in config.providers
  {
    forall alias :: alias in aliases && (exists t :: Serves(config, route, request, first, config.models[alias], t)) ==>
                      !DropsState(config, request, config.models[alias])
  }

  lemma PlansCarryState(config: Config, route: Route, request: Request, first: string, aliases: seq<string>,
                        plans: seq<RoutePlan>, rejected: seq<Rejected>)
    requires forall alias :: alias in aliases ==>
               alias in config.models && config.models[alias].provider in config.providers
    requires WalkSound(config, route, request, first, aliases, plans, rejected)
    requires Decided(config, route, request, first, aliases, plans, rejected)
    ensures (forall i :: 0 <= i < |plans| ==> CarriesState(plans[i].transport))
            <==> NoneDrops(config, route, request, first, aliases)
  {
    if i :| 0 <= i < |plans| && !CarriesState(plans[i].transport) {
      assert PlanServes(config, route, request, first, aliases, plans[i]);
      StateDroppedOn(config, route, request, first, config.models[plans[i].alias]);
    }
    if alias :| && alias in aliases && (exists t :: Serves(config, route, request, first, config.models[alias], t))
                && DropsState(config, request, config.models[alias]) {
      var i :| 0 <= i < |aliases| && aliases[i] == alias;
      StateDroppedOn(config, route, request, first, config.models[alias]);
      var t :| Serves(config, route, request, first, config.models[alias], t) && !CarriesState(t);
      assert DecidedAt(config, route, request, first, aliases[i], plans, rejected);
      assert HasPlan(plans, alias, t);
    }
  }

  /** All plans of a route carry provider state if and only if no alias that passes the checks meets the guard. */
  lemma RouteCarriesState(config: Config, request: Request)
    requires ValidConfig(config) && RouteName(config, request) in config.routes
    ensures var route := config.routes[RouteName(config, request)];
            var aliases := Aliases(config, route, request);
            && aliases != []
            && (forall alias :: alias in aliases ==>
                  alias in config.models && config.models[alias].provider in config.providers)
            && var plans := PlansOf(config, request).0;
               (forall i :: 0 <= i < |plans| ==> CarriesState(plans[i].transport))
               <==> NoneDrops(config, route, request, config.models[aliases[0]].provider, aliases)
  {
    RouteIsSound(config, request);
    var route := config.routes[RouteName(config, request)];
    var aliases := Aliases(config, route, request);
    var (plans, rejected) := PlansOf(config, request);
    PlansCarryState(config, route, request, config.models[aliases[0]].provider, aliases, plans, rejected);
  }

  /** A compatible endpoint that only knows chat completions, asked to replay provider state. */
  function ChatOnly(): Config {
    Config(map["p" := Provider({ChatCompletions}, OpenAiCompatible)],
           map["m" := Target("p", Fixed(ChatCompletions), true, Levels, true, true, None)],
           map["default" := Route(["m"], [], 0, 1, true)], "default", "none", false)
  }

  lemma StateIsDropped()
    ensures var request := Request(None, None, false, None, false, true, 0);
            && ValidConfig(ChatOnly()) && RouteName(ChatOnly(), request) in ChatOnly().routes
            && Aliases(ChatOnly(), ChatOnly().routes["default"], request) == ["m"]
            && HasPlan(PlansOf(ChatOnly(), request).0, "m", ChatCompletions)
  {
    var config, request := ChatOnly(), Request(None, None, false, None, false, true, 0);
    assert Serves(config, config.routes["default"], request, "p", config.models["m"], ChatCompletions);
    RouteIsSound(config, request);
    assert DecidedAt(config, config.routes["default"], request, "p", "m", PlansOf(config, request).0,
                     PlansOf(config, request).1);
  }

  // ----- executing a route plan -----

  /** A plan as the gateway sees it; `key` names its adapter. */
  function ToRequest(p: RoutePlan, key: RoutePlan -> string): G.RequestPlan {
    G.RequestPlan(key(p), p.categories)
  }

  function ToRequests(plans: seq<RoutePlan>, key: RoutePlan -> string): seq<G.RequestPlan> {
    seq(|plans|, i requires 0 <= i < |plans| => ToRequest(plans[i], key))
  }

  /**
   A routed stream: the attempts stay within the route's own budget, every plan
   taken up after a failure was allowed by the route, and with provider state no
   attempt ever leaves the provider of the first alias.
   */
  lemma RoutedStreamIsSound(config: Config, request: Request, world: G.World, maxAttempts: int,
                            key: RoutePlan -> string)
    requires ValidConfig(config) && RouteName(config, request) in config.routes
    ensures var route := config.routes[RouteName(config, request)];
            var aliases := Aliases(config, route, request);
            && aliases != []
            && (forall alias :: alias in aliases ==>
                  alias in config.models && config.models[alias].provider in config.providers)
            && var plans := PlansOf(config, request).0;
               var (t, v) := G.StreamSpec(world, ToRequests(plans, key), route.maxTotalAttempts, maxAttempts);
               && t.attempts <= route.maxTotalAttempts && t.calls <= route.maxTotalAttempts
               && GatewaySafety.OneSource(t)
               && v != G.GuardRaised && v != G.TailRaised && (v == G.NoPlan <==> plans == [])
               && |t.switches| < GatewaySafety.Max(1, |plans|)
               && (forall k :: 0 <= k < |t.switches| ==>
                     && t.switches[k].plan == k + 1 && k + 1 < |plans|
                     && (route.fallbackOn != [] ==> t.switches[k].error.category in route.fallbackOn)
                     && (request.providerState ==> plans[k + 1].provider == config.models[aliases[0]].provider))
  {
    RouteIsSound(config, request);
    var route := config.routes[RouteName(config, request)];
    var aliases := Aliases(config, route, request);
    var first := config.models[aliases[0]].provider;
    var plans := PlansOf(config, request).0;
    var requests := ToRequests(plans, key);
    GatewaySafety.StreamIsSound(world, requests, route.maxTotalAttempts, maxAttempts);
    var (t, v) := G.StreamSpec(world, requests, route.maxTotalAttempts, maxAttempts);
    forall k | 0 <= k < |t.switches|
      ensures t.switches[k].plan == k + 1 && k + 1 < |plans|
      ensures route.fallbackOn != [] ==> t.switches[k].error.category in route.fallbackOn
    {
      assert requests[k + 1] == ToRequest(plans[k + 1], key);
      assert PlanServes(config, route, request, first, aliases, plans[k + 1]);
    }
  }

  const Limited: G.ProviderError := G.ProviderError(G.RateLimit, false, false)

  /** A world in which every attempt is rate limited. */
  function LimitedWorld(): G.World {
    G.World(k => G.Script(false, false, false, [], G.Fails(Limited), false), i => true, key => true)
  }

  /**
   A route that lists no fallback categories is not a route without fallbacks:
   the empty list stands for the default one, and the second plan is tried.
   */
  lemma EmptyListStillFallsBack(first: G.RequestPlan, second: G.RequestPlan, budget: nat, maxAttempts: nat)
    requires first.fallbackCategories == [] && second.fallbackCategories == [] && budget >= 2 && maxAttempts >= 1
    ensures var (t, v) := G.StreamSpec(LimitedWorld(), [first, second], budget, maxAttempts);
            t.switches == [G.Switch(1, Limited)] && t.attempts == 2 && v == G.Raised(Limited, false)
  {
    var world, plans := LimitedWorld(), [first, second];
    var start := G.Start(budget);
    var once := G.AfterAttempt(start, world.attempt(0));
    var failure := G.Raised(Limited, false);
    assert G.RunCallSpec(world, first, start, maxAttempts) == (once, failure);
    assert G.DefaultFallbacks[0] == G.RateLimit;
    assert G.FallbackAllowed(second, Limited);
    var switched := once.(switches := [G.Switch(1, Limited)]);
    Full([G.Switch(1, Limited)]);
    assert G.StreamFrom(world, plans, 0, None, start, maxAttempts)
           == G.StreamFrom(world, plans, 1, Some(failure), switched, maxAttempts);
    var twice := G.AfterAttempt(switched, world.attempt(1));
    assert G.RunCallSpec(world, second, switched, maxAttempts) == (twice, failure);
    assert G.StreamFrom(world, plans, 1, Some(failure), switched, maxAttempts) == (twice, failure);
  }
}
