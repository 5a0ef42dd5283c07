/**
 The route plan, entry by entry: the aliases in their order, for each of them the
 transports that serve the request with the preferred one first, and what each
 plan carries.
 */
module RoutingRule {
  import opened Wrappers
  import opened Sequences
  import opened Routing

  /** The effort sent with a plan: the requested one, or the configured one where the transport can carry it. */
  function EffortSent(config: Config, target: Target, request: Request): string {
    match request.effort
    case Some(effort) => effort
    case None => if target.transport == Fixed(ChatCompletions) then "none" else config.defaultEffort
  }

  /** The transport to try first when both serve: the endpoint's own, or the one that the Responses profile prefers. */
  function FirstChoice(profile: Profile): Transport {
    match profile
    case OpenAi => ResponsesApi
    case OpenAiCompatible => ChatCompletions
  }

  /** The resolver can send the request's effort over the transport. */
  predicate CanSend(config: Config, request: Request, target: Target, t: Transport)
    requires target.provider in config.providers
  {
    var effort := EffortSent(config, target, request);
    && effort in {"none", "low", "medium", "high", "xhigh", "max"}
    && (effort == "none" || t == ResponsesApi)
    && match target.transport
       case Fixed(only) => t == only
       case Auto =>
         || config.sameModelTransport
         || t == (if effort == "none" then FirstChoice(config.providers[target.provider].profile) else ResponsesApi)
  }

  /** Everything asked of a target and a transport, request by request. */
  lemma ServesIff(config: Config, route: Route, request: Request, first: string, target: Target, t: Transport)
    requires target.provider in config.providers
    ensures Serves(config, route, request, first, target, t)
            <==>
            && (target.provider != first ==> route.allowCrossProvider && !request.providerState)
            && (request.tools ==> target.tools)
            && (request.providerState ==> target.providerState)
            && (request.structured ==> target.structuredOutput)
            && (request.effort == None || request.effort == Some("") ==> config.defaultEffort in target.efforts)
            && (request.effort.Some? && request.effort.value != "" ==> request.effort.value in target.efforts)
            && (target.contextWindow == None || target.contextWindow == Some(0)
                || target.contextWindow.value >= request.estimatedTokens)
            && CanSend(config, request, target, t)
            && t in config.providers[target.provider].transports
  {
    var effort := ResolvedEffort(config, target, request);
    assert effort == EffortSent(config, target, request);
    assert Carried(config, request, target, t) <==> CanSend(config, request, target, t) by {
      var tried := TransportCandidates(config, config.providers[target.provider].profile, target.transport, effort);
      assert forall u :: u in tried <==> exists i :: 0 <= i < |tried| && tried[i] == u;
    }
  }

  /** What the `j`-th plan of a target says, after `before` plans of others. */
  ghost predicate Says(config: Config, route: Route, request: Request, alias: string, before: nat, j: nat, p: RoutePlan)
    requires alias in config.models
  {
    var target := config.models[alias];
    && p.alias == alias && p.provider == target.provider && p.effort == EffortSent(config, target, request)
    && p.categories == route.fallbackOn && p.maxTotalAttempts == route.maxTotalAttempts
    && (p.fallback <==> before + j > 0)
    && p.reason == (if before + j == 0 then None else if j > 0 then Some(TransportFallback) else Some(ModelFallback))
  }

  /** The plans of one alias: each transport that serves, the preferred one first. */
  ghost predicate PlansOfAlias(config: Config, route: Route, request: Request, first: string, alias: string,
                               before: nat,
                               own: seq<RoutePlan>)
    requires alias in config.models && config.models[alias].provider in config.providers
  {
    var target := config.models[alias];
    && |own| <= 2
    && (forall t :: Serves(config, route, request, first, target, t) <==>
                      exists j :: 0 <= j < |own| && own[j].transport == t)
    && (forall j: nat :: j < |own| ==> Says(config, route, request, alias, before, j, own[j]))
    && (|own| == 2 ==>
          && own[0].transport == FirstChoice(config.providers[target.provider].profile)
          && own[0].transport != own[1].transport)
  }

  /** The whole route: alias by alias, each with its plans or with the first check it fails. */
  ghost predicate RoutedAs(config: Config, route: Route, request: Request, first: string, aliases: seq<string>,
                           plans: seq<RoutePlan>, rejected: seq<Rejected>)
    requires forall alias :: alias in aliases ==>
               alias in config.models && config.models[alias].provider in config.providers
  {
    if aliases == [] then plans == [] && rejected == []
    else
      var n := |aliases| - 1;
      assert aliases[n] in aliases && forall a :: a in aliases[..n] ==> a in aliases;
      exists before: nat ::
        && before <= |plans| && PlansOfAlias(config, route, request, first, aliases[n], before, plans[before..])
        && if before < |plans| then RoutedAs(config, route, request, first, aliases[..n], plans[..before], rejected)
           else
             && rejected != []
                && RoutedAs(config, route, request, first, aliases[..n], plans, rejected[..|rejected| - 1])
             && Explains(config, route, request, first, aliases[n], rejected[|rejected| - 1])
  }

  /** The reason given for an alias is a check it fails, and it fails none before. */
  ghost predicate Explains(config: Config, route: Route, request: Request, first: string, alias: string, r: Rejected)
    requires alias in config.models && config.models[alias].provider in config.providers
  {
    var target := config.models[alias];
    && r.alias == alias && Fails(config, route, request, first, target, r.reason)
    && forall other :: Place(other) < Place(r.reason) ==> !Fails(config, route, request, first, target, other)
  }

  // ----- one alias -----

  lemma KeepTwo(a: Transport, b: Transport, ok: Transport -> bool)
    ensures Keep([a, b], ok) == (if ok(a) then [a] else []) + (if ok(b) then [b] else [])
    ensures Keep([a], ok) == if ok(a) then [a] else []
  {
    var one, two := [a], [a, b];
    assert one[..0] == [] && two[..1] == one && two[1] == b;
    assert Keep(one, ok) == Keep([], ok) + if ok(a) then [a] else [];
  }

  /** The transports that are tried. */
  lemma TriedOrder(config: Config, profile: Profile, configured: Configured, effort: string)
    ensures var tried := TransportCandidates(config, profile, configured, effort);
            && 1 <= |tried| <= 2
            && (|tried| == 2 ==>
                  && tried[0] != tried[1]
                  && (Carries(ChatCompletions, effort) ==> tried[0] == FirstChoice(profile)))
  {
  }

  lemma OfferedOrder(config: Config, profile: Profile, target: Target, request: Request)
    ensures var r := ResolverPlans(config, profile, target, request);
            r.Some? ==> |r.value| <= 2
                        && (|r.value| == 2 ==> r.value[0] == FirstChoice(profile) && r.value[0] != r.value[1])
  {
    var effort := ResolvedEffort(config, target, request);
    var tried := TransportCandidates(config, profile, target.transport, effort);
    TriedOrder(config, profile, target.transport, effort);
    KeptOrder(tried, Keep(tried, t => Carries(t, effort)), t => Carries(t, effort));
  }

  /** Of two different transports both are kept only if both pass, and then in their order. */
  lemma KeptOrder(tried: seq<Transport>, kept: seq<Transport>, ok: Transport -> bool)
    requires |tried| <= 2 && kept == Keep(tried, ok) && (|tried| == 2 ==> tried[0] != tried[1])
    ensures |kept| <= |tried| && (|kept| == 2 ==> kept == tried && ok(ChatCompletions) && ok(ResponsesApi))
  {
    Keeps(tried, ok);
    KeepKeeps(tried, ok);
    if |kept| == 2 {
      BothIn(kept);
    }
  }

  lemma BothIn(ts: seq<Transport>)
    requires |ts| == 2 && ts[0] != ts[1]
    ensures ChatCompletions in ts && ResponsesApi in ts
  {
    assert ts[0] in ts && ts[1] in ts;
  }

  /** Two accepted transports are the preferred one and the other. */
  lemma AcceptedOrder(config: Config, route: Route, request: Request, first: string, target: Target)
    requires target.provider in config.providers
    ensures var j := Judge(config, route, request, first, target);
            j.Accept? && |j.transports| == 2 ==>
              && j.transports[0] == FirstChoice(config.providers[target.provider].profile)
              && j.transports[0] != j.transports[1]
  {
    var provider := config.providers[target.provider];
    OfferedOrder(config, provider.profile, target, request);
    var offered := ResolverPlans(config, provider.profile, target, request);
    if offered.Some? {
      Keeps(offered.value, t => t in provider.transports);
    }
  }

  /** Keeping two of at most two keeps the list. */
  lemma Keeps(ts: seq<Transport>, ok: Transport -> bool)
    requires |ts| <= 2
    ensures |Keep(ts, ok)| == 2 ==> Keep(ts, ok) == ts
    ensures |Keep(ts, ok)| <= |ts|
  {
    KeepKeeps(ts, ok);
    if |ts| == 2 {
      KeepTwo(ts[0], ts[1], ok);
      assert ts == [ts[0], ts[1]];
    }
  }

  lemma RejectedFollowsRule(config: Config, route: Route, request: Request, first: string, alias: string, before: nat)
    requires alias in config.models && config.models[alias].provider in config.providers
    requires Judge(config, route, request, first, config.models[alias]).Reject?
    ensures PlansOfAlias(config, route, request, first, alias, before, [])
    ensures var reason := Judge(config, route, request, first, config.models[alias]).reason;
            Explains(config, route, request, first, alias, Rejected(alias, reason))
  {
    AcceptedServes(config, route, request, first, config.models[alias]);
    RejectionIsFirst(config, route, request, first, config.models[alias]);
  }

  lemma AcceptedFollowsRule(config: Config, route: Route, request: Request, first: string, alias: string, before: nat,
                            usable: seq<Transport>)
    requires alias in config.models && config.models[alias].provider in config.providers
    requires Judge(config, route, request, first, config.models[alias]) == Accept(usable)
    ensures var own := TargetPlans(config, route, request, alias, config.models[alias], usable, before);
            own != [] && PlansOfAlias(config, route, request, first, alias, before, own)
  {
    var target := config.models[alias];
    AcceptedServes(config, route, request, first, target);
    AcceptedOrder(config, route, request, first, target);
    var own := TargetPlans(config, route, request, alias, target, usable, before);
    TransportsOf(config, route, request, alias, target, usable, before);
    forall j: nat | j < |own|
      ensures Says(config, route, request, alias, before, j, own[j])
    {
    }
  }

  /** The plans of a target are on its transports. */
  lemma TransportsOf(config: Config, route: Route, request: Request, alias: string, target: Target,
                     usable: seq<Transport>, before: nat)
    ensures var own := TargetPlans(config, route, request, alias, target, usable, before);
            && |own| == |usable| && (forall j :: 0 <= j < |own| ==> own[j].transport == usable[j])
            && forall t :: t in usable <==> exists j :: 0 <= j < |own| && own[j].transport == t
  {
    var own := TargetPlans(config, route, request, alias, target, usable, before);
    forall t | t in usable
      ensures exists j :: 0 <= j < |own| && own[j].transport == t
    {
      var j :| 0 <= j < |usable| && usable[j] == t;
      assert own[j].transport == t;
    }
  }

  // ----- all aliases -----

  lemma {:induction false} WalkFollowsRule(config: Config, route: Route, request: Request, first: string,
                                           aliases: seq<string>)
    requires forall alias :: alias in aliases ==>
               alias in config.models && config.models[alias].provider in config.providers
    ensures var (plans, rejected) := Walk(config, route, request, first, aliases);
            RoutedAs(config, route, request, first, aliases, plans, rejected)
  {
    if aliases != [] {
      var n := |aliases| - 1;
      assert aliases[n] in aliases && forall a :: a in aliases[..n] ==> a in aliases;
      WalkFollowsRule(config, route, request, first, aliases[..n]);
      var (plans, rejected) := Walk(config, route, request, first, aliases[..n]);
      WalkNext(config, route, request, first, aliases, plans, rejected);
    }
  }

  lemma WalkNext(config: Config, route: Route, request: Request, first: string, aliases: seq<string>,
                 plans: seq<RoutePlan>, rejected: seq<Rejected>)
    requires aliases != [] && forall alias :: alias in aliases ==>
               alias in config.models && config.models[alias].provider in config.providers
    requires forall a :: a in aliases[..|aliases| - 1] ==> a in aliases
    requires aliases[|aliases| - 1] in aliases
    requires RoutedAs(config, route, request, first, aliases[..|aliases| - 1], plans, rejected)
    ensures var alias := aliases[|aliases| - 1];
            match Judge(config, route, request, first, config.models[alias])
            case Reject(reason) =>
              RoutedAs(config, route, request, first, aliases, plans, rejected + [Rejected(alias, reason)])
            case Accept(usable) =>
              var own := TargetPlans(config, route, request, alias, config.models[alias], usable, |plans|);
              RoutedAs(config, route, request, first, aliases, plans + own, rejected)
  {
    var alias, before := aliases[|aliases| - 1], |plans|;
    match Judge(config, route, request, first, config.models[alias])
    case Reject(reason) =>
      RejectedFollowsRule(config, route, request, first, alias, before);
      Pushed(rejected, Rejected(alias, reason));
      assert plans[before..] == [];
    case Accept(usable) =>
      var own := TargetPlans(config, route, request, alias, config.models[alias], usable, before);
      AcceptedFollowsRule(config, route, request, first, alias, before, usable);
      assert (plans + own)[before..] == own && (plans + own)[..before] == plans;
  }

  // ----- the route -----

  /** A requested model that is known comes first, before the rest of the route; the list ends with the allowed hops. */
  ghost predicate AliasesAs(config: Config, route: Route, request: Request, aliases: seq<string>) {
    var hops := route.maxFallbackHops + 1;
    if request.model == None || request.model.value !in config.models then
      aliases == FirstOf(route.candidates, hops)
    else if request.model.value !in route.candidates then
      aliases == FirstOf([request.model.value] + route.candidates, hops)
    else
      exists i :: 0 <= i < |route.candidates| && route.candidates[i] == request.model.value
                  && request.model.value !in route.candidates[..i] && aliases == FirstOf(route.candidates[i..], hops)
  }

  /** The first `n` of a list, or all of it. */
  function FirstOf(s: seq<string>, n: nat): (r: seq<string>)
    ensures r <= s && (|r| == n || r == s) && |r| <= n
  {
    if |s| <= n then s else s[..n]
  }

  lemma AliasesFollowRule(config: Config, route: Route, request: Request)
    ensures AliasesAs(config, route, request, Aliases(config, route, request))
  {
  }

  /** The router's answer to a request: the aliases by rule, and the plans and rejections by rule. */
  lemma RouteFollowsRule(config: Config, request: Request)
    requires ValidConfig(config) && RouteName(config, request) in config.routes
    ensures var route := config.routes[RouteName(config, request)];
            var aliases := Aliases(config, route, request);
            && (request.route == None || request.route == Some("") ==>
                  RouteName(config, request) == config.defaultRoute)
            && (request.route.Some? && request.route.value != "" ==> Some(RouteName(config, request)) == request.route)
            && AliasesAs(config, route, request, aliases) && aliases != []
            && (forall alias :: alias in aliases ==>
                  alias in config.models && config.models[alias].provider in config.providers)
            && var first := config.models[aliases[0]].provider;
               var (plans, rejected) := Walk(config, route, request, first, aliases);
               RoutedAs(config, route, request, first, aliases, plans, rejected)
  {
    var route := config.routes[RouteName(config, request)];
    var aliases := Aliases(config, route, request);
    AliasesFollowRule(config, route, request);
    AliasesKnown(config, route, request);
    WalkFollowsRule(config, route, request, config.models[aliases[0]].provider, aliases);
  }
}
