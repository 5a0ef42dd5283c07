/**
 The model router: walks the aliases of a route, rejects the targets that cannot
 serve the request, and turns every other target into one or two request plans.
 */
module Routing {
  import opened Wrappers
  import opened Sequences
  import G = Gateway

  datatype Transport = ResponsesApi | ChatCompletions
  datatype Configured = Auto | Fixed(transport: Transport)
  datatype Profile = OpenAi | OpenAiCompatible

  datatype Provider = Provider(transports: set<Transport>, profile: Profile)
  datatype Target = Target(provider: string, transport: Configured, tools: bool, efforts: set<string>,
                           providerState: bool,
                           structuredOutput: bool, contextWindow: Option<nat>)
  datatype Route = Route(candidates: seq<string>, fallbackOn: seq<G.Category>, maxFallbackHops: nat,
                         maxTotalAttempts: pos,
                         allowCrossProvider: bool)
  datatype Config = Config(providers: map<string, Provider>, models: map<string, Target>, routes: map<string, Route>,
                           defaultRoute: string, defaultEffort: string, sameModelTransport: bool)

  datatype Request = Request(model: Option<string>, route: Option<string>, tools: bool, effort: Option<string>,
                             structured: bool,
                             providerState: bool, estimatedTokens: nat)

  datatype Rejection =
    | CrossProviderDisabled
    | ToolsUnsupported
    | EffortUnsupported
    | ProviderStateUnsupported
    | ProviderStateNotPortable
    | StructuredOutputUnsupported
    | ContextWindowInsufficient
    | CapabilityMismatch
    | TransportUnsupported

  datatype FallbackReason = TransportFallback | ModelFallback

  datatype RoutePlan = RoutePlan(alias: string, provider: string, transport: Transport, effort: string, fallback: bool,
                                 reason: Option<FallbackReason>, categories: seq<G.Category>, maxTotalAttempts: pos)

  datatype Rejected = Rejected(alias: string, reason: Rejection)

  datatype Planned =
    | NoRoute
    | NoTarget(rejected: seq<Rejected>)
    | Plans(candidates: seq<RoutePlan>, rejected: seq<Rejected>, maxTotalAttempts: pos)

  /** What loading a configuration guarantees. */
  ghost predicate ValidConfig(config: Config) {
    && (forall name :: name in config.routes ==> config.routes[name].candidates != [])
    && (forall name :: name in config.routes ==> forall alias :: alias in config.routes[name].candidates ==>
          alias in config.models)
    && (forall alias :: alias in config.models ==> config.models[alias].provider in config.providers)
  }

  // ----- capabilities -----

  const Levels: set<string> := {"none", "low", "medium", "high", "xhigh", "max"}

  function Preferred(profile: Profile): Transport {
    if profile == OpenAi then ResponsesApi else ChatCompletions
  }

  function Other(t: Transport): Transport {
    if t == ResponsesApi then ChatCompletions else ResponsesApi
  }

  /** Chat completions carry no reasoning effort. */
  predicate Carries(t: Transport, effort: string) {
    if t == ResponsesApi then effort in Levels else effort == "none"
  }

  /** The effort the resolver works with. */
  function ResolvedEffort(config: Config, target: Target, request: Request): string {
    if request.effort.Some? then request.effort.value
    else if target.transport == Auto || target.transport == Fixed(ResponsesApi) then config.defaultEffort
    else "none"
  }

  function TransportCandidates(config: Config, profile: Profile, configured: Configured,
                               effort: string): seq<Transport> {
    match configured
    case Fixed(t) => [t]
    case Auto =>
      var preferred := if effort != "none" then ResponsesApi else Preferred(profile);
      [preferred] + if config.sameModelTransport then [Other(preferred)] else []
  }

  function Keep(ts: seq<Transport>, ok: Transport -> bool): seq<Transport> {
    if ts == [] then []
    else
      var last := ts[|ts| - 1];
      Keep(ts[..|ts| - 1], ok) + if ok(last) then [last] else []
  }

  /** The transports the resolver offers; `None` is its configuration error. */
  function ResolverPlans(config: Config, profile: Profile, target: Target, request: Request): Option<seq<Transport>> {
    var effort := ResolvedEffort(config, target, request);
    if effort !in Levels then None
    else
      var offered := Keep(TransportCandidates(config, profile, target.transport, effort), t => Carries(t, effort));
      if offered == [] then None else Some(offered)
  }

  // ----- one target -----

  datatype Judgement = Reject(reason: Rejection) | Accept(transports: seq<Transport>)

  /** The effort a target must list. */
  function RoutedEffort(config: Config, request: Request): string {
    if request.effort.Some? && request.effort.value != "" then request.effort.value else config.defaultEffort
  }

  /** The checks of one target, in order; `first` is the provider of the first alias. */
  function Judge(config: Config, route: Route, request: Request, first: string, target: Target): Judgement
    requires target.provider in config.providers
  {
    var provider := config.providers[target.provider];
    if !route.allowCrossProvider && target.provider != first then Reject(CrossProviderDisabled)
    else if request.tools && !target.tools then Reject(ToolsUnsupported)
    else if RoutedEffort(config, request) !in target.efforts then Reject(EffortUnsupported)
    else if request.providerState && !target.providerState then Reject(ProviderStateUnsupported)
    else if request.providerState && target.provider != first then Reject(ProviderStateNotPortable)
    else if request.structured && !target.structuredOutput then Reject(StructuredOutputUnsupported)
    else if target.contextWindow.Some? && target.contextWindow.value != 0
            && request.estimatedTokens > target.contextWindow.value then
      Reject(ContextWindowInsufficient)
    else
      match ResolverPlans(config, provider.profile, target, request)
      case None => Reject(CapabilityMismatch)
      case Some(offered) =>
        var usable := Keep(offered, t => t in provider.transports);
        if usable == [] then Reject(TransportUnsupported) else Accept(usable)
  }

  // ----- what the checks decide -----

  predicate WindowTooSmall(request: Request, target: Target) {
    target.contextWindow.Some? && target.contextWindow.value != 0
      && request.estimatedTokens > target.contextWindow.value
  }

  /** The resolver may try this transport for the target. */
  predicate Tried(config: Config, request: Request, target: Target, t: Transport)
    requires target.provider in config.providers
  {
    t in TransportCandidates(config, config.providers[target.provider].profile, target.transport,
                             ResolvedEffort(config, target, request))
  }

  /** The transport is tried, and carries the effort of the request. */
  predicate Carried(config: Config, request: Request, target: Target, t: Transport)
    requires target.provider in config.providers
  {
    Tried(config, request, target, t) && Carries(t, ResolvedEffort(config, target, request))
  }

  /** Everything the router asks of a target and a transport. */
  predicate Serves(config: Config, route: Route, request: Request, first: string, target: Target, t: Transport)
    requires target.provider in config.providers
  {
    && (route.allowCrossProvider || target.provider == first)
    && (request.tools ==> target.tools)
    && RoutedEffort(config, request) in target.efforts
    && (request.providerState ==> target.providerState && target.provider == first)
    && (request.structured ==> target.structuredOutput)
    && !WindowTooSmall(request, target)
    && Carried(config, request, target, t)
    && t in config.providers[target.provider].transports
  }

  /** The check a rejection stands for, seen from the outside. */
  ghost predicate Fails(config: Config, route: Route, request: Request, first: string, target: Target,
                        reason: Rejection)
    requires target.provider in config.providers
  {
    match reason
    case CrossProviderDisabled => !route.allowCrossProvider && target.provider != first
    case ToolsUnsupported => request.tools && !target.tools
    case EffortUnsupported => RoutedEffort(config, request) !in target.efforts
    case ProviderStateUnsupported => request.providerState && !target.providerState
    case ProviderStateNotPortable => request.providerState && target.provider != first
    case StructuredOutputUnsupported => request.structured && !target.structuredOutput
    case ContextWindowInsufficient => WindowTooSmall(request, target)
    case CapabilityMismatch => forall t :: !Carried(config, request, target, t)
    case TransportUnsupported =>
      forall t :: Carried(config, request, target, t) ==> t !in config.providers[target.provider].transports
  }

  /** The order of the checks. */
  function Place(reason: Rejection): nat {
    match reason
    case CrossProviderDisabled => 0
    case ToolsUnsupported => 1
    case EffortUnsupported => 2
    case ProviderStateUnsupported => 3
    case ProviderStateNotPortable => 4
    case StructuredOutputUnsupported => 5
    case ContextWindowInsufficient => 6
    case CapabilityMismatch => 7
    case TransportUnsupported => 8
  }

  lemma {:induction false} KeepKeeps(ts: seq<Transport>, ok: Transport -> bool)
    ensures |Keep(ts, ok)| <= |ts|
    ensures forall t :: t in Keep(ts, ok) <==> t in ts && ok(t)
  {
    if ts != [] {
      KeepKeeps(ts[..|ts| - 1], ok);
      SplitLast(ts);
    }
  }

  lemma OfferedTransports(config: Config, target: Target, request: Request)
    requires target.provider in config.providers
    ensures var r := ResolverPlans(config, config.providers[target.provider].profile, target, request);
            && (r.Some? ==> 1 <= |r.value| <= 2 && forall t :: t in r.value <==> Carried(config, request, target, t))
            && (r == None ==> forall t :: !Carried(config, request, target, t))
  {
    var effort := ResolvedEffort(config, target, request);
    var tried := TransportCandidates(config, config.providers[target.provider].profile, target.transport, effort);
    KeepKeeps(tried, t => Carries(t, effort));
  }

  /** Accepted are exactly the transports that serve the request, one or two. */
  lemma AcceptedServes(config: Config, route: Route, request: Request, first: string, target: Target)
    requires target.provider in config.providers
    ensures var j := Judge(config, route, request, first, target);
            && (j.Accept? ==> 1 <= |j.transports| <= 2)
            && (forall t :: (j.Accept? && t in j.transports) <==> Serves(config, route, request, first, target, t))
  {
    var provider := config.providers[target.provider];
    OfferedTransports(config, target, request);
    var offered := ResolverPlans(config, provider.profile, target, request);
    if offered.Some? {
      KeepKeeps(offered.value, t => t in provider.transports);
      var usable := Keep(offered.value, t => t in provider.transports);
      assert usable == [] || usable[0] in usable;
    }
  }

  /** The reason stands for a check before the resolver's. */
  predicate Early(reason: Rejection) {
    reason != CapabilityMismatch && reason != TransportUnsupported
  }

  lemma EarlyRejectionIsFirst(config: Config, route: Route, request: Request, first: string, target: Target)
    requires target.provider in config.providers
    ensures var j := Judge(config, route, request, first, target);
            if j.Reject? && Early(j.reason)
            then && Fails(config, route, request, first, target, j.reason)
                 && forall r :: Place(r) < Place(j.reason) ==> !Fails(config, route, request, first, target, r)
            else forall r :: Early(r) ==> !Fails(config, route, request, first, target, r)
  {
  }

  /** A rejection names the first check that fails. */
  lemma RejectionIsFirst(config: Config, route: Route, request: Request, first: string, target: Target)
    requires target.provider in config.providers
    ensures var j := Judge(config, route, request, first, target);
            j.Reject? ==>
              && Fails(config, route, request, first, target, j.reason)
              && forall r :: Place(r) < Place(j.reason) ==> !Fails(config, route, request, first, target, r)
  {
    var provider := config.providers[target.provider];
    EarlyRejectionIsFirst(config, route, request, first, target);
    OfferedTransports(config, target, request);
    var offered := ResolverPlans(config, provider.profile, target, request);
    if offered.Some? {
      KeepKeeps(offered.value, t => t in provider.transports);
      assert Carried(config, request, target, offered.value[0]);
    }
  }

  // ----- all targets -----

  function PlanFor(config: Config, route: Route, request: Request, alias: string, target: Target, t: Transport,
                   index: nat, any: bool): RoutePlan {
    RoutePlan(alias, target.provider, t, ResolvedEffort(config, target, request), any,
              if !any then None else if index > 0 then Some(TransportFallback) else Some(ModelFallback),
              route.fallbackOn, route.maxTotalAttempts)
  }

  /** The plans of one target, after `before` others. */
  function TargetPlans(config: Config, route: Route, request: Request, alias: string, target: Target,
                       usable: seq<Transport>, before: nat): seq<RoutePlan> {
    seq(|usable|, i requires 0 <= i < |usable| =>
          PlanFor(config, route, request, alias, target, usable[i], i, before + i > 0))
  }

  /** Plans and rejections after the given aliases. */
  function Walk(config: Config, route: Route, request: Request, first: string, aliases: seq<string>)
    : (seq<RoutePlan>, seq<Rejected>)
    requires forall alias :: alias in aliases ==>
               alias in config.models && config.models[alias].provider in config.providers
  {
    if aliases == [] then ([], [])
    else
      var n := |aliases| - 1;
      var alias := aliases[n];
      assert alias in aliases && forall a :: a in aliases[..n] ==> a in aliases;
      var (plans, rejected) := Walk(config, route, request, first, aliases[..n]);
      match Judge(config, route, request, first, config.models[alias])
      case Reject(reason) => (plans, rejected + [Rejected(alias, reason)])
      case Accept(usable) =>
        (plans + TargetPlans(config, route, request, alias, config.models[alias], usable, |plans|), rejected)
  }

  function IndexOf(s: seq<string>, x: string): (i: nat)
    requires x in s
    ensures i < |s| && s[i] == x && x !in s[..i]
  {
    if s[0] == x then 0
    else
      assert x in s[1..];
      var i := IndexOf(s[1..], x);
      assert s[..i + 1] == [s[0]] + s[1..][..i];
      i + 1
  }

  /** A known requested model comes first; the list is cut to the allowed hops. */
  function Aliases(config: Config, route: Route, request: Request): seq<string> {
    var all := if request.model.Some? && request.model.value in config.models then
                 if request.model.value in route.candidates
                   then route.candidates[IndexOf(route.candidates, request.model.value)..]
                 else [request.model.value] + route.candidates
               else route.candidates;
    if |all| <= route.maxFallbackHops + 1 then all else all[..route.maxFallbackHops + 1]
  }

  function RouteName(config: Config, request: Request): string {
    if request.route.Some? && request.route.value != "" then request.route.value else config.defaultRoute
  }

  // ----- the router -----

  lemma AliasesKnown(config: Config, route: Route, request: Request)
    requires forall alias :: alias in route.candidates ==> alias in config.models
    requires route.candidates != []
    ensures var aliases := Aliases(config, route, request);
            && aliases != [] && |aliases| <= route.maxFallbackHops + 1
            && (forall alias :: alias in aliases ==> alias in config.models)
            && (request.model.Some? && request.model.value in config.models ==> aliases[0] == request.model.value)
  {
  }

  lemma WalkPush(config: Config, route: Route, request: Request, first: string, aliases: seq<string>, n: nat)
    requires forall alias :: alias in aliases ==>
               alias in config.models && config.models[alias].provider in config.providers
    requires n < |aliases|
    ensures aliases[n] in config.models && config.models[aliases[n]].provider in config.providers
    ensures forall alias :: alias in aliases[..n] || alias in aliases[..n + 1] ==> alias in aliases
    ensures var alias := aliases[n];
            var (plans, rejected) := Walk(config, route, request, first, aliases[..n]);
            Walk(config, route, request, first, aliases[..n + 1])
            == match Judge(config, route, request, first, config.models[alias])
               case Reject(reason) => (plans, rejected + [Rejected(alias, reason)])
               case Accept(usable) =>
                 (plans + TargetPlans(config, route, request, alias, config.models[alias], usable, |plans|), rejected)
  {
    assert aliases[n] in aliases;
    assert aliases[..n + 1][..n] == aliases[..n];
    assert aliases[..n + 1][n] == aliases[n];
  }

  method Plan(config: Config, request: Request) returns (r: Planned)
    requires ValidConfig(config)
    ensures var name := RouteName(config, request);
            if name !in config.routes then r == NoRoute
            else
              var route := config.routes[name];
              var aliases := Aliases(config, route, request);
              && aliases != [] && (forall alias :: alias in aliases ==> alias in config.models)
              && var (plans, rejected) := Walk(config, route, request, config.models[aliases[0]].provider, aliases);
                 r == if plans == [] then NoTarget(rejected) else Plans(plans, rejected, route.maxTotalAttempts)
  {
    var name := RouteName(config, request);
    if name !in config.routes {
      return NoRoute;
    }
    var route := config.routes[name];
    var aliases := Aliases(config, route, request);
    AliasesKnown(config, route, request);
    var plans, rejected := WalkAll(config, route, request, aliases);
    r := if plans == [] then NoTarget(rejected) else Plans(plans, rejected, route.maxTotalAttempts);
  }

  method WalkAll(config: Config, route: Route, request: Request, aliases: seq<string>)
    returns (plans: seq<RoutePlan>, rejected: seq<Rejected>)
    requires aliases != []
    requires forall alias :: alias in aliases ==>
               alias in config.models && config.models[alias].provider in config.providers
    ensures (plans, rejected) == Walk(config, route, request, config.models[aliases[0]].provider, aliases)
  {
    plans, rejected := [], [];
    var firstProvider: Option<string> := None;
    ghost var first := config.models[aliases[0]].provider;
    for n := 0 to |aliases|
      invariant firstProvider == if n == 0 then None else Some(first)
      invariant forall alias :: alias in aliases[..n] ==> alias in aliases
      invariant (plans, rejected) == Walk(config, route, request, first, aliases[..n])
    {
      WalkPush(config, route, request, first, aliases, n);
      var alias := aliases[n];
      var target := config.models[alias];
      if firstProvider == None {
        firstProvider := Some(target.provider);
      }
      var judgement := JudgeTarget(config, route, request, firstProvider.value, target);
      match judgement
      case Reject(reason) => rejected := rejected + [Rejected(alias, reason)];
      case Accept(usable) => plans := AppendPlans(config, route, request, alias, target, usable, plans);
    }
    Full(aliases);
  }

  /** The checks as the loop makes them. */
  method JudgeTarget(config: Config, route: Route, request: Request, first: string, target: Target)
    returns (j: Judgement)
    requires target.provider in config.providers
    ensures j == Judge(config, route, request, first, target)
    ensures forall t :: (j.Accept? && t in j.transports) <==> Serves(config, route, request, first, target, t)
    ensures j.Accept? ==> 1 <= |j.transports| <= 2
    ensures j.Reject? ==> Fails(config, route, request, first, target, j.reason)
    ensures j.Reject? ==> forall r :: Place(r) < Place(j.reason) ==> !Fails(config, route, request, first, target, r)
  {
    AcceptedServes(config, route, request, first, target);
    RejectionIsFirst(config, route, request, first, target);
    var provider := config.providers[target.provider];
    if !route.allowCrossProvider && target.provider != first {
      return Reject(CrossProviderDisabled);
    }
    if request.tools && !target.tools {
      return Reject(ToolsUnsupported);
    }
    if RoutedEffort(config, request) !in target.efforts {
      return Reject(EffortUnsupported);
    }
    if request.providerState && !target.providerState {
      return Reject(ProviderStateUnsupported);
    }
    if request.providerState && target.provider != first {
      return Reject(ProviderStateNotPortable);
    }
    if request.structured && !target.structuredOutput {
      return Reject(StructuredOutputUnsupported);
    }
    if target.contextWindow.Some? && target.contextWindow.value != 0
       && request.estimatedTokens > target.contextWindow.value {
      return Reject(ContextWindowInsufficient);
    }
    var offered := ResolverPlans(config, provider.profile, target, request);
    if offered == None {
      return Reject(CapabilityMismatch);
    }
    var usable := Keep(offered.value, t => t in provider.transports);
    j := if usable == [] then Reject(TransportUnsupported) else Accept(usable);
  }

  /** One plan per usable transport. */
  method AppendPlans(config: Config, route: Route, request: Request, alias: string, target: Target,
                     usable: seq<Transport>, before: seq<RoutePlan>)
    returns (plans: seq<RoutePlan>)
    ensures plans == before + TargetPlans(config, route, request, alias, target, usable, |before|)
  {
    plans := before;
    Full(before);
    for index := 0 to |usable|
      invariant plans == before + TargetPlans(config, route, request, alias, target, usable, |before|)[..index]
    {
      var reason := if plans == [] then None else if index > 0 then Some(TransportFallback) else Some(ModelFallback);
      plans := plans
        + [RoutePlan(alias, target.provider, usable[index], ResolvedEffort(config, target, request), plans != [],
                     reason,
                                  route.fallbackOn, route.maxTotalAttempts)];
    }
    Full(TargetPlans(config, route, request, alias, target, usable, |before|));
  }
}
