/**
 The provider gateway: retries of one request plan nested in fallbacks over
 several plans, under one attempt budget shared by all of them.

 Providers, circuit breaker, cancellation and the run's own budget are an
 arbitrary script: `world.attempt(k)` says what happens to the k-th attempt.
 */
module Gateway {
  import opened Wrappers
  import opened Sequences

  datatype Category =
    | Configuration | InvalidRequest | Authentication | Permission | NotFoundCategory
    | RateLimit | Connection | Timeout | Server
    | ContextOverflow | ContentPolicy | Protocol | CancelledCategory | Budget | CircuitOpen | Unknown

  datatype ProviderError = ProviderError(category: Category, retryable: bool, safeToRetryBeforeOutput: bool)

  const BudgetExceeded: ProviderError := ProviderError(Budget, false, false)
  const CircuitIsOpen: ProviderError := ProviderError(CircuitOpen, false, false)
  const MissingAdapter: ProviderError := ProviderError(Protocol, true, true)
  const ErrorEventSeen: ProviderError := ProviderError(Protocol, true, true)

  datatype Event =
    | TextDelta(text: string)
    | ReasoningDelta(text: string)
    | ToolCall(callId: string)
    | ProviderState(data: string)
    | ResponseStarted
    | Usage
    | Finish(reason: string)
    | ErrorEvent

  /** Output that a caller has seen and that must not be produced again. */
  predicate Semantic(e: Event) {
    e.TextDelta? || e.ReasoningDelta? || e.ToolCall? || e.ProviderState?
  }

  predicate AnySemantic(events: seq<Event>) {
    exists i :: 0 <= i < |events| && Semantic(events[i])
  }

  datatype Ending = Ends | Fails(error: ProviderError) | IsCancelled

  /** What one attempt meets, in the order in which the gateway looks. */
  datatype Script = Script(cancelledBefore: bool, overRunBudget: bool, circuitOpen: bool, events: seq<Event>,
                           ending: Ending,
                           cancelledInDelay: bool)

  /** `attempt` by attempt number, `runBudgetLeft` by plan index, `adapter` by plan key. */
  datatype World = World(attempt: nat -> Script, runBudgetLeft: nat -> bool, adapter: string -> bool)

  datatype RequestPlan = RequestPlan(key: string, fallbackCategories: seq<Category>)

  const DefaultFallbacks: seq<Category> := [RateLimit, Connection, Timeout, Server, CircuitOpen]

  predicate FallbackAllowed(next: RequestPlan, error: ProviderError) {
    if next.fallbackCategories != [] then error.category in next.fallbackCategories
    else error.category in DefaultFallbacks
  }

  /** An event handed to the caller, and the attempt it came from. */
  datatype Emission = Emission(attempt: nat, event: Event)

  /** A plan taken up after a failure. */
  datatype Switch = Switch(plan: nat, error: ProviderError)

  /** `calls` counts the requests that reached an adapter. */
  datatype Trace = Trace(emitted: seq<Emission>, attempts: nat, budget: int, calls: nat, switches: seq<Switch>)

  datatype Verdict =
    | Succeeded
    | Raised(error: ProviderError, partial: bool)
    | Cancelled
    | FellThrough      // the retry loop ran out without a verdict
    | GuardRaised      // the budget check at the top of the plan loop
    | NoPlan           // the end of the plan loop without a failure to report
    | TailRaised       // the end of the plan loop with a failure left over

  // ----- one attempt -----

  /** The events before the first error event. */
  function Shown(events: seq<Event>): seq<Event> {
    if events == [] || events[0].ErrorEvent? then [] else [events[0]] + Shown(events[1..])
  }

  function EndingOf(s: Script): Ending {
    if Shown(s.events) != s.events then Fails(ErrorEventSeen) else s.ending
  }

  function Emitted(attempt: nat, events: seq<Event>): seq<Emission> {
    seq(|events|, i requires 0 <= i < |events| => Emission(attempt, events[i]))
  }

  /** The verdict of an attempt; `None` means that it is retried. */
  function AttemptVerdict(s: Script, attemptNo: nat, maxAttempts: int): Option<Verdict> {
    if s.cancelledBefore then Some(Cancelled)
    else if s.overRunBudget then Some(Raised(BudgetExceeded, false))
    else if s.circuitOpen then Some(Raised(CircuitIsOpen, false))
    else
      match EndingOf(s)
      case Ends => Some(Succeeded)
      case IsCancelled => Some(Cancelled)
      case Fails(error) =>
        var partial := AnySemantic(Shown(s.events));
        if !partial && error.retryable && error.safeToRetryBeforeOutput && attemptNo < maxAttempts then
          if s.cancelledInDelay then Some(Cancelled) else None
        else Some(Raised(error, partial))
  }

  predicate ReachesAdapter(s: Script) {
    !s.cancelledBefore && !s.overRunBudget && !s.circuitOpen
  }

  function AfterAttempt(t: Trace, s: Script): Trace {
    Trace(t.emitted + (if ReachesAdapter(s) then Emitted(t.attempts, Shown(s.events)) else []), t.attempts + 1,
          t.budget - 1,
          t.calls + (if ReachesAdapter(s) then 1 else 0), t.switches)
  }

  // ----- one plan -----

  function RunAttempts(world: World, t: Trace, attemptNo: nat, maxAttempts: int): (Trace, Verdict)
    decreases maxAttempts + 1 - attemptNo
  {
    if attemptNo > maxAttempts then (t, FellThrough)
    else if t.budget <= 0 then (t, Raised(BudgetExceeded, false))
    else
      var s := world.attempt(t.attempts);
      var t' := AfterAttempt(t, s);
      match AttemptVerdict(s, attemptNo, maxAttempts)
      case Some(v) => (t', v)
      case None => RunAttempts(world, t', attemptNo + 1, maxAttempts)
  }

  function RunCallSpec(world: World, plan: RequestPlan, t: Trace, maxAttempts: int): (Trace, Verdict) {
    if !world.adapter(plan.key) then (t, Raised(MissingAdapter, false)) else RunAttempts(world, t, 1, maxAttempts)
  }

  // ----- all plans -----

  function StreamFrom(world: World, plans: seq<RequestPlan>, i: nat, last: Option<Verdict>, t: Trace,
                      maxAttempts: int): (Trace, Verdict)
    requires i <= |plans| && (last.Some? ==> last.value.Raised?)
    decreases |plans| - i
  {
    if i == |plans|
       || (i > 0 && (last == None || last.value.partial || !FallbackAllowed(plans[i], last.value.error))) then
      (t, if last == None then NoPlan else TailRaised)
    else if t.budget <= 0 then (t, GuardRaised)
    else if !world.runBudgetLeft(i) then (t, Raised(BudgetExceeded, false))
    else
      var (t', v) := RunCallSpec(world, plans[i], t, maxAttempts);
      if !v.Raised? then (t', if v == Cancelled then Cancelled else Succeeded)
      else if i + 1 < |plans| && !v.partial && FallbackAllowed(plans[i + 1], v.error) then
        if t'.budget <= 0 then (t', Raised(BudgetExceeded, false))
        else StreamFrom(world, plans, i + 1, Some(v), t'.(switches := t'.switches + [Switch(i + 1, v.error)]),
                        maxAttempts)
      else (t', v)
  }

  function Start(budget: int): Trace {
    Trace([], 0, budget, 0, [])
  }

  function StreamSpec(world: World, plans: seq<RequestPlan>, budget: int, maxAttempts: int): (Trace, Verdict) {
    StreamFrom(world, plans, 0, None, Start(budget), maxAttempts)
  }

  // ----- the gateway -----

  class ProviderGateway {
    const world: World
    const maxAttempts: int
    var emitted: seq<Emission>
    var attempts: nat
    var attemptBudget: int
    var calls: nat
    ghost var switches: seq<Switch>

    constructor (world: World, maxAttempts: int)
      ensures this.world == world && this.maxAttempts == maxAttempts
    {
      this.world, this.maxAttempts := world, maxAttempts;
      emitted, attempts, attemptBudget, calls, switches := [], 0, 0, 0, [];
    }

    ghost function State(): Trace
      reads this
    {
      Trace(emitted, attempts, attemptBudget, calls, switches)
    }

    /** Passes the events of one attempt on, until an error event. */
    method Consume(events: seq<Event>, attempt: nat) returns (shown: seq<Event>, semanticOutputStarted: bool)
      modifies this`emitted
      ensures shown == Shown(events) && (semanticOutputStarted <==> AnySemantic(shown))
      ensures emitted == old(emitted) + Emitted(attempt, shown)
    {
      shown, semanticOutputStarted := [], false;
      Full(emitted);
      for i := 0 to |events|
        invariant shown == events[..i] && shown + Shown(events[i..]) == Shown(events)
        invariant semanticOutputStarted <==> AnySemantic(shown)
        invariant emitted == old(emitted) + Emitted(attempt, shown)
      {
        if events[i].ErrorEvent? {
          Full(shown);
          return;
        }
        ShownStep(events, i);
        EmittedPush(attempt, shown, events[i]);
        AnySemanticPush(shown, events[i]);
        if Semantic(events[i]) {
          semanticOutputStarted := true;
        }
        emitted := emitted + [Emission(attempt, events[i])];
        shown := shown + [events[i]];
      }
      Full(shown);
    }

    /** One attempt; `None` means that the delay before the next has passed. */
    method Attempt(attemptNo: nat) returns (verdict: Option<Verdict>)
      modifies this
      ensures State() == AfterAttempt(old(State()), world.attempt(old(attempts)))
      ensures verdict == AttemptVerdict(world.attempt(old(attempts)), attemptNo, maxAttempts)
    {
      var s := world.attempt(attempts);
      var attempt := attempts;
      Full(emitted);
      attemptBudget := attemptBudget - 1;
      attempts := attempts + 1;
      if s.cancelledBefore {
        return Some(Cancelled);
      }
      if s.overRunBudget {
        return Some(Raised(BudgetExceeded, false));
      }
      if s.circuitOpen {
        return Some(Raised(CircuitIsOpen, false));
      }
      calls := calls + 1;
      var shown, partial := Consume(s.events, attempt);
      var ending := if shown != s.events then Fails(ErrorEventSeen) else s.ending;
      match ending
      case Ends => verdict := Some(Succeeded);
      case IsCancelled => verdict := Some(Cancelled);
      case Fails(error) =>
        if !partial && error.retryable && error.safeToRetryBeforeOutput && attemptNo < maxAttempts {
          if s.cancelledInDelay {
            return Some(Cancelled);
          }
          return None;
        }
        verdict := Some(Raised(error, partial));
    }

    /** All attempts of one plan. */
    method RunCall(plan: RequestPlan) returns (verdict: Verdict)
      modifies this
      ensures (State(), verdict) == RunCallSpec(world, plan, old(State()), maxAttempts)
    {
      if !world.adapter(plan.key) {
        return Raised(MissingAdapter, false);
      }
      var attemptNo := 1;
      while attemptNo <= maxAttempts
        invariant RunAttempts(world, State(), attemptNo, maxAttempts)
                  == RunAttempts(world, old(State()), 1, maxAttempts)
        decreases maxAttempts + 1 - attemptNo
      {
        if attemptBudget <= 0 {
          return Raised(BudgetExceeded, false);
        }
        var end := Attempt(attemptNo);
        if end.Some? {
          return end.value;
        }
        attemptNo := attemptNo + 1;
      }
      verdict := FellThrough;
    }

    /** The plans in order, until one succeeds or its failure may not be answered by the next. */
    method Stream(plans: seq<RequestPlan>, budget: int) returns (verdict: Verdict)
      modifies this
      ensures (State(), verdict) == StreamSpec(world, plans, budget, maxAttempts)
    {
      emitted, attempts, attemptBudget, calls, switches := [], 0, budget, 0, [];
      var lastFailure: Option<Verdict> := None;
      var planIndex := 0;
      while planIndex < |plans|
        invariant planIndex <= |plans| && (lastFailure.Some? ==> lastFailure.value.Raised?)
        invariant StreamFrom(world, plans, planIndex, lastFailure, State(), maxAttempts)
                  == StreamSpec(world, plans, budget, maxAttempts)
      {
        if planIndex > 0
           && (lastFailure == None || lastFailure.value.partial
               || !FallbackAllowed(plans[planIndex], lastFailure.value.error)) {
          break;
        }
        if attemptBudget <= 0 {
          return GuardRaised;
        }
        if !world.runBudgetLeft(planIndex) {
          return Raised(BudgetExceeded, false);
        }
        var end := RunCall(plans[planIndex]);
        if !end.Raised? {
          return if end == Cancelled then Cancelled else Succeeded;
        }
        lastFailure := Some(end);
        if !(planIndex + 1 < |plans| && !end.partial && FallbackAllowed(plans[planIndex + 1], end.error)) {
          return end;
        }
        if attemptBudget <= 0 {
          return Raised(BudgetExceeded, false);
        }
        planIndex := planIndex + 1;
        switches := switches + [Switch(planIndex, end.error)];
      }
      verdict := if lastFailure == None then NoPlan else TailRaised;
    }
  }

  // ----- steps of the event loop -----

  lemma ShownStep(events: seq<Event>, i: nat)
    requires i < |events| && !events[i].ErrorEvent?
    requires events[..i] + Shown(events[i..]) == Shown(events)
    ensures events[..i + 1] + Shown(events[i + 1..]) == Shown(events)
  {
    assert events[i..][1..] == events[i + 1..];
    assert events[..i + 1] == events[..i] + [events[i]];
    Associates(events[..i], [events[i]], Shown(events[i + 1..]));
  }

  lemma EmittedPush(attempt: nat, events: seq<Event>, e: Event)
    ensures Emitted(attempt, events + [e]) == Emitted(attempt, events) + [Emission(attempt, e)]
  {
  }

  lemma AnySemanticPush(events: seq<Event>, e: Event)
    ensures AnySemantic(events + [e]) <==> AnySemantic(events) || Semantic(e)
  {
    var all := events + [e];
    assert all[|events|] == e;
    if AnySemantic(events) {
      var i :| 0 <= i < |events| && Semantic(events[i]);
      assert all[i] == events[i];
    }
  }
}
