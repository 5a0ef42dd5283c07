/**
 When an attempt is retried, when the next plan is taken up, and how a stream
 ends: exactly, in terms of what the attempts meet.
 */
module GatewayRetries {
  import opened Wrappers
  import opened Sequences
  import opened Gateway
  import GatewaySafety

  // ----- what an attempt meets -----

  /** Cancellation, the run's budget and the circuit let it through. */
  predicate Reaches(s: Script) {
    !s.cancelledBefore && !s.overRunBudget && !s.circuitOpen
  }

  /** The provider reports an error in the stream. */
  ghost predicate SeesError(s: Script) {
    exists i :: 0 <= i < |s.events| && s.events[i].ErrorEvent?
  }

  /** Output the caller cannot be shown twice. */
  predicate IsOutput(e: Event) {
    e.TextDelta? || e.ReasoningDelta? || e.ToolCall? || e.ProviderState?
  }

  /** Some of it arrives before any error. */
  ghost predicate ShowsOutput(s: Script) {
    exists i :: 0 <= i < |s.events| && IsOutput(s.events[i]) && forall j :: 0 <= j < i ==> !s.events[j].ErrorEvent?
  }

  /** The attempt fails; an error in the stream is a protocol error that may be retried. */
  ghost predicate FailsWith(s: Script, error: ProviderError) {
    if SeesError(s) then error == ProviderError(Protocol, true, true) else s.ending == Fails(error)
  }

  /** A failure that is worth another attempt: nothing was shown, and the error is transient. */
  ghost predicate Transient(s: Script) {
    && Reaches(s) && !ShowsOutput(s)
    && exists error :: FailsWith(s, error) && error.retryable && error.safeToRetryBeforeOutput
  }

  /** The attempt with this number is to be followed by another of the same plan. */
  ghost predicate Retried(s: Script, no: int, maxAttempts: int, budgetLeft: int) {
    Transient(s) && no < maxAttempts && !s.cancelledInDelay && budgetLeft > 0
  }

  // ----- events before an error -----

  lemma {:induction false} ShownIsPrefix(events: seq<Event>)
    ensures Shown(events) <= events
    ensures forall i :: 0 <= i < |Shown(events)| ==> !events[i].ErrorEvent?
    ensures |Shown(events)| < |events| ==> events[|Shown(events)|].ErrorEvent?
  {
    if events != [] && !events[0].ErrorEvent? {
      ShownIsPrefix(events[1..]);
      Consed(events[0], Shown(events[1..]));
      SplitFirst(events);
      assert forall i :: 0 < i < |events| ==> events[i] == events[1..][i - 1];
    }
  }

  lemma ErrorIsSeen(s: Script)
    ensures SeesError(s) <==> Shown(s.events) != s.events
    ensures ShowsOutput(s) <==> AnySemantic(Shown(s.events))
  {
    ShownIsPrefix(s.events);
    var n := |Shown(s.events)|;
    if SeesError(s) {
      var i :| 0 <= i < |s.events| && s.events[i].ErrorEvent?;
      assert i >= n;
    }
    if n == |s.events| {
      assert Shown(s.events) == s.events;
    }
    if ShowsOutput(s) {
      var i :| 0 <= i < |s.events| && IsOutput(s.events[i]) && forall j :: 0 <= j < i ==> !s.events[j].ErrorEvent?;
      assert i < n && Shown(s.events)[i] == s.events[i];
    }
    if AnySemantic(Shown(s.events)) {
      var i :| 0 <= i < n && Semantic(Shown(s.events)[i]);
      assert Shown(s.events)[i] == s.events[i] && IsOutput(s.events[i]);
    }
  }

  /** How the attempt that is not retried decides its plan. */
  ghost predicate Decides(s: Script, no: int, maxAttempts: int, v: Verdict) {
    if s.cancelledBefore then v == Cancelled
    else if s.overRunBudget then v == Raised(ProviderError(Budget, false, false), false)
    else if s.circuitOpen then v == Raised(ProviderError(CircuitOpen, false, false), false)
    else if !SeesError(s) && s.ending == Ends then v == Succeeded
    else if !SeesError(s) && s.ending == IsCancelled then v == Cancelled
    else if Transient(s) && no < maxAttempts then v == Cancelled
    else exists error :: FailsWith(s, error) && v == Raised(error, ShowsOutput(s))
  }

  lemma VerdictDecides(s: Script, no: nat, maxAttempts: int)
    ensures var v := AttemptVerdict(s, no, maxAttempts);
            && (v == None <==> Transient(s) && no < maxAttempts && !s.cancelledInDelay)
            && (v.Some? ==> Decides(s, no, maxAttempts, v.value))
  {
    ErrorIsSeen(s);
    if Reaches(s) {
      match EndingOf(s)
      case Ends => assert !Transient(s);
      case IsCancelled => assert !Transient(s);
      case Fails(error) =>
        assert FailsWith(s, error);
        assert Transient(s) <==> !ShowsOutput(s) && error.retryable && error.safeToRetryBeforeOutput;
    }
  }

  // ----- the attempts of one plan -----

  /** The attempt numbered `a` over all plans, of a plan whose attempt `no` would be the next after `t`. */
  ghost predicate RetriedAt(world: World, t: Trace, no: nat, maxAttempts: int, a: nat) {
    Retried(world.attempt(a), no + a - t.attempts, maxAttempts, t.budget - (a - t.attempts) - 1)
  }

  /** The attempts of a plan: each is followed by another exactly if it is retried, and the last one decides. */
  ghost predicate AttemptsAs(world: World, t: Trace, no: nat, maxAttempts: int, t': Trace, v: Verdict) {
    && t'.attempts >= t.attempts && t'.budget == t.budget - (t'.attempts - t.attempts)
    && (t'.attempts > t.attempts <==> no <= maxAttempts && t.budget > 0)
    && (forall a: nat :: t.attempts <= a < t'.attempts ==>
          (RetriedAt(world, t, no, maxAttempts, a) <==> a + 1 < t'.attempts))
    && if t'.attempts == t.attempts
       then v == if no > maxAttempts then FellThrough else Raised(ProviderError(Budget, false, false), false)
       else LastDecides(world.attempt(t'.attempts - 1), no + (t'.attempts - 1 - t.attempts), maxAttempts, v)
  }

  /** The verdict of the last attempt; one that would be retried is last only for want of budget. */
  ghost predicate LastDecides(last: Script, no: int, maxAttempts: int, v: Verdict) {
    if Transient(last) && no < maxAttempts && !last.cancelledInDelay
    then v == Raised(ProviderError(Budget, false, false), false)
    else Decides(last, no, maxAttempts, v)
  }

  lemma {:induction false} AttemptsFollowRule(world: World, t: Trace, no: nat, maxAttempts: int)
    ensures var (t', v) := RunAttempts(world, t, no, maxAttempts); AttemptsAs(world, t, no, maxAttempts, t', v)
    decreases maxAttempts + 1 - no
  {
    if no <= maxAttempts && t.budget > 0 {
      var s := world.attempt(t.attempts);
      VerdictDecides(s, no, maxAttempts);
      if AttemptVerdict(s, no, maxAttempts) == None {
        var next := AfterAttempt(t, s);
        AttemptsFollowRule(world, next, no + 1, maxAttempts);
        var (t', v) := RunAttempts(world, next, no + 1, maxAttempts);
        AttemptsCons(world, t, no, maxAttempts, next, t', v);
      } else {
        LastAttempt(world, t, no, maxAttempts, AfterAttempt(t, s));
      }
    }
  }

  lemma LastAttempt(world: World, t: Trace, no: nat, maxAttempts: int, t': Trace)
    requires t'.attempts == t.attempts + 1
    requires var s := world.attempt(t.attempts); !(Transient(s) && no < maxAttempts && !s.cancelledInDelay)
    ensures forall a: nat :: t.attempts <= a < t'.attempts ==> !RetriedAt(world, t, no, maxAttempts, a)
  {
    assert !RetriedAt(world, t, no, maxAttempts, t.attempts);
  }

  /** One more attempt in front. */
  lemma AttemptsCons(world: World, t: Trace, no: nat, maxAttempts: int, next: Trace, t': Trace, v: Verdict)
    requires no <= maxAttempts && t.budget > 0
    requires next.attempts == t.attempts + 1 && next.budget == t.budget - 1
    requires var s := world.attempt(t.attempts); Transient(s) && no < maxAttempts && !s.cancelledInDelay
    requires AttemptsAs(world, next, no + 1, maxAttempts, t', v)
    ensures AttemptsAs(world, t, no, maxAttempts, t', v)
  {
    forall a: nat | t.attempts <= a < t'.attempts
      ensures RetriedAt(world, t, no, maxAttempts, a) <==> a + 1 < t'.attempts
    {
      if a > t.attempts {
        assert RetriedAt(world, next, no + 1, maxAttempts, a) <==> RetriedAt(world, t, no, maxAttempts, a);
      }
    }
  }

  /** Without an adapter a plan fails at once, in a way the next plan may answer. */
  lemma CallFollowsRule(world: World, plan: RequestPlan, t: Trace, maxAttempts: int)
    ensures var (t', v) := RunCallSpec(world, plan, t, maxAttempts);
            if world.adapter(plan.key) then AttemptsAs(world, t, 1, maxAttempts, t', v)
            else t' == t && v == Raised(ProviderError(Protocol, true, true), false)
  {
    AttemptsFollowRule(world, t, 1, maxAttempts);
  }

  // ----- the stream -----

  /** The next plan may answer this failure: by its own list of categories, or by the common one. */
  predicate Answers(next: RequestPlan, error: ProviderError) {
    if next.fallbackCategories == [] then error.category in {RateLimit, Connection, Timeout, Server, CircuitOpen}
    else error.category in next.fallbackCategories
  }

  /** What the caller of the stream gets for the verdict of the last plan. */
  function Reported(v: Verdict): Verdict {
    if v == FellThrough then Succeeded else v
  }

  /**
   One turn of the plan loop. The next plan is taken up if and only if the plan
   failed without visible output in a way the next one answers, and attempts are
   left; otherwise the stream ends with this plan.
   */
  lemma PlanTurnIff(world: World, plans: seq<RequestPlan>, i: nat, last: Option<Verdict>, t: Trace, maxAttempts: int,
                    budget: int)
    requires GatewaySafety.Reaching(plans, i, last, t, budget)
    requires i < |plans| && t.budget > 0 && world.runBudgetLeft(i)
    ensures var (t', v) := RunCallSpec(world, plans[i], t, maxAttempts);
            var answered := v.Raised? && !v.partial && i + 1 < |plans| && Answers(plans[i + 1], v.error);
            var (end, verdict) := StreamFrom(world, plans, i, last, t, maxAttempts);
            && (|end.switches| > |t.switches| <==> answered && t'.budget > 0)
            && (answered && t'.budget > 0 ==>
                  && end.switches[|t.switches|] == Switch(i + 1, v.error)
                  && (end, verdict) == StreamFrom(world, plans, i + 1, Some(v),
                                                  t'.(switches := t.switches + [Switch(i + 1, v.error)]), maxAttempts))
            && (answered && t'.budget <= 0 ==>
                  end == t' && verdict == Raised(ProviderError(Budget, false, false), false))
            && (!answered ==> end == t' && verdict == Reported(v))
  {
    GatewaySafety.CallSound(world, plans[i], t, maxAttempts, budget);
    var (t', v) := RunCallSpec(world, plans[i], t, maxAttempts);
    if v.Raised? && !v.partial && i + 1 < |plans| && Answers(plans[i + 1], v.error) && t'.budget > 0 {
      var switched := t'.(switches := t'.switches + [Switch(i + 1, v.error)]);
      SwitchesGrow(world, plans, i + 1, Some(v), switched, maxAttempts);
      Pushed(t'.switches, Switch(i + 1, v.error));
    }
  }

  lemma {:induction false} AttemptsSwitchNothing(world: World, t: Trace, no: nat, maxAttempts: int)
    ensures RunAttempts(world, t, no, maxAttempts).0.switches == t.switches
    decreases maxAttempts + 1 - no
  {
    if no <= maxAttempts && t.budget > 0 {
      AttemptsSwitchNothing(world, AfterAttempt(t, world.attempt(t.attempts)), no + 1, maxAttempts);
    }
  }

  lemma {:induction false} SwitchesGrow(world: World, plans: seq<RequestPlan>, i: nat, last: Option<Verdict>, t: Trace,
                                        maxAttempts: int)
    requires i <= |plans| && (last.Some? ==> last.value.Raised?)
    ensures t.switches <= StreamFrom(world, plans, i, last, t, maxAttempts).0.switches
    decreases |plans| - i
  {
    if i < |plans| {
      AttemptsSwitchNothing(world, t, 1, maxAttempts);
      var (t', v) := RunCallSpec(world, plans[i], t, maxAttempts);
      if v.Raised? {
        SwitchesGrow(world, plans, i + 1, Some(v), t'.(switches := t'.switches + [Switch(i + 1, v.error)]),
                     maxAttempts);
      }
    }
  }

  /**
   Transient failures are ridden out: if the first attempt that is not retried
   ends normally, within both limits, the stream succeeds with it.
   */
  lemma TransientFailuresAreRiddenOut(world: World, plans: seq<RequestPlan>, budget: nat, maxAttempts: nat, n: nat)
    requires plans != [] && world.adapter(plans[0].key) && world.runBudgetLeft(0)
    requires n < maxAttempts && n < budget
    requires forall a: nat :: a < n ==> Transient(world.attempt(a)) && !world.attempt(a).cancelledInDelay
    requires Reaches(world.attempt(n)) && !SeesError(world.attempt(n)) && world.attempt(n).ending == Ends
    ensures var (t, v) := StreamSpec(world, plans, budget, maxAttempts); v == Succeeded && t.attempts == n + 1
  {
    var t := Start(budget);
    AttemptsFollowRule(world, t, 1, maxAttempts);
    GatewaySafety.StartReaches(plans, budget);
    var (t', v) := RunAttempts(world, t, 1, maxAttempts);
    var m: nat := t'.attempts - 1;
    assert !RetriedAt(world, t, 1, maxAttempts, m);
    assert !RetriedAt(world, t, 1, maxAttempts, n);
    assert m >= n;
    assert m == n;
    assert LastDecides(world.attempt(n), 1 + n, maxAttempts, v);
  }

  // ----- what the caller is shown -----

  /** The number of events before the first error event. */
  function BeforeError(events: seq<Event>): (n: nat)
    ensures n <= |events|
    ensures forall i :: 0 <= i < n ==> !events[i].ErrorEvent?
    ensures n < |events| ==> events[n].ErrorEvent?
  {
    if events == [] || events[0].ErrorEvent? then 0 else 1 + BeforeError(events[1..])
  }

  /** What an attempt hands over: if it reaches the provider, the events before an error, under its number. */
  function HandedOver(s: Script, attempt: nat): seq<Emission> {
    if Reaches(s)
      then seq(BeforeError(s.events), i requires 0 <= i < BeforeError(s.events) => Emission(attempt, s.events[i]))
    else []
  }

  /** What the first `n` attempts hand over. */
  function AllHandedOver(world: World, n: nat): seq<Emission> {
    if n == 0 then [] else AllHandedOver(world, n - 1) + HandedOver(world.attempt(n - 1), n - 1)
  }

  /** How many of the first `n` attempts reach a provider. */
  function Reached(world: World, n: nat): nat {
    if n == 0 then 0 else Reached(world, n - 1) + if Reaches(world.attempt(n - 1)) then 1 else 0
  }

  /** The trace has exactly what the attempts handed over. */
  predicate Faithful(world: World, t: Trace) {
    t.emitted == AllHandedOver(world, t.attempts) && t.calls == Reached(world, t.attempts)
  }

  lemma AttemptIsFaithful(world: World, t: Trace)
    requires Faithful(world, t)
    ensures Faithful(world, AfterAttempt(t, world.attempt(t.attempts)))
  {
    var s := world.attempt(t.attempts);
    ShownIsPrefix(s.events);
    assert |Shown(s.events)| == BeforeError(s.events);
    assert Reaches(s) ==> Emitted(t.attempts, Shown(s.events)) == HandedOver(s, t.attempts);
  }

  lemma {:induction false} AttemptsAreFaithful(world: World, t: Trace, no: nat, maxAttempts: int)
    requires Faithful(world, t)
    ensures Faithful(world, RunAttempts(world, t, no, maxAttempts).0)
    decreases maxAttempts + 1 - no
  {
    if no <= maxAttempts && t.budget > 0 {
      AttemptIsFaithful(world, t);
      AttemptsAreFaithful(world, AfterAttempt(t, world.attempt(t.attempts)), no + 1, maxAttempts);
    }
  }

  lemma CallIsFaithful(world: World, plan: RequestPlan, t: Trace, maxAttempts: int)
    requires Faithful(world, t)
    ensures Faithful(world, RunCallSpec(world, plan, t, maxAttempts).0)
  {
    AttemptsAreFaithful(world, t, 1, maxAttempts);
  }

  lemma SwitchIsFaithful(world: World, t: Trace, switches: seq<Switch>)
    requires Faithful(world, t)
    ensures Faithful(world, t.(switches := switches))
  {
  }

  lemma {:induction false} PlansAreFaithful(world: World, plans: seq<RequestPlan>, i: nat, last: Option<Verdict>,
                                            t: Trace, maxAttempts: int)
    requires i <= |plans| && (last.Some? ==> last.value.Raised?) && Faithful(world, t)
    ensures Faithful(world, StreamFrom(world, plans, i, last, t, maxAttempts).0)
    decreases |plans| - i
  {
    if i < |plans| {
      CallIsFaithful(world, plans[i], t, maxAttempts);
      var (t', v) := RunCallSpec(world, plans[i], t, maxAttempts);
      if v.Raised? {
        var switches := t'.switches + [Switch(i + 1, v.error)];
        SwitchIsFaithful(world, t', switches);
        PlansAreFaithful(world, plans, i + 1, Some(v), t'.(switches := switches), maxAttempts);
      }
    }
  }

  /** The caller is shown exactly the events of the attempts, each up to its first error, in their order. */
  lemma StreamIsFaithful(world: World, plans: seq<RequestPlan>, budget: int, maxAttempts: int)
    ensures var t := StreamSpec(world, plans, budget, maxAttempts).0;
            t.emitted == AllHandedOver(world, t.attempts) && t.calls == Reached(world, t.attempts)
  {
    PlansAreFaithful(world, plans, 0, None, Start(budget), maxAttempts);
  }
}
