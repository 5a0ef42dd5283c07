/**
 What the gateway promises, whatever the providers do: visible output comes from
 one attempt only, and that attempt is the last; the attempt budget is never
 exceeded; a later plan is tried only after an allowed failure without visible
 output; and the defensive exits of the plan loop are dead code.
 */
module GatewaySafety {
  import opened Wrappers
  import opened Sequences
  import opened Gateway

  // ----- an invariant of traces -----

  /** Nothing visible was shown. */
  ghost predicate Invisible(emitted: seq<Emission>) {
    forall i :: 0 <= i < |emitted| ==> !Semantic(emitted[i].event)
  }

  /** Emissions are numbered by the attempts made so far, in order. */
  ghost predicate Numbered(t: Trace) {
    && (forall i :: 0 <= i < |t.emitted| ==> t.emitted[i].attempt < t.attempts)
    && (forall i, j :: 0 <= i < j < |t.emitted| ==> t.emitted[i].attempt <= t.emitted[j].attempt)
  }

  /** The budget is spent attempt by attempt. */
  predicate Accounted(t: Trace, budget: int) {
    t.attempts + t.budget == budget && t.budget >= 0 && t.calls <= t.attempts
  }

  /** Only the last attempt has shown visible output. */
  ghost predicate OneSource(t: Trace) {
    forall i :: 0 <= i < |t.emitted| && Semantic(t.emitted[i].event) ==> t.emitted[i].attempt + 1 == t.attempts
  }

  ghost predicate Sound(t: Trace, budget: int) {
    Numbered(t) && Accounted(t, budget)
  }

  // ----- one attempt -----

  lemma EmittedFacts(attempt: nat, events: seq<Event>)
    ensures forall i :: 0 <= i < |events| ==> Emitted(attempt, events)[i] == Emission(attempt, events[i])
    ensures !AnySemantic(events) ==> Invisible(Emitted(attempt, events))
  {
  }

  /** An attempt continues a trace that has shown nothing visible. */
  lemma AttemptSound(t: Trace, s: Script, budget: int)
    requires Sound(t, budget) && Invisible(t.emitted) && t.budget > 0
    ensures var t' := AfterAttempt(t, s);
            Sound(t', budget) && OneSource(t') && t'.switches == t.switches && t.emitted <= t'.emitted
    ensures !(ReachesAdapter(s) && AnySemantic(Shown(s.events))) ==> Invisible(AfterAttempt(t, s).emitted)
  {
    var t' := AfterAttempt(t, s);
    var more := if ReachesAdapter(s) then Emitted(t.attempts, Shown(s.events)) else [];
    EmittedFacts(t.attempts, Shown(s.events));
    assert t'.emitted == t.emitted + more;
    assert forall i :: |t.emitted| <= i < |t'.emitted| ==> t'.emitted[i] == more[i - |t.emitted|];
    assert forall i :: 0 <= i < |t.emitted| ==> t'.emitted[i] == t.emitted[i];
  }

  lemma VerdictTellsOutput(s: Script, attemptNo: nat, maxAttempts: int)
    ensures var v := AttemptVerdict(s, attemptNo, maxAttempts);
            (v == None || (v.value.Raised? && !v.value.partial)) ==>
                !(ReachesAdapter(s) && AnySemantic(Shown(s.events)))
    ensures AttemptVerdict(s, attemptNo, maxAttempts) == None ==> attemptNo < maxAttempts
  {
  }

  // ----- one plan -----

  /** What one plan does to a trace without visible output. */
  ghost predicate PlanSound(t: Trace, t': Trace, v: Verdict, budget: int) {
    && Sound(t', budget) && OneSource(t') && t'.switches == t.switches && t.emitted <= t'.emitted
       && t.attempts <= t'.attempts
    && (v.Raised? && !v.partial ==> Invisible(t'.emitted))
    && (v == Succeeded || v.Raised? || v == Cancelled || v == FellThrough)
  }

  lemma {:induction false} AttemptsSound(world: World, t: Trace, attemptNo: nat, maxAttempts: int, budget: int)
    requires Sound(t, budget) && Invisible(t.emitted) && attemptNo >= 1
    ensures var (t', v) := RunAttempts(world, t, attemptNo, maxAttempts);
            && PlanSound(t, t', v, budget)
            && (v == FellThrough <==> attemptNo > maxAttempts)
            && t'.attempts - t.attempts <= (if attemptNo > maxAttempts then 0 else maxAttempts + 1 - attemptNo)
    decreases maxAttempts + 1 - attemptNo
  {
    if attemptNo <= maxAttempts && t.budget > 0 {
      var s := world.attempt(t.attempts);
      AttemptSound(t, s, budget);
      VerdictTellsOutput(s, attemptNo, maxAttempts);
      if AttemptVerdict(s, attemptNo, maxAttempts) == None {
        AttemptsSound(world, AfterAttempt(t, s), attemptNo + 1, maxAttempts, budget);
      }
    }
  }

  lemma CallSound(world: World, plan: RequestPlan, t: Trace, maxAttempts: int, budget: int)
    requires Sound(t, budget) && Invisible(t.emitted)
    ensures var (t', v) := RunCallSpec(world, plan, t, maxAttempts);
            && PlanSound(t, t', v, budget)
            && (v == FellThrough ==> maxAttempts < 1)
            && t'.attempts - t.attempts <= (if maxAttempts < 1 then 0 else maxAttempts)
  {
    AttemptsSound(world, t, 1, maxAttempts, budget);
  }

  // ----- all plans -----

  /** The plans were taken up one after the other, each after a failure it answers. */
  ghost predicate SwitchesLegal(plans: seq<RequestPlan>, switches: seq<Switch>) {
    && |switches| < Max(1, |plans|)
    && forall k :: 0 <= k < |switches| ==>
         switches[k].plan == k + 1 && k + 1 < |plans| && FallbackAllowed(plans[k + 1], switches[k].error)
  }

  function Max(a: int, b: int): int {
    if a >= b then a else b
  }

  /** The state of the plan loop when plan `i` comes up. */
  ghost predicate Reaching(plans: seq<RequestPlan>, i: nat, last: Option<Verdict>, t: Trace, budget: int) {
    && i <= |plans| && (last.Some? ==> last.value.Raised?)
    && Sound(t, budget) && Invisible(t.emitted)
    && |t.switches| == i && SwitchesLegal(plans, t.switches)
    && (if i == 0 then last == None && t == Start(budget)
        else i < |plans| && last.Some? && !last.value.partial && FallbackAllowed(plans[i], last.value.error)
             && t.budget > 0)
  }

  /** The promises of a whole stream. */
  ghost predicate StreamSound(plans: seq<RequestPlan>, t: Trace, budget: int) {
    Sound(t, budget) && OneSource(t) && SwitchesLegal(plans, t.switches)
  }

  lemma SwitchPush(plans: seq<RequestPlan>, switches: seq<Switch>, i: nat, error: ProviderError)
    requires SwitchesLegal(plans, switches) && |switches| == i && i + 1 < |plans|
             && FallbackAllowed(plans[i + 1], error)
    ensures SwitchesLegal(plans, switches + [Switch(i + 1, error)])
  {
  }

  /** Whether the plan loop goes on to the next plan, and with what. */
  predicate GoesOn(plans: seq<RequestPlan>, i: nat, v: Verdict, t: Trace) {
    v.Raised? && i + 1 < |plans| && !v.partial && FallbackAllowed(plans[i + 1], v.error) && t.budget > 0
  }

  function Switched(t: Trace, i: nat, v: Verdict): Trace
    requires v.Raised?
  {
    t.(switches := t.switches + [Switch(i + 1, v.error)])
  }

  /** One turn of the plan loop. */
  lemma PlanTurn(world: World, plans: seq<RequestPlan>, i: nat, last: Option<Verdict>, t: Trace, maxAttempts: int,
                 budget: int)
    requires Reaching(plans, i, last, t, budget) && i < |plans| && t.budget > 0 && world.runBudgetLeft(i)
    ensures var (t', v) := RunCallSpec(world, plans[i], t, maxAttempts);
            && StreamSound(plans, t', budget)
            && (GoesOn(plans, i, v, t') ==>
                  && Reaching(plans, i + 1, Some(v), Switched(t', i, v), budget)
                  && StreamFrom(world, plans, i, last, t, maxAttempts)
                     == StreamFrom(world, plans, i + 1, Some(v), Switched(t', i, v), maxAttempts))
            && (!GoesOn(plans, i, v, t') ==>
                  && StreamFrom(world, plans, i, last, t, maxAttempts).0 == t'
                  && StreamFrom(world, plans, i, last, t, maxAttempts).1
                     in {Succeeded, Cancelled, v, Raised(BudgetExceeded, false)})
  {
    CallSound(world, plans[i], t, maxAttempts, budget);
    var (t', v) := RunCallSpec(world, plans[i], t, maxAttempts);
    if GoesOn(plans, i, v, t') {
      SwitchPush(plans, t'.switches, i, v.error);
    }
  }

  lemma {:induction false} PlansSound(world: World, plans: seq<RequestPlan>, i: nat, last: Option<Verdict>, t: Trace,
                                      maxAttempts: int, budget: int)
    requires Reaching(plans, i, last, t, budget)
    ensures StreamSound(plans, StreamFrom(world, plans, i, last, t, maxAttempts).0, budget)
    decreases |plans| - i
  {
    if i < |plans| && t.budget > 0 && world.runBudgetLeft(i) {
      PlanTurn(world, plans, i, last, t, maxAttempts, budget);
      var (t', v) := RunCallSpec(world, plans[i], t, maxAttempts);
      if GoesOn(plans, i, v, t') {
        PlansSound(world, plans, i + 1, Some(v), Switched(t', i, v), maxAttempts, budget);
      }
    }
  }

  lemma {:induction false} AttemptsDecide(world: World, t: Trace, attemptNo: nat, maxAttempts: int)
    ensures var v := RunAttempts(world, t, attemptNo, maxAttempts).1;
            v.Succeeded? || v.Raised? || v.Cancelled? || v.FellThrough?
    decreases maxAttempts + 1 - attemptNo
  {
    if attemptNo <= maxAttempts && t.budget > 0
       && AttemptVerdict(world.attempt(t.attempts), attemptNo, maxAttempts) == None {
      AttemptsDecide(world, AfterAttempt(t, world.attempt(t.attempts)), attemptNo + 1, maxAttempts);
    }
  }

  /** Which exits of the plan loop are reached. */
  lemma {:induction false} PlansDecide(world: World, plans: seq<RequestPlan>, i: nat, last: Option<Verdict>, t: Trace,
                                       maxAttempts: int, budget: int)
    requires Reaching(plans, i, last, t, budget)
    ensures var v := StreamFrom(world, plans, i, last, t, maxAttempts).1;
            && (v == NoPlan <==> plans == [])
            && (v == GuardRaised <==> plans != [] && t.budget <= 0)
            && v != TailRaised && v != FellThrough
    decreases |plans| - i
  {
    if i < |plans| && t.budget > 0 && world.runBudgetLeft(i) {
      PlanTurn(world, plans, i, last, t, maxAttempts, budget);
      AttemptsDecide(world, t, 1, maxAttempts);
      var (t', v) := RunCallSpec(world, plans[i], t, maxAttempts);
      if GoesOn(plans, i, v, t') {
        PlansDecide(world, plans, i + 1, Some(v), Switched(t', i, v), maxAttempts, budget);
      }
    }
  }

  lemma StartReaches(plans: seq<RequestPlan>, budget: nat)
    ensures Reaching(plans, 0, None, Start(budget), budget)
  {
  }

  /**
   For every behaviour of the providers: at most the budget of attempts and of
   adapter calls, fallbacks only where allowed, and visible output only from the attempt that was made last.
   The missing-plan error and the budget check at the top of the plan loop are
   reached exactly for an empty list of plans and for a budget of zero or less;
   the raise after the loop is never reached.
   */
  lemma StreamIsSound(world: World, plans: seq<RequestPlan>, budget: nat, maxAttempts: int)
    ensures var (t, v) := StreamSpec(world, plans, budget, maxAttempts);
            && StreamSound(plans, t, budget)
            && t.attempts <= budget && t.calls <= budget
            && (v == NoPlan <==> plans == [])
            && (v == GuardRaised <==> plans != [] && budget == 0)
            && v != TailRaised && v != FellThrough
  {
    StartReaches(plans, budget);
    PlansSound(world, plans, 0, None, Start(budget), maxAttempts, budget);
    PlansDecide(world, plans, 0, None, Start(budget), maxAttempts, budget);
  }

  // ----- attempts for each plan -----

  /** `n` times `m`. */
  function Times(n: nat, m: nat): nat {
    if n == 0 then 0 else Times(n - 1, m) + m
  }

  lemma {:induction false} TimesIsProduct(n: nat, m: nat)
    ensures Times(n, m) == n * m
  {
    if n > 0 {
      TimesIsProduct(n - 1, m);
      assert n * m == (n - 1) * m + m;
    }
  }

  lemma {:induction false} AttemptsBounded(world: World, t: Trace, attemptNo: nat, maxAttempts: nat)
    requires attemptNo <= maxAttempts + 1
    ensures RunAttempts(world, t, attemptNo, maxAttempts).0.attempts <= t.attempts + (maxAttempts + 1 - attemptNo)
    decreases maxAttempts + 1 - attemptNo
  {
    if attemptNo <= maxAttempts && t.budget > 0
       && AttemptVerdict(world.attempt(t.attempts), attemptNo, maxAttempts) == None {
      AttemptsBounded(world, AfterAttempt(t, world.attempt(t.attempts)), attemptNo + 1, maxAttempts);
    }
  }

  lemma {:induction false} PlansBounded(world: World, plans: seq<RequestPlan>, i: nat, last: Option<Verdict>, t: Trace,
                                        maxAttempts: nat)
    requires i <= |plans| && (last.Some? ==> last.value.Raised?)
    ensures StreamFrom(world, plans, i, last, t, maxAttempts).0.attempts <= t.attempts + Times(|plans| - i, maxAttempts)
    decreases |plans| - i
  {
    if i < |plans| && t.budget > 0 && world.runBudgetLeft(i) {
      AttemptsBounded(world, t, 1, maxAttempts);
      var (t', v) := RunCallSpec(world, plans[i], t, maxAttempts);
      if GoesOn(plans, i, v, t') {
        PlansBounded(world, plans, i + 1, Some(v), Switched(t', i, v), maxAttempts);
      }
    }
  }

  /** Each plan is attempted at most `maxAttempts` times. */
  lemma StreamAttemptsBounded(world: World, plans: seq<RequestPlan>, budget: nat, maxAttempts: nat)
    ensures StreamSpec(world, plans, budget, maxAttempts).0.attempts <= |plans| * maxAttempts
  {
    PlansBounded(world, plans, 0, None, Start(budget), maxAttempts);
    TimesIsProduct(|plans|, maxAttempts);
  }

  // ----- visible output -----

  /** Two visible events always come from the same attempt. */
  lemma VisibleOutputIsNeverRestarted(world: World, plans: seq<RequestPlan>, budget: nat, maxAttempts: int, i: nat,
                                      j: nat)
    requires var t := StreamSpec(world, plans, budget, maxAttempts).0;
             i < |t.emitted| && j < |t.emitted| && Semantic(t.emitted[i].event) && Semantic(t.emitted[j].event)
    ensures var t := StreamSpec(world, plans, budget, maxAttempts).0;
            t.emitted[i].attempt == t.emitted[j].attempt == t.attempts - 1
  {
    StreamIsSound(world, plans, budget, maxAttempts);
  }

  // ----- a stream that succeeds -----

  /** The emissions of the last attempt. */
  ghost predicate EndsWith(t: Trace, s: Script) {
    && t.attempts > 0
    && |Shown(s.events)| <= |t.emitted|
    && t.emitted[|t.emitted| - |Shown(s.events)|..] == Emitted(t.attempts - 1, Shown(s.events))
  }

  lemma AttemptEndsWith(t: Trace, s: Script)
    requires ReachesAdapter(s)
    ensures EndsWith(AfterAttempt(t, s), s)
  {
    DropDrop(AfterAttempt(t, s).emitted, |t.emitted|, 0);
    assert AfterAttempt(t, s).emitted[|t.emitted|..] == Emitted(t.attempts, Shown(s.events));
  }

  lemma {:induction false} AttemptsComplete(world: World, t: Trace, attemptNo: nat, maxAttempts: int)
    ensures var (t', v) := RunAttempts(world, t, attemptNo, maxAttempts);
            v == Succeeded ==>
              && t'.attempts > 0 && ReachesAdapter(world.attempt(t'.attempts - 1))
              && world.attempt(t'.attempts - 1).ending == Ends
                 && Shown(world.attempt(t'.attempts - 1).events) == world.attempt(t'.attempts - 1).events
              && EndsWith(t', world.attempt(t'.attempts - 1))
    decreases maxAttempts + 1 - attemptNo
  {
    if attemptNo <= maxAttempts && t.budget > 0 {
      var s := world.attempt(t.attempts);
      if AttemptVerdict(s, attemptNo, maxAttempts) == None {
        AttemptsComplete(world, AfterAttempt(t, s), attemptNo + 1, maxAttempts);
      } else if AttemptVerdict(s, attemptNo, maxAttempts) == Some(Succeeded) {
        AttemptEndsWith(t, s);
      }
    }
  }

  /** What a successful stream has handed over. */
  ghost predicate Delivered(world: World, t: Trace) {
    && t.attempts > 0
    && var s := world.attempt(t.attempts - 1);
       && ReachesAdapter(s) && s.ending == Ends && Shown(s.events) == s.events && EndsWith(t, s)
  }

  lemma {:induction false} PlansComplete(world: World, plans: seq<RequestPlan>, i: nat, last: Option<Verdict>, t: Trace,
                                         maxAttempts: int)
    requires i <= |plans| && (last.Some? ==> last.value.Raised?) && maxAttempts >= 1
    ensures var (t', v) := StreamFrom(world, plans, i, last, t, maxAttempts); v == Succeeded ==> Delivered(world, t')
    decreases |plans| - i
  {
    if i < |plans| && t.budget > 0 && world.runBudgetLeft(i) {
      AttemptsComplete(world, t, 1, maxAttempts);
      AttemptsDecide(world, t, 1, maxAttempts);
      RetryLoopDecides(world, t, 1, maxAttempts);
      var (t', v) := RunCallSpec(world, plans[i], t, maxAttempts);
      if GoesOn(plans, i, v, t') {
        PlansComplete(world, plans, i + 1, Some(v), Switched(t', i, v), maxAttempts);
      }
    }
  }

  lemma {:induction false} RetryLoopDecides(world: World, t: Trace, attemptNo: nat, maxAttempts: int)
    requires attemptNo <= maxAttempts
    ensures RunAttempts(world, t, attemptNo, maxAttempts).1 != FellThrough
    decreases maxAttempts + 1 - attemptNo
  {
    if t.budget > 0 && AttemptVerdict(world.attempt(t.attempts), attemptNo, maxAttempts) == None {
      RetryLoopDecides(world, AfterAttempt(t, world.attempt(t.attempts)), attemptNo + 1, maxAttempts);
    }
  }

  /** Success means that the last attempt ran to its end and every event of it was handed over. */
  lemma SuccessIsComplete(world: World, plans: seq<RequestPlan>, budget: nat, maxAttempts: int)
    requires maxAttempts >= 1 && StreamSpec(world, plans, budget, maxAttempts).1 == Succeeded
    ensures Delivered(world, StreamSpec(world, plans, budget, maxAttempts).0)
  {
    PlansComplete(world, plans, 0, None, Start(budget), maxAttempts);
  }

  /** With no attempts configured a stream would succeed without asking anyone. */
  lemma NoAttemptsSucceedsEmpty(world: World, plan: RequestPlan, budget: nat)
    requires budget > 0 && world.adapter(plan.key) && world.runBudgetLeft(0)
    ensures StreamSpec(world, [plan], budget, 0) == (Start(budget), Succeeded)
  {
  }
}
