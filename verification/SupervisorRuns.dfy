/** What holds over any sequence of supervisor steps, for any executor outcomes. */
module SupervisorRuns {
  import opened Outcomes
  import opened EffectLedger
  import opened RunStates
  import opened Router
  import opened Supervision

  /**
  One step from `s` to `t`, with some next stage, expectations and
  surroundings. A process may die before its first write, or between opening
  an iteration and its second.
  */
  ghost predicate StepOf(s: RunState, registry: set<Checkpoint>, stage: Option<Stage>, e: Expectations, x: Surroundings, t: RunState) {
    && (s.disposition == Active ==> IsNextStage(s, e, registry, stage))
    && (t == StepSpec(s, stage, e, x) || t == Begun(s, stage) || t == s)
  }

  // ----- validity and budget -----

  /** The budget is untouched and the state stays valid. */
  ghost predicate KeepsBudget(s: RunState, t: RunState) {
    && ValidState(t)
    && t.iterationCount == s.iterationCount && t.grants == s.grants && t.maxIterations == s.maxIterations
  }

  lemma RoutedKeepsBudget(s: RunState, f: FailureRecord)
    requires ValidState(s)
    ensures KeepsBudget(s, Routed(s, f))
  {
    RoutingIsSafe(s, f);
    RoutingIsTotal(s, f);
    if s.disposition == Active && RetriedStage(s, f).Some? {
      InvalidationShape(s, RetriedStage(s, f).value);
    }
  }

  lemma CarryKeepsBudget(s: RunState, verdict: Verdict)
    requires ValidState(s) && (verdict.Store? ==> ValidState(WithCheckpoint(s, verdict.checkpoint)))
    ensures KeepsBudget(s, Carry(s, verdict))
  {
    hide Routed, ValidState;
    if verdict.Route? {
      RoutedKeepsBudget(s, verdict.failure);
    }
  }

  lemma BegunIsValid(s: RunState, stage: Option<Stage>)
    requires ValidState(s)
    ensures ValidState(Begun(s, stage))
  {
  }

  /** The only verdict that stores a checkpoint is a carried-through execution of the next stage. */
  lemma StoreVerdict(s: RunState, stage: Option<Stage>, e: Expectations, x: Surroundings, c: Checkpoint)
    requires StepVerdict(s, stage, e, x) == Some(Store(c))
    ensures s.disposition == Active && stage == Some(c.stage)
    ensures Issues(Begun(s, stage), c.stage, x) && c == IssuedCheckpoint(c.stage, e, x.execution.output, x.issuedId.value)
    ensures ValidState(WithCheckpoint(Begun(s, stage), c))
  {
    hide ValidState, WithCheckpoint;
  }

  /** Every step stores a valid state, so iterations begun never exceed the base budget and the grants. */
  lemma StepKeepsValid(s: RunState, stage: Option<Stage>, e: Expectations, x: Surroundings)
    requires ValidState(s)
    ensures var t := StepSpec(s, stage, e, x);
      && ValidState(t)
      && t.maxIterations == s.maxIterations && t.grants == s.grants
      && s.iterationCount <= t.iterationCount <= s.iterationCount + 1
      && t.iterationCount <= s.maxIterations + Sum(s.grants)
  {
    hide Routed, StepVerdict, WithCheckpoint, OutputsMatch, ValidLedger, PendingMatches;
    var verdict := StepVerdict(s, stage, e, x);
    BegunIsValid(s, stage);
    if verdict.Some? {
      if verdict.value.Store? {
        StoreVerdict(s, stage, e, x, verdict.value.checkpoint);
      }
      CarryKeepsBudget(Begun(s, stage), verdict.value);
    }
  }

  /** A step that is not at rest has a verdict; outside an open iteration it is to stop. */
  lemma StepVerdictShape(s: RunState, stage: Option<Stage>, e: Expectations, x: Surroundings)
    ensures StepVerdict(s, stage, e, x) == None <==> AtRest(s, stage, x)
    ensures StepVerdict(s, stage, e, x).Some? && (s.disposition != Active || !Begun(s, stage).iterationOpen) ==>
      && Begun(s, stage) == s
      && StepVerdict(s, stage, e, x).value in {Route(SupervisorFailure(InvalidRouting)), Route(BudgetFailure())}
    ensures StepVerdict(s, stage, e, x).Some? && s.disposition != Active ==> s.disposition == WaitingMcp
  {
    hide ValidState, WithCheckpoint;
  }

  lemma StopsAtOnce(s: RunState, f: FailureRecord)
    requires f in {SupervisorFailure(InvalidRouting), BudgetFailure()}
    ensures RetriedStage(s, f) == None && !NeedsRepair(f)
    ensures s.disposition in {Active, WaitingMcp} ==> Routed(s, f).disposition == HumanReview
  {
    RoutingIsTotal(s, f);
    hide Routed, InvalidateFrom;
  }

  // ----- the measure -----

  /** Remaining budget first, then whether an iteration is open, then stages without a checkpoint. */
  function Remaining(s: RunState): int {
    match s.disposition
    case Active =>
      1 + 22 * (IterationLimit(s) - s.iterationCount) + (if s.iterationOpen then 11 else 0) + (10 - |s.checkpoints|)
    case WaitingMcp => 1
    case _ => 0
  }

  lemma AtMostTenCheckpoints(s: RunState)
    ensures |s.checkpoints| <= 10
  {
    var all := {Analyst, ArchitectOutline, ArchitectProposal, ArchitectSpecs, ArchitectDesign,
                ArchitectTasks, Programmer, Verification, Tester, Reviewer};
    forall stage: Stage ensures stage in all {
      match stage {
        case Analyst => case ArchitectOutline => case ArchitectProposal => case ArchitectSpecs => case ArchitectDesign =>
        case ArchitectTasks => case Programmer => case Verification => case Tester => case Reviewer =>
      }
    }
    SubsetIsSmaller(s.checkpoints.Keys, all);
    assert |s.checkpoints| == |s.checkpoints.Keys|;
  }

  lemma {:induction false} SubsetIsSmaller<T>(a: set<T>, b: set<T>)
    requires a <= b
    ensures |a| <= |b|
  {
    assert b == a + (b - a);
  }

  lemma RemainingIsNatural(s: RunState)
    requires ValidState(s)
    ensures 0 <= Remaining(s)
    ensures s.disposition == Active ==>
      var room := 22 * (IterationLimit(s) - s.iterationCount) + if s.iterationOpen then 11 else 0;
      1 + room <= Remaining(s) <= 11 + room
  {
    AtMostTenCheckpoints(s);
  }

  lemma RouteDescends(s: RunState, f: FailureRecord)
    requires ValidState(s) && s.disposition == Active
    ensures Remaining(Routed(s, f)) <= 11 + 22 * (IterationLimit(s) - s.iterationCount)
    ensures RetriedStage(s, f) == None ==> Remaining(Routed(s, f)) == 0
  {
    RoutingIsTotal(s, f);
    RoutedKeepsBudget(s, f);
    RoutingIsSafe(s, f);
    RemainingIsNatural(Routed(s, f));
  }

  lemma SecondOutputIsRefused(checkpoints: map<Stage, Checkpoint>, outputs: seq<StageOutput>, c: Checkpoint)
    requires OutputsMatch(checkpoints, outputs) && c.stage in checkpoints
    ensures !UniqueStages(outputs + [StageOutput(c.stage, c.output)])
  {
    var output :| output in outputs && output.stage == c.stage;
    var i :| 0 <= i < |outputs| && outputs[i] == output;
    var longer := outputs + [StageOutput(c.stage, c.output)];
    assert longer[i].stage == longer[|outputs|].stage;
  }

  lemma FirstOutputIsAccepted(checkpoints: map<Stage, Checkpoint>, outputs: seq<StageOutput>, c: Checkpoint)
    requires OutputsMatch(checkpoints, outputs) && c.stage !in checkpoints
    ensures OutputsMatch(checkpoints[c.stage := c], outputs + [StageOutput(c.stage, c.output)])
  {
    var more, longer := checkpoints[c.stage := c], outputs + [StageOutput(c.stage, c.output)];
    assert longer[|outputs|] == StageOutput(c.stage, c.output);
    assert forall output <- longer :: output in outputs || output == StageOutput(c.stage, c.output);
    forall stage | stage in more
      ensures exists output <- longer :: output.stage == stage
    {
      if stage == c.stage {
        assert StageOutput(c.stage, c.output) in longer;
      } else {
        var output :| output in outputs && output.stage == stage;
        assert output in longer;
      }
    }
  }

  /** A stored checkpoint is one the run did not have: a second output for its stage is refused. */
  lemma StoredCheckpointIsNew(s: RunState, c: Checkpoint)
    requires OutputsMatch(s.checkpoints, s.outputs)
    ensures OutputsMatch(Checkpointed(s, c).checkpoints, Checkpointed(s, c).outputs) <==> c.stage !in s.checkpoints
    ensures c.stage !in s.checkpoints ==> |Checkpointed(s, c).checkpoints| == |s.checkpoints| + 1
  {
    if c.stage in s.checkpoints {
      SecondOutputIsRefused(s.checkpoints, s.outputs, c);
    } else {
      FirstOutputIsAccepted(s.checkpoints, s.outputs, c);
      hide OutputsMatch;
      assert Checkpointed(s, c).checkpoints.Keys == s.checkpoints.Keys + {c.stage};
    }
  }

  lemma CarryDescends(s: RunState, verdict: Verdict)
    requires ValidState(s) && s.disposition == Active && s.iterationOpen
    requires verdict.Store? ==> ValidState(WithCheckpoint(s, verdict.checkpoint))
    ensures Remaining(Carry(s, verdict)) < Remaining(s)
  {
    hide Routed;
    RemainingIsNatural(s);
    match verdict
    case Route(failure) =>
      RouteDescends(s, failure);
    case Store(c) =>
      StoredCheckpointIsNew(s, c);
      AtMostTenCheckpoints(Checkpointed(s, c));
  }

  /** The runs a step leaves alone: stopped, properly waiting, or ready to finalize. */
  ghost predicate AtRest(s: RunState, stage: Option<Stage>, x: Surroundings) {
    if s.disposition == Active then stage == None && !s.iterationOpen && s.eligible
    else s.disposition == WaitingMcp ==> s.pending.Some? && x.replayable
  }

  /**
  A step either leaves the run exactly as it is, precisely when the run is at
  rest, or it uses up some of the measure.
  */
  lemma StepDescends(s: RunState, stage: Option<Stage>, e: Expectations, x: Surroundings)
    requires ValidState(s)
    ensures var t := StepSpec(s, stage, e, x);
      && (AtRest(s, stage, x) <==> t == s)
      && 0 <= Remaining(t)
      && (t != s ==> Remaining(t) < Remaining(s))
  {
    hide Routed, ValidState, StepVerdict, WithCheckpoint, Begun, AtRest;
    StepKeepsValid(s, stage, e, x);
    RemainingIsNatural(s);
    RemainingIsNatural(StepSpec(s, stage, e, x));
    StepVerdictShape(s, stage, e, x);
    var verdict := StepVerdict(s, stage, e, x);
    if verdict.Some? {
      BegunIsValid(s, stage);
      BeginDoesNotAdd(s, stage);
      if s.disposition == Active && Begun(s, stage).iterationOpen {
        if verdict.value.Store? {
          StoreVerdict(s, stage, e, x, verdict.value.checkpoint);
        }
        CarryDescends(Begun(s, stage), verdict.value);
      } else {
        StopsAtOnce(s, verdict.value.failure);
      }
    }
  }

  lemma BeginDoesNotAdd(s: RunState, stage: Option<Stage>)
    ensures Remaining(Begun(s, stage)) <= Remaining(s)
    ensures Begun(s, stage).disposition == s.disposition
  {
  }

  /** Whatever a step comes to, a changed run has used up some of the measure. */
  lemma OutcomeDescends(s: RunState, registry: set<Checkpoint>, stage: Option<Stage>, e: Expectations, x: Surroundings, t: RunState)
    requires ValidState(s) && StepOf(s, registry, stage, e, x, t)
    ensures ValidState(t) && t.maxIterations == s.maxIterations && t.grants == s.grants
    ensures 0 <= Remaining(t) && (t != s ==> Remaining(t) < Remaining(s))
    ensures t.iterationCount <= IterationLimit(t)
  {
    hide ValidState, StepVerdict, StepSpec, IsNextStage;
    RemainingIsNatural(s);
    StepDescends(s, stage, e, x);
    StepKeepsValid(s, stage, e, x);
    BegunIsValid(s, stage);
    RemainingIsNatural(Begun(s, stage));
    WithinLimit(t);
  }

  lemma WithinLimit(s: RunState)
    requires ValidState(s)
    ensures s.iterationCount <= IterationLimit(s)
  {
  }

  /** A recorded run: each state with the step that leads on from it. */
  datatype Moment = Moment(state: RunState, registry: set<Checkpoint>, stage: Option<Stage>, e: Expectations, x: Surroundings)

  ghost predicate IsRun(run: seq<Moment>) {
    && run != []
    && ValidState(run[0].state)
    && forall i :: 0 <= i < |run| - 1 ==> Follows(run, i)
  }

  ghost predicate Follows(run: seq<Moment>, i: nat)
    requires i < |run| - 1
  {
    var m := run[i];
    StepOf(m.state, m.registry, m.stage, m.e, m.x, run[i + 1].state)
  }

  function Changes(run: seq<Moment>): nat {
    if |run| <= 1 then 0
    else Changes(run[..|run| - 1]) + if run[|run| - 1].state != run[|run| - 2].state then 1 else 0
  }

  /**
  Over any run of any length, for any executor outcomes and with processes dying
  within their steps, at most `Remaining` of its steps change anything, and the iterations begun stay within the limit the
  first state authorizes.
  */
  lemma {:induction false} RunsAreBounded(run: seq<Moment>)
    requires IsRun(run)
    ensures var first, last := run[0].state, run[|run| - 1].state;
      && ValidState(last)
      && 0 <= Remaining(last)
      && Changes(run) + Remaining(last) <= Remaining(first)
      && last.iterationCount <= IterationLimit(first)
    decreases |run|
  {
    hide Routed;
    if |run| == 1 {
      RemainingIsNatural(run[0].state);
    } else {
      var shorter := run[..|run| - 1];
      assert IsRun(shorter) by {
        forall i | 0 <= i < |shorter| - 1 ensures Follows(shorter, i) { assert Follows(run, i); }
      }
      RunsAreBounded(shorter);
      RunKeepsAuthorizations(shorter);
      var m := run[|run| - 2];
      assert Follows(run, |run| - 2);
      OutcomeDescends(m.state, m.registry, m.stage, m.e, m.x, run[|run| - 1].state);
    }
  }

  lemma {:induction false} RunKeepsAuthorizations(run: seq<Moment>)
    requires IsRun(run)
    ensures ValidState(run[|run| - 1].state)
    ensures run[|run| - 1].state.grants == run[0].state.grants
    ensures run[|run| - 1].state.maxIterations == run[0].state.maxIterations
    decreases |run|
  {
    if |run| > 1 {
      var shorter := run[..|run| - 1];
      assert IsRun(shorter) by {
        forall i | 0 <= i < |shorter| - 1 ensures Follows(shorter, i) { assert Follows(run, i); }
      }
      RunKeepsAuthorizations(shorter);
      var m := run[|run| - 2];
      assert Follows(run, |run| - 2);
      OutcomeDescends(m.state, m.registry, m.stage, m.e, m.x, run[|run| - 1].state);
    }
  }

  // ----- checkpoints stay grounded -----

  lemma RequiredComesEarlier(i: nat, required: Stage)
    requires i < |STAGES| && IsRequired(required, STAGES[i])
    ensures exists j :: 0 <= j < i && STAGES[j] == required
  {
    assert STAGES[0] == Analyst && STAGES[1] == ArchitectOutline && STAGES[2] == ArchitectProposal
        && STAGES[3] == ArchitectSpecs && STAGES[4] == ArchitectDesign && STAGES[5] == ArchitectTasks
        && STAGES[6] == Programmer && STAGES[7] == Verification && STAGES[8] == Tester && STAGES[9] == Reviewer;
  }

  /** A stage is only ever checkpointed on top of everything it requires. */
  lemma StepKeepsGrounded(s: RunState, registry: set<Checkpoint>, stage: Option<Stage>, e: Expectations, x: Surroundings)
    requires ValidState(s) && Grounded(s.checkpoints.Keys)
    requires s.disposition == Active ==> IsNextStage(s, e, registry, stage)
    ensures Grounded(StepSpec(s, stage, e, x).checkpoints.Keys)
  {
    hide Routed, ValidState, StepVerdict, Grounded, IsNextStage, WithCheckpoint;
    var verdict := StepVerdict(s, stage, e, x);
    if verdict.Some? {
      var begun := Begun(s, stage);
      BegunIsValid(s, stage);
      match verdict.value
      case Route(failure) =>
        RoutingIsSafe(begun, failure);
      case Store(c) =>
        StoreVerdict(s, stage, e, x, c);
        BeginDoesNotMoveStages(s, registry, stage, e);
        GroundedWith(begun, registry, stage.value, e);
        CheckpointAddsStage(begun, c);
    }
  }

  lemma CheckpointAddsStage(s: RunState, c: Checkpoint)
    ensures WithCheckpoint(s, c).checkpoints.Keys == s.checkpoints.Keys + {c.stage}
  {
    assert WithCheckpoint(s, c).checkpoints == s.checkpoints[c.stage := c];
  }

  lemma BeginDoesNotMoveStages(s: RunState, registry: set<Checkpoint>, stage: Option<Stage>, e: Expectations)
    requires IsNextStage(s, e, registry, stage)
    ensures IsNextStage(Begun(s, stage), e, registry, stage)
    ensures Begun(s, stage).checkpoints == s.checkpoints
  {
    assert forall other :: IsReusable(Begun(s, stage), other, e, registry) <==> IsReusable(s, other, e, registry);
  }

  lemma GroundedWith(s: RunState, registry: set<Checkpoint>, stage: Stage, e: Expectations)
    requires Grounded(s.checkpoints.Keys) && IsNextStage(s, e, registry, Some(stage))
    ensures Grounded(s.checkpoints.Keys + {stage})
  {
    var i: nat :| i < |STAGES| && STAGES[i] == stage && forall j :: 0 <= j < i ==> IsReusable(s, STAGES[j], e, registry);
    forall required | IsRequired(required, stage)
      ensures required in s.checkpoints
    {
      RequiredComesEarlier(i, required);
    }
  }

  // ----- two limits of the supervisor as it is written -----

  /**
  A checkpoint leaves `currentStage` on the stage just finished, while the next
  execution insists on being on the stage it is about to run. So unless another
  writer moves `currentStage`, the step after any non-Reviewer checkpoint stops
  the run for Human Review, whatever the executor would have answered.
  */
  lemma StepAfterCheckpointStops(
    s: RunState, registry: set<Checkpoint>, stage: Stage, e: Expectations, x: Surroundings,
    next: Option<Stage>, y: Surroundings)
    requires ValidState(s) && s.disposition == Active && s.iterationOpen && stage != Reviewer
    requires Issues(s, stage, x) && stage !in s.checkpoints
    requires IsNextStage(ExecuteSpec(s, stage, e, x), e, ExecuteRegistry(s, stage, e, x, registry), next)
    ensures stage in ExecuteSpec(s, stage, e, x).checkpoints
    ensures var t := StepSpec(ExecuteSpec(s, stage, e, x), next, e, y);
      && t.disposition == HumanReview
      && SupervisorFailure(InvalidRouting) in t.failures
      && t.checkpoints == ExecuteSpec(s, stage, e, x).checkpoints
  {
    hide Routed, ValidLedger, PendingMatches, InvalidateFrom;
    var c := IssuedCheckpoint(stage, e, x.execution.output, x.issuedId.value);
    StoredCheckpointIsNew(s, c);
    var done := Checkpointed(s, c);
    assert ExecuteVerdict(s, stage, e, x) == Store(c) by {
      assert ValidState(WithCheckpoint(s, c));
    }
    CheckpointedIsReusable(s, c, e, ExecuteRegistry(s, stage, e, x, registry));
    assert StepVerdict(done, next, e, y) == Some(Route(SupervisorFailure(InvalidRouting)));
    StopsForReview(done);
  }

  lemma CheckpointedIsReusable(s: RunState, c: Checkpoint, e: Expectations, registry: set<Checkpoint>)
    requires c in registry && c.contract == e[c.stage].contract && c.inputs == e[c.stage].inputs
    ensures IsReusable(Checkpointed(s, c), c.stage, e, registry)
  {
    assert Checkpointed(s, c).outputs[|s.outputs|] == StageOutput(c.stage, c.output);
  }

  lemma StopsForReview(s: RunState)
    requires s.disposition == Active
    ensures var t := Routed(s, SupervisorFailure(InvalidRouting));
      t.disposition == HumanReview && t.checkpoints == s.checkpoints && SupervisorFailure(InvalidRouting) in t.failures
  {
    RoutingIsTotal(s, SupervisorFailure(InvalidRouting));
  }

  /**
  A stage whose checkpoint no longer matches cannot be checkpointed again: the
  appended output would be a second one for the stage, the store refuses it, and
  a successful execution ends in a repair request instead.
  */
  lemma StaleCheckpointNeedsRepair(s: RunState, stage: Stage, e: Expectations, x: Surroundings)
    requires ValidState(s) && s.disposition == Active
    requires Issues(s, stage, x) && stage in s.checkpoints
    ensures ExecuteSpec(s, stage, e, x).disposition == RepairRequired
    ensures ExecuteSpec(s, stage, e, x).checkpoints == s.checkpoints
  {
    hide Routed, InvalidateFrom, OutputsMatch, ValidLedger, PendingMatches;
    var c := IssuedCheckpoint(stage, e, x.execution.output, x.issuedId.value);
    StoredCheckpointIsNew(s, c);
    RefusedWithoutMatch(s, c);
    RoutingIsTotal(s, OrchestrationFailure(stage));
  }

  lemma RefusedWithoutMatch(s: RunState, c: Checkpoint)
    requires !OutputsMatch(Checkpointed(s, c).checkpoints, Checkpointed(s, c).outputs)
    ensures !ValidState(WithCheckpoint(s, c))
  {
    hide OutputsMatch, ValidLedger, PendingMatches;
  }

  /** Finalization becomes eligible only through an approved review of the bound manifest. */
  lemma EligibilityNeedsApproval(s: RunState, stage: Option<Stage>, e: Expectations, x: Surroundings, t: RunState)
    requires ValidState(s) && t == StepSpec(s, stage, e, x)
    requires !s.eligible && t.eligible
    ensures stage == Some(Reviewer) && x.execution.Executed?
    ensures x.execution.review.Some? && x.execution.review.value.Approved?
    ensures Some(x.execution.review.value.manifest) == s.artifacts.reviewManifest
    ensures t.artifacts.reviewResult == Some(x.execution.output)
  {
    hide Routed, ValidState, StepVerdict;
    StepVerdictShape(s, stage, e, x);
    var verdict := StepVerdict(s, stage, e, x);
    match verdict {
      case None =>
      case Some(Route(failure)) => RoutedNeverEligible(Begun(s, stage), failure);
      case Some(Store(c)) => StoreVerdict(s, stage, e, x, c);
    }
  }

  lemma RoutedNeverEligible(s: RunState, f: FailureRecord)
    requires !s.eligible
    ensures !Routed(s, f).eligible
  {
    RoutingIsTotal(s, f);
    if s.disposition == Active && RetriedStage(s, f).Some? {
      ReviewerIsAlwaysInvalidated(RetriedStage(s, f).value);
    }
  }
}
