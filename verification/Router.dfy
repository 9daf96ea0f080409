/**
Failure routing and invalidation over the stage graph: which stages a failure
throws away, and what the run may do next.
*/
module Router {
  import opened Outcomes
  import opened EffectLedger
  import opened RunStates

  // ----- reachability over any finite dependency map -----

  /** A path that follows "is required by" edges. */
  ghost predicate IsChain<T(!new)>(deps: map<T, set<T>>, path: seq<T>) {
    && path != []
    && forall i :: 0 <= i < |path| - 1 ==> IsEdge(deps, path, i)
  }

  ghost predicate IsEdge<T(!new)>(deps: map<T, set<T>>, path: seq<T>, i: nat)
    requires i < |path| - 1
  {
    path[i + 1] in deps && path[i] in deps[path[i + 1]]
  }

  ghost predicate Reaches<T(!new)>(deps: map<T, set<T>>, from: T, to: T) {
    exists path: seq<T> :: IsChain(deps, path) && path[0] == from && path[|path| - 1] == to
  }

  /** The owner and everything that directly or indirectly requires it. */
  ghost function Reachable<T(!new)>(deps: map<T, set<T>>, owner: T): set<T> {
    set stage | stage in deps.Keys + {owner} && Reaches(deps, owner, stage)
  }

  lemma ReachesSelf<T(!new)>(deps: map<T, set<T>>, stage: T)
    ensures Reaches(deps, stage, stage)
  {
    assert IsChain(deps, [stage]);
  }

  lemma ReachesNext<T(!new)>(deps: map<T, set<T>>, from: T, mid: T, to: T)
    requires Reaches(deps, from, mid) && to in deps && mid in deps[to]
    ensures Reaches(deps, from, to)
  {
    var path: seq<T> :| IsChain(deps, path) && path[0] == from && path[|path| - 1] == mid;
    var longer := path + [to];
    forall i | 0 <= i < |path|
      ensures IsEdge(deps, longer, i)
    {
      if i < |path| - 1 {
        assert IsEdge(deps, path, i);
      }
    }
    assert longer[0] == from && longer[|longer| - 1] == to;
  }

  /** A set closed under "is required by" holds everything its members reach. */
  lemma {:induction false} ClosedHoldsChain<T(!new)>(deps: map<T, set<T>>, closed: set<T>, path: seq<T>, n: nat)
    requires IsChain(deps, path) && path[0] in closed && n < |path|
    requires forall stage <- deps :: deps[stage] * closed != {} ==> stage in closed
    ensures path[n] in closed
  {
    if n > 0 {
      ClosedHoldsChain(deps, closed, path, n - 1);
      assert IsEdge(deps, path, n - 1);
      assert path[n - 1] in deps[path[n]] * closed;
    }
  }

  /** The growing set: it stops, and what it holds is exactly the reachable stages. */
  method Descendants<T(==, !new)>(deps: map<T, set<T>>, owner: T) returns (invalid: set<T>)
    ensures invalid == Reachable(deps, owner)
  {
    invalid := {owner};
    ReachesSelf(deps, owner);
    var added := (set stage | stage in deps && deps[stage] * invalid != {}) - invalid;
    while added != {}
      invariant owner in invalid && invalid <= deps.Keys + {owner}
      invariant added == (set stage | stage in deps && deps[stage] * invalid != {}) - invalid
      invariant forall stage <- invalid :: Reaches(deps, owner, stage)
      decreases deps.Keys - invalid
    {
      forall stage | stage in added
        ensures Reaches(deps, owner, stage)
      {
        var mid :| mid in deps[stage] * invalid;
        ReachesNext(deps, owner, mid, stage);
      }
      ghost var newcomer :| newcomer in added;
      assert newcomer in deps.Keys - invalid;
      invalid := invalid + added;
      added := (set stage | stage in deps && deps[stage] * invalid != {}) - invalid;
    }
    forall stage | stage in Reachable(deps, owner)
      ensures stage in invalid
    {
      var path: seq<T> :| IsChain(deps, path) && path[0] == owner && path[|path| - 1] == stage;
      assert forall other <- deps :: deps[other] * invalid != {} && other !in invalid ==> other in added;
      ClosedHoldsChain(deps, invalid, path, |path| - 1);
    }
  }

  // ----- the stage graph -----

  const DEPENDENCIES: map<Stage, set<Stage>> := map[
    Analyst := {},
    ArchitectOutline := {Analyst},
    ArchitectProposal := {ArchitectOutline},
    ArchitectSpecs := {ArchitectProposal},
    ArchitectDesign := {ArchitectProposal},
    ArchitectTasks := {ArchitectSpecs, ArchitectDesign},
    Programmer := {ArchitectTasks},
    Verification := {Programmer},
    Tester := {Verification},
    Reviewer := {Tester}]

  const STAGES: seq<Stage> := [
    Analyst, ArchitectOutline, ArchitectProposal, ArchitectSpecs, ArchitectDesign,
    ArchitectTasks, Programmer, Verification, Tester, Reviewer]

  ghost function Invalidated(owner: Stage): set<Stage> {
    Reachable(DEPENDENCIES, owner)
  }

  lemma AllStagesListed(stage: Stage)
    ensures stage in STAGES && stage in DEPENDENCIES
  {
    assert STAGES[0] == Analyst && STAGES[1] == ArchitectOutline && STAGES[2] == ArchitectProposal
        && STAGES[3] == ArchitectSpecs && STAGES[4] == ArchitectDesign && STAGES[5] == ArchitectTasks
        && STAGES[6] == Programmer && STAGES[7] == Verification && STAGES[8] == Tester && STAGES[9] == Reviewer;
  }

  /** Whatever requires an invalidated stage is invalidated with it. */
  lemma InvalidatedIsClosed(owner: Stage, mid: Stage, to: Stage)
    requires mid in Invalidated(owner) && mid in DEPENDENCIES[to]
    ensures to in Invalidated(owner)
  {
    ReachesNext(DEPENDENCIES, owner, mid, to);
  }

  /** Invalidating any stage invalidates the Reviewer. */
  lemma ReviewerIsAlwaysInvalidated(owner: Stage)
    ensures owner in Invalidated(owner) && Reviewer in Invalidated(owner)
  {
    ReachesSelf(DEPENDENCIES, owner);
    if owner == Analyst { InvalidatedIsClosed(owner, Analyst, ArchitectOutline); }
    if ArchitectOutline in Invalidated(owner) { InvalidatedIsClosed(owner, ArchitectOutline, ArchitectProposal); }
    if ArchitectProposal in Invalidated(owner) { InvalidatedIsClosed(owner, ArchitectProposal, ArchitectSpecs); }
    if ArchitectSpecs in Invalidated(owner) { InvalidatedIsClosed(owner, ArchitectSpecs, ArchitectTasks); }
    if ArchitectDesign in Invalidated(owner) { InvalidatedIsClosed(owner, ArchitectDesign, ArchitectTasks); }
    if ArchitectTasks in Invalidated(owner) { InvalidatedIsClosed(owner, ArchitectTasks, Programmer); }
    if Programmer in Invalidated(owner) { InvalidatedIsClosed(owner, Programmer, Verification); }
    if Verification in Invalidated(owner) { InvalidatedIsClosed(owner, Verification, Tester); }
    if Tester in Invalidated(owner) { InvalidatedIsClosed(owner, Tester, Reviewer); }
  }

  // ----- invalidation -----

  function Kept(outputs: seq<StageOutput>, invalid: set<Stage>): seq<StageOutput> {
    if outputs == [] then []
    else if outputs[0].stage in invalid then Kept(outputs[1..], invalid)
    else [outputs[0]] + Kept(outputs[1..], invalid)
  }

  function ClearArtifacts(a: Artifacts, invalid: set<Stage>): Artifacts {
    a.(requirements := if Analyst in invalid then None else a.requirements,
       outline := if ArchitectOutline in invalid then None else a.outline,
       taskDefinition := if ArchitectTasks in invalid then None else a.taskDefinition,
       taskStatus := if ArchitectTasks in invalid then None else a.taskStatus,
       productManifest := if Programmer in invalid then None else a.productManifest,
       productHash := if Programmer in invalid then None else a.productHash,
       build := if Programmer in invalid then None else a.build,
       verification := if Verification in invalid then None else a.verification,
       browser := if Tester in invalid then None else a.browser,
       reviewManifest := if Reviewer in invalid then None else a.reviewManifest,
       reviewResult := if Reviewer in invalid then None else a.reviewResult)
  }

  function ClearFinalization(s: RunState): RunState {
    s.(projection := None, commitSha := None, pushedSha := None, doneReceipt := None,
       eligible := false, finalization := false, evidence := None)
  }

  function Without(s: RunState, owner: Stage, invalid: set<Stage>): RunState {
    var closed := s.(
      checkpoints := map stage | stage in s.checkpoints && stage !in invalid :: s.checkpoints[stage],
      outputs := Kept(s.outputs, invalid),
      artifacts := ClearArtifacts(s.artifacts, invalid),
      currentStage := owner,
      iterationOpen := false);
    if Reviewer in invalid then ClearFinalization(closed) else closed
  }

  ghost function InvalidateFrom(s: RunState, owner: Stage): RunState {
    Without(s, owner, Invalidated(owner))
  }

  method InvalidateFromStage(s: RunState, owner: Stage) returns (next: RunState)
    ensures next == InvalidateFrom(s, owner)
  {
    var invalid := Descendants(DEPENDENCIES, owner);
    next := Without(s, owner, invalid);
  }

  lemma {:induction false} KeptMembers(outputs: seq<StageOutput>, invalid: set<Stage>)
    ensures forall output :: output in Kept(outputs, invalid) <==> output in outputs && output.stage !in invalid
    ensures UniqueStages(outputs) ==> UniqueStages(Kept(outputs, invalid))
  {
    if outputs != [] {
      KeptMembers(outputs[1..], invalid);
      var rest := Kept(outputs[1..], invalid);
      assert outputs == [outputs[0]] + outputs[1..];
      if UniqueStages(outputs) {
        assert UniqueStages(outputs[1..]) by {
          assert forall i :: 0 <= i < |outputs| - 1 ==> outputs[1..][i] == outputs[i + 1];
        }
        assert forall output :: output in outputs[1..] ==> output.stage != outputs[0].stage by {
          forall output | output in outputs[1..] ensures output.stage != outputs[0].stage {
            var i :| 0 <= i < |outputs[1..]| && outputs[1..][i] == output;
            assert outputs[0].stage != outputs[i + 1].stage;
          }
        }
        forall output | output in rest ensures output.stage != outputs[0].stage {
          assert output in outputs[1..];
        }
      }
    }
  }

  lemma OutputsStayMatched(checkpoints: map<Stage, Checkpoint>, outputs: seq<StageOutput>, invalid: set<Stage>)
    requires OutputsMatch(checkpoints, outputs)
    ensures OutputsMatch(map stage | stage in checkpoints && stage !in invalid :: checkpoints[stage], Kept(outputs, invalid))
  {
    KeptMembers(outputs, invalid);
    forall stage | stage in checkpoints && stage !in invalid
      ensures exists output <- Kept(outputs, invalid) :: output.stage == stage
    {
      var output :| output in outputs && output.stage == stage;
      assert output in Kept(outputs, invalid);
    }
  }

  /** Checkpoints form a down-closed set: a stage only with everything it requires. */
  ghost predicate Grounded(stages: set<Stage>) {
    forall stage, required :: stage in stages && IsRequired(required, stage) ==> required in stages
  }

  ghost predicate IsRequired(required: Stage, stage: Stage) {
    stage in DEPENDENCIES && required in DEPENDENCIES[stage]
  }

  lemma RemovalKeepsGrounded(stages: set<Stage>, owner: Stage)
    requires Grounded(stages)
    ensures Grounded(stages - Invalidated(owner))
  {
    forall stage, required | stage in stages - Invalidated(owner) && IsRequired(required, stage)
      ensures required in stages - Invalidated(owner)
    {
      if required in Invalidated(owner) {
        InvalidatedIsClosed(owner, required, stage);
      }
    }
  }

  lemma WithoutIsSafe(s: RunState, owner: Stage, invalid: set<Stage>)
    requires ValidState(s) && Reviewer in invalid
    ensures ValidState(Without(s, owner, invalid))
    ensures Without(s, owner, invalid).checkpoints.Keys == s.checkpoints.Keys - invalid
  {
    OutputsStayMatched(s.checkpoints, s.outputs, invalid);
  }

  /**
  Invalidation keeps every stored state valid, always withdraws finalization
  with all its milestones, keeps checkpoints grounded, and removes exactly the
  owner with the stages that depend on it.
  */
  lemma InvalidationIsSafe(s: RunState, owner: Stage)
    requires ValidState(s)
    ensures var next := InvalidateFrom(s, owner);
      && ValidState(next)
      && !next.eligible && !next.iterationOpen && next.currentStage == owner
      && next.projection == None && next.commitSha == None && next.pushedSha == None && next.doneReceipt == None
      && next.checkpoints.Keys == s.checkpoints.Keys - Invalidated(owner)
      && (forall stage <- next.checkpoints :: next.checkpoints[stage] == s.checkpoints[stage])
      && (Grounded(s.checkpoints.Keys) ==> Grounded(next.checkpoints.Keys))
      && next.ledger == s.ledger && next.pending == s.pending && next.failures == s.failures
  {
    ReviewerIsAlwaysInvalidated(owner);
    WithoutIsSafe(s, owner, Invalidated(owner));
    if Grounded(s.checkpoints.Keys) {
      RemovalKeepsGrounded(s.checkpoints.Keys, owner);
    }
  }

  lemma WithoutTwice(s: RunState, a: Stage, b: Stage, x: set<Stage>, y: set<Stage>)
    requires Reviewer in x && Reviewer in y
    ensures Without(Without(s, a, x), b, y) == Without(s, b, x + y)
  {
    KeptTwice(s.outputs, x, y);
    var twice, once := Without(Without(s, a, x), b, y), Without(s, b, x + y);
    assert twice.checkpoints == once.checkpoints;
    assert twice.artifacts == once.artifacts;
  }

  /** The order of two invalidations matters only for the stage the run resumes at. */
  lemma InvalidationsCommute(s: RunState, a: Stage, b: Stage)
    ensures InvalidateFrom(InvalidateFrom(s, a), b) ==
            InvalidateFrom(InvalidateFrom(s, b), a).(currentStage := b)
  {
    ReviewerIsAlwaysInvalidated(a);
    ReviewerIsAlwaysInvalidated(b);
    WithoutTwice(s, a, b, Invalidated(a), Invalidated(b));
    WithoutTwice(s, b, a, Invalidated(b), Invalidated(a));
    assert Invalidated(a) + Invalidated(b) == Invalidated(b) + Invalidated(a);
  }

  lemma {:induction false} KeptTwice(outputs: seq<StageOutput>, a: set<Stage>, b: set<Stage>)
    ensures Kept(Kept(outputs, a), b) == Kept(outputs, a + b)
  {
    if outputs != [] {
      KeptTwice(outputs[1..], a, b);
      if outputs[0].stage !in a {
        assert ([outputs[0]] + Kept(outputs[1..], a))[1..] == Kept(outputs[1..], a);
      }
    }
  }

  // ----- routing -----

  datatype RouteDecision = RouteDecision(
    disposition: Disposition,
    roots: seq<Stage>,
    nextStage: Option<Stage>,
    failure: FailureRecord,
    original: Option<FailureRecord>)

  function ToHumanReview(failure: FailureRecord, original: Option<FailureRecord>): RouteDecision {
    RouteDecision(HumanReview, [], None, failure, original)
  }

  function Retry(failure: FailureRecord, stage: Stage): RouteDecision {
    RouteDecision(Active, [stage], Some(stage), failure, None)
  }

  function GatedRoute(s: RunState, failure: FailureRecord): RouteDecision {
    if s.disposition == WaitingMcp then ToHumanReview(failure, None)
    else RouteDecision(s.disposition, [], None, failure, None)
  }

  const ARCHITECT_STAGES := {ArchitectOutline, ArchitectProposal, ArchitectSpecs, ArchitectDesign, ArchitectTasks}
  const PRODUCT_EXECUTION_SOURCES := {VerificationSource, Browser, Review}
  const REPAIR_SOURCES := {Transport, ArtifactSource, VerificationSource, Browser, Review}

  const HUMAN_REVIEW_SOURCES := {Preflight, FinalizationSource, SupervisorSource}

  predicate IsRetryableInvalidOutput(s: RunState, f: FailureRecord) {
    && s.iterationOpen
    && f.source == ArtifactSource
    && f.finding == InvalidUnitOutput
    && f.owner == Some(s.currentStage)
  }

  function InvalidRoutingFailure(f: FailureRecord): FailureRecord {
    FailureRecord(Orchestration, SupervisorSource, InvalidRouting, None, f.citedIds, f.evidence)
  }

  function RouteFailure(s: RunState, f: FailureRecord): RouteDecision {
    if s.disposition != Active then GatedRoute(s, f)
    else if f.class_ == Ambiguity then ToHumanReview(f, None)
    else if f.class_ == BudgetExhausted && f.source == SupervisorSource then ToHumanReview(f, None)
    else if f.class_ == InvalidOutput && IsRetryableInvalidOutput(s, f) then Retry(f, f.owner.value)
    else if f.class_ == ProductDefect && f.owner == Some(Analyst) then ToHumanReview(f, None)
    else if f.class_ == ProductDefect && f.owner == Some(Programmer) && f.source in PRODUCT_EXECUTION_SOURCES
            && f.finding in {ImplementationMismatch, ScenarioMismatch} then Retry(f, Programmer)
    else if f.class_ == ProductDefect && f.source == Review && f.finding == ArtifactMismatch
            && f.owner.Some? && f.owner.value in ARCHITECT_STAGES && f.citedIds != [] && f.evidence != []
         then Retry(f, f.owner.value)
    else if f.class_ == Orchestration && f.source in REPAIR_SOURCES
         then RouteDecision(RepairRequired, [], None, f, None)
    else if f.class_ == Orchestration && f.source in HUMAN_REVIEW_SOURCES then ToHumanReview(f, None)
    else if f.class_ == Orchestration && f.source == SupervisorSource && f.finding == InvalidRouting then ToHumanReview(f, None)
    else ToHumanReview(InvalidRoutingFailure(f), Some(f))
  }

  function CloseRoute(s: RunState, d: RouteDecision): RunState {
    s.(disposition := d.disposition,
       iterationOpen := false,
       failures := s.failures + (if d.original.Some? then [d.original.value] else []) + [d.failure],
       currentStage := if d.nextStage.Some? then d.nextStage.value else s.currentStage)
  }

  function CloseGated(s: RunState, failure: FailureRecord): RunState {
    var gate := GatedRoute(s, failure);
    s.(disposition := gate.disposition, iterationOpen := false, failures := s.failures + [gate.failure])
  }

  ghost function ApplyRoute(s: RunState, d: RouteDecision): RunState {
    if s.disposition != Active then CloseGated(s, d.failure) else CloseRoute(InvalidateAll(s, d.roots), d)
  }

  ghost function InvalidateAll(s: RunState, roots: seq<Stage>): RunState {
    if roots == [] then s else InvalidateFrom(InvalidateAll(s, roots[..|roots| - 1]), roots[|roots| - 1])
  }

  /** The stored successor of a failure in any state. */
  ghost function Routed(s: RunState, f: FailureRecord): RunState {
    ApplyRoute(s, RouteFailure(s, f))
  }

  method ApplyRouteDecision(s: RunState, d: RouteDecision) returns (next: RunState)
    ensures next == ApplyRoute(s, d)
  {
    if s.disposition != Active {
      return CloseGated(s, d.failure);
    }
    var routed := s;
    var i := 0;
    while i < |d.roots|
      invariant 0 <= i <= |d.roots|
      invariant routed == InvalidateAll(s, d.roots[..i])
    {
      assert d.roots[..i + 1][..i] == d.roots[..i];
      routed := InvalidateFromStage(routed, d.roots[i]);
      i := i + 1;
    }
    assert d.roots[..i] == d.roots;
    next := CloseRoute(routed, d);
  }

  /** The exact failures that let an active run go on by itself, and with which stage. */
  function RetriedStage(s: RunState, f: FailureRecord): Option<Stage> {
    if || (f.class_ == InvalidOutput && IsRetryableInvalidOutput(s, f))
       || (f.class_ == ProductDefect && f.owner == Some(Programmer) && f.source in PRODUCT_EXECUTION_SOURCES
           && f.finding in {ImplementationMismatch, ScenarioMismatch})
       || (f.class_ == ProductDefect && f.source == Review && f.finding == ArtifactMismatch
           && f.owner.Some? && f.owner.value in ARCHITECT_STAGES && f.citedIds != [] && f.evidence != [])
    then f.owner else None
  }

  predicate NeedsRepair(f: FailureRecord) {
    f.class_ == Orchestration && f.source in REPAIR_SOURCES
  }

  /** Every failure of an active run gets one of three decisions, and which one is determined by the failure. */
  lemma ActiveDecisions(s: RunState, f: FailureRecord)
    requires s.disposition == Active
    ensures var d := RouteFailure(s, f);
      && (match RetriedStage(s, f)
          case Some(stage) => d == Retry(f, stage)
          case None => d.roots == [] && d.nextStage == None && d.disposition == if NeedsRepair(f) then RepairRequired else HumanReview)
      && (if d.original.Some? then d.original.value == f else d.failure == f)
  {
  }

  /** What a routed failure leaves of the run. */
  ghost predicate RouteEffect(s: RunState, f: FailureRecord, next: RunState) {
    && s.failures < next.failures
    && f in next.failures[|s.failures|..]
    && next ==
       if s.disposition == Active && RetriedStage(s, f).Some?
       then InvalidateFrom(s, RetriedStage(s, f).value).(failures := next.failures)
       else s.(iterationOpen := false, failures := next.failures, disposition :=
               if s.disposition == Active then (if NeedsRepair(f) then RepairRequired else HumanReview)
               else if s.disposition == WaitingMcp then HumanReview
               else s.disposition)
  }

  lemma AppendedFailure(before: seq<FailureRecord>, middle: seq<FailureRecord>, last: FailureRecord, f: FailureRecord)
    requires if middle == [] then last == f else middle == [f]
    ensures before < before + middle + [last]
    ensures f in (before + middle + [last])[|before|..]
  {
    assert (before + middle + [last])[|before|..] == middle + [last];
  }

  lemma SingleRoot(s: RunState, stage: Stage)
    ensures InvalidateAll(s, [stage]) == InvalidateFrom(s, stage)
  {
    assert [stage][..0] == [];
  }

  lemma WithoutShape(s: RunState, owner: Stage, invalid: set<Stage>)
    ensures var next := Without(s, owner, invalid);
      && next.disposition == s.disposition && !next.iterationOpen && next.currentStage == owner
      && next.failures == s.failures && next.ledger == s.ledger && next.pending == s.pending
      && next.iterationCount == s.iterationCount && next.grants == s.grants && next.maxIterations == s.maxIterations
  {
    hide ClearFinalization, Kept, ClearArtifacts;
    ClearShape(s.(
      checkpoints := map stage | stage in s.checkpoints && stage !in invalid :: s.checkpoints[stage],
      outputs := Kept(s.outputs, invalid),
      artifacts := ClearArtifacts(s.artifacts, invalid),
      currentStage := owner,
      iterationOpen := false));
  }

  lemma ClearShape(s: RunState)
    ensures var next := ClearFinalization(s);
      && next.disposition == s.disposition && next.iterationOpen == s.iterationOpen && next.currentStage == s.currentStage
      && next.failures == s.failures && next.ledger == s.ledger && next.pending == s.pending
      && next.iterationCount == s.iterationCount && next.grants == s.grants && next.maxIterations == s.maxIterations
  {
  }

  lemma InvalidationShape(s: RunState, owner: Stage)
    ensures var next := InvalidateFrom(s, owner);
      && next.disposition == s.disposition && !next.iterationOpen && next.currentStage == owner
      && next.failures == s.failures && next.ledger == s.ledger && next.pending == s.pending
      && next.iterationCount == s.iterationCount && next.grants == s.grants && next.maxIterations == s.maxIterations
  {
    WithoutShape(s, owner, Invalidated(owner));
  }

  lemma ClosedRetry(x: RunState, stage: Stage, f: FailureRecord)
    requires x.disposition == Active && !x.iterationOpen && x.currentStage == stage
    ensures CloseRoute(x, Retry(f, stage)) == x.(failures := x.failures + [f])
  {
    assert x.failures + [] == x.failures;
  }

  /**
  Routing is total and never loops by itself. A failure always closes the
  iteration and is recorded; an active run stays active only for a retried
  stage, which is invalidated with its dependents; it stops for repair exactly
  on orchestration failures from a repairable source, and otherwise for Human
  Review; a stopped run keeps its disposition, except that a waiting one goes
  to Human Review.
  */
  lemma RoutingIsTotal(s: RunState, f: FailureRecord)
    ensures RouteEffect(s, f, Routed(s, f))
  {
    var d := RouteFailure(s, f);
    if s.disposition == Active {
      ActiveDecisions(s, f);
      AppendedFailure(s.failures, if d.original.Some? then [d.original.value] else [], d.failure, f);
      if RetriedStage(s, f).Some? {
        var stage := RetriedStage(s, f).value;
        SingleRoot(s, stage);
        InvalidationShape(s, stage);
        ClosedRetry(InvalidateFrom(s, stage), stage, f);
      }
    } else {
      AppendedFailure(s.failures, [], f, f);
      assert s.failures + [] + [f] == s.failures + [f];
    }
  }

  /** Routing keeps every stored state valid and never touches the ledger or a pending request. */
  lemma RoutingIsSafe(s: RunState, f: FailureRecord)
    requires ValidState(s)
    ensures var next := Routed(s, f);
      && ValidState(next)
      && !next.iterationOpen
      && next.ledger == s.ledger && next.pending == s.pending
      && next.iterationCount == s.iterationCount && next.grants == s.grants
      && (Grounded(s.checkpoints.Keys) ==> Grounded(next.checkpoints.Keys))
  {
    RoutingIsTotal(s, f);
    if s.disposition == Active && RetriedStage(s, f).Some? {
      var stage := RetriedStage(s, f).value;
      InvalidationIsSafe(s, stage);
      InvalidationShape(s, stage);
      FailuresDoNotMatter(InvalidateFrom(s, stage), Routed(s, f).failures);
    }
  }

  lemma FailuresDoNotMatter(x: RunState, failures: seq<FailureRecord>)
    requires ValidState(x)
    ensures ValidState(x.(failures := failures))
  {
  }
}
