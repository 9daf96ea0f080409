/** The preparation saga: start the ticket, bind and create its branch, or give the ticket back. */
module Preparation {
  import opened Outcomes
  import opened EffectLedger
  import opened LedgerViews
  import opened RunStates
  import opened Stores
  import opened FinalizerWrites
  import opened LinearWrites
  import opened PreparationWrites
  import opened Protocol
  import opened ProtocolInvariant
  import opened ProtocolRuns
  import opened Worlds
  import opened WorldSteps
  import opened Hosts
  import opened LinearGateways

  datatype PrepareError = GenerationMismatch | ContextUnavailable | NoStartRequest | TerminalState | Gateway(error: GatewayError) | Overtaken | Died

  datatype PrepareResult = Waiting(generation: Generation, request: Request) | Settled(generation: Generation)

  /**
  The next stored state of the branch saga, by how far the branch effect is.
  A process that died after an invocation is told apart by the stored binding:
  without one nothing may be assumed, with one the branch is only looked at.
  */
  ghost predicate BranchStep(s: RunState, t: RunState) {
    var word := Word(s.ledger, TicketBranch);
    || (word == [] && t == BranchIntended(s))
    || (word == [I] && BoundOrFailed(BranchInvoked(s), t))
    || (word == [I, V] && t == ForReview(s))
    || (word == [I, V, O] && CreatedOrFailed(BranchInvoked(s), t))
    || (word == [I, V, O, V] && CreatedOrFailed(s, t))
  }

  ghost predicate BoundOrFailed(s: RunState, t: RunState) {
    || IsBound(s, t)
    || t == BranchFinished(s, Failure, None)
    || t == ForReview(s)
  }

  ghost predicate IsBound(s: RunState, t: RunState) {
    exists branchBinding :: t == BranchBound(s, branchBinding)
  }

  ghost predicate CreatedOrFailed(s: RunState, t: RunState) {
    || (s.binding.Some? && t == BranchFinished(s, Success, Some(s.binding.value.branch)))
    || t == BranchFinished(s, Failure, None)
    || t == ForReview(s)
  }

  /** The next stored state when nothing goes wrong: bind, create, and only an attempt without a binding is given up. */
  ghost predicate CalmBranchStep(s: RunState, t: RunState) {
    var word := Word(s.ledger, TicketBranch);
    && (word == [] ==> t == BranchIntended(s))
    && (word == [I] ==> IsBound(BranchInvoked(s), t))
    && (word == [I, V] ==> t == ForReview(s))
    && (word == [I, V, O] ==> IsCreated(BranchInvoked(s), t))
    && (word == [I, V, O, V] ==> IsCreated(s, t))
  }

  predicate IsCreated(s: RunState, t: RunState) {
    s.binding.Some? && t == BranchFinished(s, Success, Some(s.binding.value.branch))
  }

  /** The steps still needed to create the branch, when nothing goes wrong. */
  function StepsLeft(word: seq<Kind>): nat {
    if word == [] then 3 else if word == [I] then 2 else if word == [I, V, O] || word == [I, V, O, V] then 1 else 0
  }

  /** The saga can go on from here: it is not in the one position that is always given up. */
  ghost predicate CanGoOn(s: RunState, policy: Policy) {
    Inv(s, policy) && s.phase == InProgressConfirmed && Word(s.ledger, TicketBranch) != [I, V]
  }

  /**
  Unless an earlier process died between the first invocation and the stored
  binding, every calm step comes nearer to the created branch: from wherever
  the saga was left, at most three steps create it.
  */
  lemma CalmStepAdvances(s: RunState, t: RunState, policy: Policy)
    requires CanGoOn(s, policy) && CalmBranchStep(s, t)
    ensures Inv(t, policy)
    ensures StepsLeft(Word(s.ledger, TicketBranch)) == StepsLeft(Word(t.ledger, TicketBranch)) + 1
    ensures
      if StepsLeft(Word(t.ledger, TicketBranch)) == 0
      then t.phase == BranchCreated && s.binding.Some? && t.branch == Some(s.binding.value.branch)
      else CanGoOn(t, policy)
  {
    hide Inv, Word, IsAwaiting, IntentionOf, ValidLedger, BranchIntended, BranchInvoked, IsBound, IsCreated;
    BranchIntentionFound(s, policy);
    BranchPhases(s, policy);
    var word := Word(s.ledger, TicketBranch);
    if word == [] {
      IntendShape(s);
      BranchIntendKeeps(s, t, policy);
    } else if word == [I] {
      BindAdvances(s, t, policy);
    } else if word == [I, V, O] {
      InvokedIsAwaited(s, policy);
      BranchInvokeKeeps(s, BranchInvoked(s), policy);
      CreateAdvances(BranchInvoked(s), t, policy);
    } else {
      CreateAdvances(s, t, policy);
    }
  }

  lemma IntendShape(s: RunState)
    ensures BranchIntended(s).phase == s.phase
  {
    hide Extend;
  }

  lemma BindAdvances(s: RunState, t: RunState, policy: Policy)
    requires Inv(s, policy) && s.phase == InProgressConfirmed && Word(s.ledger, TicketBranch) == [I] && s.binding == None
    requires IntentionOf(s.ledger, TicketBranch).Some? && !IsAwaiting(s.ledger) && IsBound(BranchInvoked(s), t)
    ensures Inv(t, policy) && t.phase == InProgressConfirmed && Word(t.ledger, TicketBranch) == [I, V, O]
  {
    hide Inv, Word, IsAwaiting, IntentionOf, Extend;
    var invoked := BranchInvoked(s);
    InvokedIsAwaited(s, policy);
    BranchInvokeKeeps(s, invoked, policy);
    var branchBinding :| t == BranchBound(invoked, branchBinding);
    BranchBindKeeps(invoked, branchBinding, t, policy);
  }

  lemma CreateAdvances(s: RunState, t: RunState, policy: Policy)
    requires Inv(s, policy) && s.phase == InProgressConfirmed && IsAwaiting(s.ledger) && s.binding.Some? && IsCreated(s, t)
    ensures Inv(t, policy) && Word(t.ledger, TicketBranch) == [I, V, O, V, O, R]
    ensures t.phase == BranchCreated && t.branch == Some(s.binding.value.branch)
  {
    hide Inv, Word, IsAwaiting, Extend;
    BranchFinishKeeps(s, Success, Some(s.binding.value.branch), t, policy);
  }

  class PrepareCoordinator {
    const host: Host
    const gateway: LinearGateway

    constructor (gateway: LinearGateway)
      ensures this.gateway == gateway && host == gateway.host
    {
      this.gateway, host := gateway, gateway.host;
    }

    ghost predicate Rests(generation: Generation)
      reads host, host.store
    {
      && host.Ok() && Doing(host.Now(), host.pid) == Idle
      && Known(generation, host.Now())
      && Inv(generation.state, host.plan.policy)
    }

    /** Nothing can go wrong from here: the surroundings are calm and this is the current generation. */
    ghost predicate IsCalmAt(generation: Generation)
      reads host, host.store
    {
      host.calm && IsCurrent(generation, host.Now())
    }

    /** A compare-and-swap of one of the saga's own writes. */
    method Swap(generation: Generation, ghost write: Write, next: RunState) returns (r: Result<Generation, PrepareError>)
      requires Rests(generation) && IsElsewhere(write, generation.state)
      requires Enabled(generation.state, write, host.terms) && next == After(generation.state, write, host.terms)
      modifies host, host.store
      ensures host.Ok() && Doing(host.Now(), host.pid) == Idle && MovesTo(old(host.Now()), host.Now(), host.plan)
      ensures r.Ok? ==> r.value == Generation(generation.revision + 1, next) && Rests(r.value)
      ensures old(IsCalmAt(generation)) ==> r.Ok? && IsCalmAt(r.value)
    {
      hide WorldInv, MovesTo, Inv, Known, Enabled, After;
      var access := host.Swap(generation, write, next);
      match access {
        case Current(stored) =>
          CurrentHasInv(host.Now(), host.plan);
          r := Ok(stored);
        case LostRace => r := Err(Overtaken);
        case Crashed => r := Err(Died);
      }
    }

    method EnterHumanReview(generation: Generation) returns (r: Result<Generation, PrepareError>)
      requires Rests(generation)
      modifies host, host.store
      ensures host.Ok() && Doing(host.Now(), host.pid) == Idle && MovesTo(old(host.Now()), host.Now(), host.plan)
      ensures r.Ok? ==> r.value == Generation(generation.revision + 1, ForReview(generation.state)) && Rests(r.value)
      ensures generation.state.disposition in {Done, Abandoned} ==> r == Err(TerminalState)
      ensures old(IsCalmAt(generation)) && generation.state.disposition !in {Done, Abandoned} ==> r.Ok? && IsCalmAt(r.value)
    {
      hide WorldInv, MovesTo, Inv, Known, ForReview;
      NothingHappens(host.Now(), host.pid, host.plan);
      if generation.state.disposition in {Done, Abandoned} {
        return Err(TerminalState);   // the store keeps a terminal state as it is
      }
      r := Swap(generation, PreparationReview, ForReview(generation.state));
    }

    /** Store the observation and the one reconciliation of the branch effect, together with the phase they decide. */
    method RecordBranchResult(generation: Generation, outcome: Outcome, branch: Option<string>) returns (r: Result<Generation, PrepareError>)
      requires Rests(generation) && generation.state.phase == InProgressConfirmed && IsAwaiting(generation.state.ledger)
      requires outcome == Success ==> generation.state.binding.Some? && branch == Some(generation.state.binding.value.branch)
      requires outcome != Success ==> outcome == Failure && branch == None
      modifies host, host.store
      ensures host.Ok() && Doing(host.Now(), host.pid) == Idle && MovesTo(old(host.Now()), host.Now(), host.plan)
      ensures r.Ok? ==> r.value == Generation(generation.revision + 1, BranchFinished(generation.state, outcome, branch)) && Rests(r.value)
      ensures old(IsCalmAt(generation)) ==> r.Ok? && IsCalmAt(r.value)
    {
      hide WorldInv, MovesTo, Inv, Known, BranchFinished, IsAwaiting;
      r := Swap(generation, BranchFinish(outcome, branch), BranchFinished(generation.state, outcome, branch));
    }

    method AppendInvocation(generation: Generation) returns (r: Result<Generation, PrepareError>)
      requires Rests(generation) && generation.state.phase == InProgressConfirmed && generation.state.binding == None
      requires IntentionOf(generation.state.ledger, TicketBranch).Some? && !IsAwaiting(generation.state.ledger)
      modifies host, host.store
      ensures host.Ok() && Doing(host.Now(), host.pid) == Idle && MovesTo(old(host.Now()), host.Now(), host.plan)
      ensures r.Ok? ==> r.value == Generation(generation.revision + 1, BranchInvoked(generation.state)) && Rests(r.value)
      ensures r.Ok? ==> IsAwaiting(r.value.state.ledger)
      ensures old(IsCalmAt(generation)) ==> r.Ok? && IsCalmAt(r.value)
    {
      hide WorldInv, MovesTo, Inv, Known, BranchInvoked, IsAwaiting;
      InvokedIsAwaited(generation.state, host.plan.policy);
      r := Swap(generation, BranchInvoke, BranchInvoked(generation.state));
    }

    /** Announce the creation of the bound branch; only the stored binding is ever handed to Git. */
    method AppendCreation(generation: Generation) returns (r: Result<Generation, PrepareError>)
      requires Rests(generation) && generation.state.phase == InProgressConfirmed && generation.state.binding.Some?
      requires IntentionOf(generation.state.ledger, TicketBranch).Some? && !IsAwaiting(generation.state.ledger)
      modifies host, host.store
      ensures host.Ok() && MovesTo(old(host.Now()), host.Now(), host.plan)
      ensures r.Ok? ==>
        && r.value == Generation(generation.revision + 1, BranchInvoked(generation.state))
        && Known(r.value, host.Now()) && Inv(r.value.state, host.plan.policy) && IsAwaiting(r.value.state.ledger)
        && Doing(host.Now(), host.pid) == MayCreate(r.value.revision, generation.state.binding.value)
      ensures r.Err? ==> Doing(host.Now(), host.pid) == Idle
      ensures old(IsCalmAt(generation)) ==> r.Ok? && IsCalmAt(r.value)
    {
      hide WorldInv, MovesTo, Inv, Known, BranchInvoked, IsAwaiting;
      InvokedIsAwaited(generation.state, host.plan.policy);
      CreationMayBeStored(host.Now(), host.pid, generation, host.plan);
      var access := host.SwapOwn(generation, InvokeCreation, BranchInvoked(generation.state),
        MayCreate(generation.revision + 1, generation.state.binding.value));
      match access {
        case Current(stored) =>
          CurrentHasInv(host.Now(), host.plan);
          r := Ok(stored);
        case LostRace => r := Err(Overtaken);
        case Crashed => r := Err(Died);
      }
    }

    /** Store what Git's answer about the bound branch means. */
    method Conclude(generation: Generation, answer: BranchAnswer) returns (r: Result<Generation, PrepareError>)
      requires Rests(generation) && generation.state.phase == InProgressConfirmed && IsAwaiting(generation.state.ledger)
      requires generation.state.binding.Some?
      modifies host, host.store
      ensures host.Ok() && Doing(host.Now(), host.pid) == Idle && MovesTo(old(host.Now()), host.Now(), host.plan)
      ensures r.Ok? ==> Rests(r.value) && CreatedOrFailed(generation.state, r.value.state)
      ensures r.Ok? && r.value.state.phase == BranchCreated ==> answer == Named(generation.state.binding.value.branch)
      ensures r.Ok? && answer == Named(generation.state.binding.value.branch) ==> IsCreated(generation.state, r.value.state)
      ensures old(IsCalmAt(generation)) && answer == Named(generation.state.binding.value.branch) ==> r.Ok? && IsCalmAt(r.value)
    {
      hide WorldInv, MovesTo, Inv, Known, IsAwaiting;
      if answer == ReuseRefused {
        r := EnterHumanReview(generation);
      } else if answer == Broken {
        r := RecordBranchResult(generation, Failure, None);
      } else if answer.branch != generation.state.binding.value.branch {
        r := EnterHumanReview(generation);
      } else {
        r := RecordBranchResult(generation, Success, Some(answer.branch));
      }
    }

    /** The first round: announce, ask Git for the exact lineage, and store it as the binding. */
    method BindBranch(generation: Generation) returns (r: Result<Generation, PrepareError>)
      requires Rests(generation) && generation.state.phase == InProgressConfirmed && generation.state.binding == None
      requires IntentionOf(generation.state.ledger, TicketBranch).Some? && !IsAwaiting(generation.state.ledger)
      modifies host, host.store
      ensures host.Ok() && Doing(host.Now(), host.pid) == Idle && MovesTo(old(host.Now()), host.Now(), host.plan)
      ensures r.Ok? ==> Rests(r.value) && BoundOrFailed(BranchInvoked(generation.state), r.value.state)
      ensures old(IsCalmAt(generation)) ==> r.Ok? && IsCalmAt(r.value) && IsBound(BranchInvoked(generation.state), r.value.state)
    {
      hide WorldInv, MovesTo, Inv, Known, IsAwaiting, BranchInvoked, BranchBound, BranchFinished, ForReview, IsBound;
      ghost var first := host.Now();
      var step := AppendInvocation(generation);
      if step.Err? {
        return step;
      }
      var invoked := step.value;
      ghost var second := host.Now();
      InvokedIsAwaited(generation.state, host.plan.policy);
      var reuse, breaks, malformed := *, *, *;
      var prepared: BranchBinding := *;
      reuse, breaks, malformed := reuse && !host.calm, breaks && !host.calm, malformed && !host.calm;
      if reuse || (!breaks && malformed) {
        r := EnterHumanReview(invoked);
      } else if breaks {
        r := RecordBranchResult(invoked, Failure, None);
      } else {
        r := Swap(invoked, BranchBind(prepared), BranchBound(invoked.state, prepared));
        if r.Ok? {
          BindingIsBound(invoked.state, prepared);
        }
      }
      MovesOn(first, second, host.Now(), host.plan);
    }

    /** The second round: announce, create the bound branch, and store the outcome. */
    method CreateBoundBranch(generation: Generation) returns (r: Result<Generation, PrepareError>)
      requires Rests(generation) && generation.state.phase == InProgressConfirmed && generation.state.binding.Some?
      requires IntentionOf(generation.state.ledger, TicketBranch).Some? && !IsAwaiting(generation.state.ledger)
      modifies host, host.store
      ensures host.Ok() && Doing(host.Now(), host.pid) == Idle && MovesTo(old(host.Now()), host.Now(), host.plan)
      ensures r.Ok? ==> Rests(r.value) && CreatedOrFailed(BranchInvoked(generation.state), r.value.state)
      ensures r.Ok? ==> host.branchCalls == [generation.state.binding.value]
      ensures old(IsCalmAt(generation)) ==> r.Ok? && IsCalmAt(r.value) && IsCreated(BranchInvoked(generation.state), r.value.state)
    {
      hide WorldInv, MovesTo, Inv, Known, IsAwaiting, BranchInvoked, CreatedOrFailed;
      ghost var first := host.Now();
      var step := AppendCreation(generation);
      if step.Err? {
        return step;
      }
      var invoked := step.value;
      InvokedIsAwaited(generation.state, host.plan.policy);
      ghost var second := host.Now();
      var alive, answer := host.CreateBoundBranch(invoked.revision, generation.state.binding.value);
      ghost var third := host.Now();
      MovesOn(first, second, third, host.plan);
      if !alive {
        return Err(Died);
      }
      KnownStays(invoked, second, third, host.plan);
      r := Conclude(invoked, answer);
      MovesOn(first, third, host.Now(), host.plan);
      CreationsAreKept(third, host.Now(), generation.state.binding.value, host.plan);
    }

    /** An earlier process may have died in the creation: look for the bound branch, without creating it. */
    method LookForBranch(generation: Generation) returns (r: Result<Generation, PrepareError>)
      requires Rests(generation) && generation.state.phase == InProgressConfirmed && IsAwaiting(generation.state.ledger)
      requires generation.state.binding.Some?
      modifies host, host.store
      ensures host.Ok() && Doing(host.Now(), host.pid) == Idle && MovesTo(old(host.Now()), host.Now(), host.plan)
      ensures r.Ok? ==> Rests(r.value) && CreatedOrFailed(generation.state, r.value.state)
      ensures old(IsCalmAt(generation)) ==> r.Ok? && IsCalmAt(r.value) && IsCreated(generation.state, r.value.state)
    {
      hide WorldInv, MovesTo, Inv, Known, IsAwaiting, CreatedOrFailed, IsCreated;
      ghost var first := host.Now();
      host.Interfere();
      ghost var second := host.Now();
      KnownStays(generation, first, second, host.plan);
      var answer := host.AnswerAbout(generation.state.binding.value);
      r := Conclude(generation, answer);
      MovesOn(first, second, host.Now(), host.plan);
    }

    /** One step of the branch saga, from wherever an earlier process left it. */
    method ReconcileBranch(generation: Generation) returns (r: Result<Generation, PrepareError>)
      requires Rests(generation) && generation.state.phase == InProgressConfirmed
      modifies host, host.store
      ensures host.Ok() && Doing(host.Now(), host.pid) == Idle && MovesTo(old(host.Now()), host.Now(), host.plan)
      ensures r.Ok? ==> Rests(r.value) && BranchStep(generation.state, r.value.state)
      ensures old(IsCalmAt(generation)) && generation.state.disposition == Active ==>
        r.Ok? && IsCalmAt(r.value) && CalmBranchStep(generation.state, r.value.state)
    {
      hide WorldInv, MovesTo, Inv, Known, IsAwaiting, BranchInvoked, BoundOrFailed, IsBound, IsCreated, CreatedOrFailed, BranchIntended, ForReview, ValidLedger, Word, IntentionOf, Latest;
      ghost var first := host.Now();
      NothingHappens(first, host.pid, host.plan);
      var contextFails := *;
      if contextFails && !host.calm {
        return Err(ContextUnavailable);
      }
      var s := generation.state;
      BranchIntentionFound(s, host.plan.policy);
      BranchPhases(s, host.plan.policy);
      if Latest(s.ledger, CreateBranch) == None {
        r := Swap(generation, BranchIntend, BranchIntended(s));
        return;
      }
      var checked := ValidateEffectLedger(s.ledger);
      var awaiting := checked.value.1[TicketBranch] == AwaitingObservation;
      if s.binding == None {
        if awaiting {
          r := EnterHumanReview(generation);
        } else {
          r := BindBranch(generation);
        }
      } else if awaiting {
        r := LookForBranch(generation);
      } else {
        r := CreateBoundBranch(generation);
      }
    }

    /** One call of the preparation, in whatever phase the run is. */
    method Advance(expected: nat) returns (r: Result<PrepareResult, PrepareError>)
      requires gateway.host == host && host.Ok() && Doing(host.Now(), host.pid) == Idle
      modifies host, host.store
      ensures host.Ok() && Doing(host.Now(), host.pid) == Idle && MovesTo(old(host.Now()), host.Now(), host.plan)
      ensures r.Ok? ==> Known(r.value.generation, host.Now())
      ensures r.Ok? && r.value.Waiting? ==> r.value.generation.state.pending == Some(r.value.request)
      ensures host.calm && old(host.store.revision) == expected && old(host.store.state).disposition == Active ==>
        && (old(host.store.state).phase == InProgressConfirmed ==>
              r.Ok? && r.value.Settled? && IsCalmAt(r.value.generation) && CalmBranchStep(old(host.store.state), r.value.generation.state))
        && (old(host.store.state).phase == Selected && old(host.store.state).pending == None ==>
              r.Ok? && r.value.Waiting? && r.value.request.operation == StartTicket)
        && (old(host.store.state).phase == CompensationRequired && !old(host.store.state).compensated && old(host.store.state).pending == None ==>
              r.Ok? && r.value.Waiting? && r.value.request.operation == RestoreTicket)
    {
      hide WorldInv, MovesTo, Meanwhile, Inv, Known, Enabled, BranchStep, CalmBranchStep, ForReview;
      ghost var first := host.Now();
      var loaded := host.Load();
      var generation := loaded.generation;
      ghost var second := host.Now();
      CurrentHasInv(second, host.plan);
      if generation.revision != expected {
        return Err(GenerationMismatch);
      }
      var policyFails, contextFails := *, *;
      if policyFails && !host.calm {
        var reviewed := EnterHumanReview(generation);
        MovesOn(first, second, host.Now(), host.plan);
        return if reviewed.Ok? then Ok(Settled(reviewed.value)) else Err(reviewed.error);
      }
      match generation.state.phase {
        case Selected =>
          if contextFails && !host.calm {
            return Err(ContextUnavailable);
          }
          r := Request(generation, StartTicket);
          MovesOn(first, second, host.Now(), host.plan);
        case InProgressRequested =>
          var replayed := gateway.ReplayPending(generation);
          MovesOn(first, second, host.Now(), host.plan);
          r := match replayed
            case Ok(Some(request)) => Ok(Waiting(generation, request))
            case Ok(None) => Err(NoStartRequest)
            case Err(error) => Err(Gateway(error));
          if r.Ok? {
            CurrentHasInv(host.Now(), host.plan);
          }
        case InProgressConfirmed =>
          var carried := ReconcileBranch(generation);
          MovesOn(first, second, host.Now(), host.plan);
          r := if carried.Ok? then Ok(Settled(carried.value)) else Err(carried.error);
        case CompensationRequired =>
          if generation.state.compensated || generation.state.disposition != Active {
            return Ok(Settled(generation));
          }
          if contextFails && !host.calm {
            return Err(ContextUnavailable);
          }
          r := Request(generation, RestoreTicket);
          MovesOn(first, second, host.Now(), host.plan);
        case _ =>
          r := Ok(Settled(generation));
      }
    }

    /** Ask Linear to start the ticket, or to give it back. */
    method Request(generation: Generation, operation: Operation) returns (r: Result<PrepareResult, PrepareError>)
      requires gateway.host == host && Rests(generation)
      requires || (operation == StartTicket && generation.state.phase == Selected)
               || (operation == RestoreTicket && generation.state.phase == CompensationRequired && !generation.state.compensated)
      modifies host, host.store
      ensures host.Ok() && Doing(host.Now(), host.pid) == Idle && MovesTo(old(host.Now()), host.Now(), host.plan)
      ensures r.Ok? ==> r.value.Waiting? && Known(r.value.generation, host.Now())
      ensures r.Ok? ==> r.value.generation.state.pending == Some(r.value.request) && r.value.request.operation == operation
      ensures generation.state.disposition != Active && generation.state.pending == None ==> r == Err(Gateway(PendingConflict))
      ensures old(IsCalmAt(generation)) && generation.state.disposition == Active && generation.state.pending == None ==> r.Ok?
    {
      hide WorldInv, MovesTo, Meanwhile, Inv, Known, Enabled, AskedState;
      var id := FreshId(generation.state.ledger);
      HigherIsFresh(generation.state.ledger, Highest(generation.state.ledger) + 1);
      var request := EffectLedger.Request(id.n, id, operation, Ticket, map[], Some(host.plan.policy.externalRevision), generation.revision);
      if generation.state.pending == None && generation.state.disposition == Active {
        PreparationMayAsk(generation.state, request, host.terms);
      }
      ghost var asked;
      var persisted;
      persisted, asked := gateway.PersistPending(generation, request);
      r := if persisted.Ok? then Ok(Waiting(persisted.value, request)) else Err(Gateway(persisted.error));
    }

    /** Consume a receipt with the preparation's own update; a receipt that confirms nothing sends the run to review. */
    method ConsumeReceipt(expected: nat, receipt: Receipt, authentic: bool) returns (r: Result<Generation, PrepareError>)
      requires gateway.host == host && host.Ok() && Doing(host.Now(), host.pid) == Idle
      modifies host, host.store
      ensures host.Ok() && Doing(host.Now(), host.pid) == Idle && MovesTo(old(host.Now()), host.Now(), host.plan)
      ensures r.Ok? ==> WasConsumed(r.value.state.ledger, receipt) && Known(r.value, host.Now())
      ensures !authentic ==> r.Err?
    {
      hide WorldInv, MovesTo, Meanwhile, Inv, Known, WasConsumed, AcceptedState;
      ghost var first := host.Now();
      var loaded := host.Load();
      var generation := loaded.generation;
      ghost var second := host.Now();
      CurrentHasInv(second, host.plan);
      if generation.revision != expected {
        return Err(GenerationMismatch);
      }
      ghost var applied;
      var consumed;
      consumed, applied := gateway.ConsumeReceipt(generation, receipt, authentic, ForPreparation);
      MovesOn(first, second, host.Now(), host.plan);
      r := if consumed.Ok? then Ok(consumed.value) else Err(Gateway(consumed.error));
    }
  }

  lemma PreparationMayAsk(s: RunState, request: Request, terms: Terms)
    requires s.disposition == Active && s.pending == None && IsFresh(s.ledger, request.effect) && request.target == Ticket
    requires || (request.operation == StartTicket && s.phase == Selected)
             || (request.operation == RestoreTicket && s.phase == CompensationRequired && !s.compensated)
    ensures Enabled(s, Asking(request), terms)
  {
    hide IsFresh;
  }

  lemma CreationMayBeStored(w: World, p: Process, generation: Generation, plan: Plan)
    requires Doing(w, p) == Idle && generation.state.binding.Some? && generation.state.phase == InProgressConfirmed
    requires IntentionOf(generation.state.ledger, TicketBranch).Some? && !IsAwaiting(generation.state.ledger)
    ensures MayStore(w, p, InvokeCreation, generation, plan)
    ensures var next := Step(View(w, generation), p, InvokeCreation, plan);
      && next.state == BranchInvoked(generation.state)
      && Doing(next, p) == MayCreate(generation.revision + 1, generation.state.binding.value)
  {
    hide IsAwaiting, IntentionOf, BranchInvoked;
  }

  /** A creation that was made is the only one there will ever be. */
  lemma CreationsAreKept(before: World, after: World, target: BranchBinding, plan: Plan)
    requires WorldInv(before, plan) && MovesTo(before, after, plan) && target in before.branchCalls
    ensures after.branchCalls == [target]
  {
    hide WorldInv, IsPath;
    var worlds, steps :| IsPath(worlds, steps, before, after, plan);
    CreationsGrow(worlds, steps, before, after, plan);
    MovesKeepTheBranch(before, after, plan);
    OneCreation(after, plan);
  }

  lemma OneCreation(w: World, plan: Plan)
    requires WorldInv(w, plan)
    ensures |w.branchCalls| <= 1
  {
    hide Inv, ActivityOk, CallsOk, IsInvokedFor;
  }

  lemma {:induction false} CreationsGrow(worlds: seq<World>, steps: seq<(Process, Action)>, from: World, to: World, plan: Plan)
    requires IsPath(worlds, steps, from, to, plan)
    ensures from.branchCalls <= to.branchCalls
    decreases |steps|
  {
    hide CanStep, Step, Enabled;
    if |steps| > 0 {
      var mid, last := worlds[|steps| - 1], steps[|steps| - 1];
      var shorter, before := worlds[..|steps|], steps[..|steps| - 1];
      forall i | 0 <= i < |before| ensures Happens(shorter, before, i, plan) {
        assert Happens(worlds, steps, i, plan);
      }
      CreationsGrow(shorter, before, from, mid, plan);
      assert Happens(worlds, steps, |steps| - 1, plan);
      CreationGrows(mid, last.0, last.1, plan);
    }
  }

  lemma CreationGrows(w: World, p: Process, a: Action, plan: Plan)
    requires CanStep(w, p, a, plan) && (a.Save? ==> Enabled(w.state, StoredAnswer(w, p, a.outcome), TermsOf(plan, p)))
    ensures w.branchCalls <= Step(w, p, a, plan).branchCalls
  {
    hide Enabled, After, IsOpen;
  }

  /** The latest branch intention is the branch effect's own. */
  lemma BranchIntentionFound(s: RunState, policy: Policy)
    requires Inv(s, policy)
    ensures ValidLedger(s.ledger)
    ensures Latest(s.ledger, CreateBranch).Some? <==> IntentionOf(s.ledger, TicketBranch).Some?
    ensures IntentionOf(s.ledger, TicketBranch).Some? <==> Word(s.ledger, TicketBranch) != []
  {
    hide ValidState, PendingStory, BranchStory, Milestones, Bounded, WaitStory, Word;
    LatestIffIntended(s.ledger);
    IntentionIffWord(s.ledger, TicketBranch);
  }

  lemma {:induction false} LatestIffIntended(ledger: seq<Event>)
    requires ValidLedger(ledger) && OnlyBranchCreates(ledger)
    ensures Latest(ledger, CreateBranch).Some? <==> IntentionOf(ledger, TicketBranch).Some?
  {
    hide ValidLedger, Word, Latest, IntentionOf;
    if Latest(ledger, CreateBranch).Some? {
      LatestIsIntended(ledger, CreateBranch);
    } else if IntentionOf(ledger, TicketBranch).Some? {
      NoLatestNoIntention(ledger, TicketBranch, CreateBranch);
    }
  }

  lemma {:induction false} NoLatestNoIntention(ledger: seq<Event>, effect: EffectId, operation: Operation)
    requires Latest(ledger, operation) == None
    ensures !IsIntended(ledger, effect, operation)
  {
    if ledger != [] {
      NoLatestNoIntention(ledger[..|ledger| - 1], effect, operation);
    }
  }

  /** While the phase is InProgressConfirmed the loop's phase of the branch effect tells its word. */
  lemma BranchPhases(s: RunState, policy: Policy)
    requires Inv(s, policy) && s.phase == InProgressConfirmed
    ensures ValidLedger(s.ledger)
    ensures PhaseOf(s.ledger, TicketBranch) == Some(AwaitingObservation) <==> IsAwaiting(s.ledger)
    ensures PhaseOf(s.ledger, TicketBranch).Some? <==> Word(s.ledger, TicketBranch) != []
    ensures IsAwaiting(s.ledger) ==> Word(s.ledger, TicketBranch) == if s.binding == None then [I, V] else [I, V, O, V]
    ensures Word(s.ledger, TicketBranch) != [] && !IsAwaiting(s.ledger) ==>
      Word(s.ledger, TicketBranch) == if s.binding == None then [I] else [I, V, O]
  {
    hide ValidState, PendingStory, Milestones, Bounded, WaitStory, Word, Quiet, OnlyBranchCreates;
    BranchPosition(s);
    WordPhases();
  }

  lemma BindingIsBound(s: RunState, branchBinding: BranchBinding)
    ensures IsBound(s, BranchBound(s, branchBinding))
  {
    hide BranchBound;
  }

  lemma InvokedIsAwaited(s: RunState, policy: Policy)
    requires Inv(s, policy) && s.phase == InProgressConfirmed
    requires IntentionOf(s.ledger, TicketBranch).Some? && !IsAwaiting(s.ledger)
    ensures IsAwaiting(BranchInvoked(s).ledger)
    ensures var t := BranchInvoked(s); t.phase == s.phase && t.binding == s.binding && t.disposition == s.disposition
  {
    hide Extend, Inv, Word, IntentionOf;
    BranchInvokeKeeps(s, BranchInvoked(s), policy);
  }
}
