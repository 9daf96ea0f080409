/** The gateway to Linear: one pending request at a time, and receipts consumed exactly once. */
module LinearGateways {
  import opened Outcomes
  import opened EffectLedger
  import opened LedgerViews
  import opened RunStates
  import opened Stores
  import opened FinalizerWrites
  import opened LinearWrites
  import opened PreparationWrites
  import opened Protocol
  import opened ProtocolInvariant
  import opened ProtocolRuns
  import opened Worlds
  import opened WorldSteps
  import opened Hosts

  datatype GatewayError = InvalidBinding | PendingConflict | UntrustedReceipt | ConflictingReplay | StoreConflict | Ended

  /** Whose state update a receipt is consumed with. */
  datatype ReceiptUse = ForFinalization | ForPreparation

  /** A receipt whose reconciliation is in a valid ledger is the only one for its effect. */
  lemma OtherReceiptsAreRefused(ledger: seq<Event>, consumed: Receipt, other: Receipt)
    requires ValidLedger(ledger) && WasConsumed(ledger, consumed)
    requires other.request.effect == consumed.request.effect && other != consumed
    ensures !WasConsumed(ledger, other)
  {
    hide ValidLedger;
    if WasConsumed(ledger, other) {
      var a :| a in ledger && IsConsumption(a, consumed);
      var b :| b in ledger && IsConsumption(b, other);
      var i :| 0 <= i < |ledger| && ledger[i] == a;
      var j :| 0 <= j < |ledger| && ledger[j] == b;
      if i < j {
        OneReconciliation(ledger, i, j);
      } else if j < i {
        OneReconciliation(ledger, j, i);
      }
    }
  }

  ghost function Asking(request: Request): Write {
    if request.operation == StartTicket then AskToStart(request) else Ask(request)
  }

  function AskedState(s: RunState, request: Request): RunState {
    if request.operation == StartTicket then StartRequested(PendingState(s, request)) else PendingState(s, request)
  }

  ghost function Accepting(receipt: Receipt, use: ReceiptUse): Write {
    if use == ForFinalization then Accept(receipt) else AcceptPreparation(receipt)
  }

  function AcceptedState(s: RunState, receipt: Receipt, use: ReceiptUse, policy: Policy): RunState {
    if use == ForFinalization
    then AcceptUpdate(ConsumedState(s, receipt, receipt.retryAfter), receipt.request.operation, receipt, policy)
    else ReceiptPhase(ConsumedState(s, receipt, 0.0), receipt)
  }

  class LinearGateway {
    const host: Host

    constructor (host: Host)
      ensures this.host == host
    {
      this.host := host;
    }

    ghost predicate Rests()
      reads host, host.store
    {
      host.Ok() && Doing(host.Now(), host.pid) == Idle
    }

    /**
    Store the request as the run's pending one. Success always means that
    exactly this request is pending in the returned generation, whoever stored
    it; unless `asked`, this process has stored nothing.
    */
    method PersistPending(generation: Generation, request: Request)
      returns (r: Result<Generation, GatewayError>, ghost asked: bool)
      requires Rests() && Known(generation, host.Now())
      requires generation.state.pending == None && generation.state.disposition == Active ==>
        Enabled(generation.state, Asking(request), host.terms)
      modifies host, host.store
      ensures Rests() && MovesTo(old(host.Now()), host.Now(), host.plan)
      ensures r.Ok? ==> r.value.state.pending == Some(request) && Known(r.value, host.Now())
      ensures asked ==> r == Ok(Generation(generation.revision + 1, AskedState(generation.state, request)))
      ensures asked ==> r.value == Generation(host.store.revision, host.store.state)
      ensures !asked && r != Err(Ended) ==> Meanwhile(old(host.Now()), host.Now(), host.pid, host.plan)
      ensures request.revision != generation.revision ==> r == Err(InvalidBinding)
      ensures request.revision == generation.revision && generation.state.pending.Some? ==>
        r == if generation.state.pending == Some(request) then Ok(generation) else Err(PendingConflict)
      ensures request.revision == generation.revision && generation.state.pending == None && generation.state.disposition != Active ==>
        r == Err(PendingConflict)
      ensures
        && host.calm && IsCurrent(generation, old(host.Now())) && request.revision == generation.revision
        && generation.state.pending == None && generation.state.disposition == Active
        ==> asked && host.repo == old(host.repo)
    {
      hide WorldInv, MovesTo, Meanwhile, Enabled, After;
      ghost var first := host.Now();
      NothingHappens(first, host.pid, host.plan);
      asked := false;
      if request.revision != generation.revision {
        return Err(InvalidBinding), false;
      }
      if generation.state.pending.Some? {
        return if generation.state.pending == Some(request) then Ok(generation) else Err(PendingConflict), false;
      }
      if generation.state.disposition != Active {
        return Err(PendingConflict), false;
      }
      AskingStores(generation.state, request, host.terms);
      var access := host.Swap(generation, Asking(request), AskedState(generation.state, request));
      if access.Current? {
        return Ok(access.generation), true;
      }
      if access.Crashed? {
        return Err(Ended), false;
      }
      ghost var second := host.Now();
      var current := host.Load();
      MovesOn(first, second, host.Now(), host.plan);
      MeanwhileOn(first, second, host.Now(), host.pid, host.plan);
      r := if current.generation.state.pending == Some(request) then Ok(current.generation) else Err(StoreConflict);
    }

    /** Rebuild the pending request from the record alone; this process stores nothing. */
    method ReplayPending(generation: Generation) returns (r: Result<Option<Request>, GatewayError>)
      requires Rests() && Known(generation, host.Now())
      modifies host, host.store
      ensures Rests() && MovesTo(old(host.Now()), host.Now(), host.plan) && Meanwhile(old(host.Now()), host.Now(), host.pid, host.plan)
      ensures r.Ok? <==> Generation(host.store.revision, host.store.state) == generation
      ensures r.Ok? ==> r.value == generation.state.pending
      ensures r.Err? ==> r.error == StoreConflict
      ensures host.calm ==> host.Now() == old(host.Now())
    {
      hide WorldInv, MovesTo, Meanwhile, ValidLedger;
      var current := host.Load();
      if current.generation != generation {
        return Err(StoreConflict);
      }
      var pending := generation.state.pending;
      if pending == None {
        return Ok(None);
      }
      StoreIsValid(host.Now(), host.plan);
      var checked := ValidateEffectLedger(generation.state.ledger);
      var intentions := checked.value.0;
      var request := pending.value;
      if !(request.effect in intentions
           && intentions[request.effect] == Intention(request.operation, request.target, BridgeHash(request))) {
        return Err(PendingConflict);
      }
      r := Ok(pending);
    }

    /**
    Consume a receipt. Success always means that this receipt is reconciled in
    the returned generation; unless `applied`, this process has stored nothing.
    With nothing pending, an already consumed receipt returns the current
    generation and any other receipt is refused; otherwise only a receipt for
    exactly the pending request is applied.
    */
    method ConsumeReceipt(generation: Generation, receipt: Receipt, authentic: bool, use: ReceiptUse)
      returns (r: Result<Generation, GatewayError>, ghost applied: bool)
      requires Rests() && Known(generation, host.Now())
      requires generation.state.pending == Some(receipt.request) ==>
        Enabled(generation.state, Accepting(receipt, use), host.terms)
      modifies host, host.store
      ensures Rests() && MovesTo(old(host.Now()), host.Now(), host.plan)
      ensures !authentic ==> r == Err(UntrustedReceipt)
      ensures r.Ok? ==> WasConsumed(r.value.state.ledger, receipt) && Known(r.value, host.Now())
      ensures applied ==>
        && generation.state.pending == Some(receipt.request)
        && r == Ok(Generation(generation.revision + 1, AcceptedState(generation.state, receipt, use, host.plan.policy)))
      ensures !applied && r != Err(Ended) ==> Meanwhile(old(host.Now()), host.Now(), host.pid, host.plan)
      ensures !applied && r.Ok? ==> r.value == Generation(host.store.revision, host.store.state)
      ensures r == Err(ConflictingReplay) ==> host.store.state.pending == None && !WasConsumed(host.store.state.ledger, receipt)
      ensures host.calm && authentic && IsCurrent(generation, old(host.Now())) && generation.state.pending == Some(receipt.request) ==> applied
      ensures host.calm && authentic && old(host.store.state).pending == None ==>
        r == if WasConsumed(old(host.store.state).ledger, receipt)
             then Ok(Generation(old(host.store.revision), old(host.store.state))) else Err(ConflictingReplay)
      ensures host.calm && authentic && old(host.store.state).pending.Some? && !IsCurrent(generation, old(host.Now())) ==> r == Err(StoreConflict)
      ensures
        && host.calm && authentic && IsCurrent(generation, old(host.Now()))
        && generation.state.pending.Some? && generation.state.pending != Some(receipt.request)
        ==> r == Err(UntrustedReceipt)
    {
      hide WorldInv, MovesTo, Meanwhile, Enabled, After, AcceptedState, WasConsumed;
      ghost var first := host.Now();
      applied := false;
      if !authentic {
        NothingHappens(first, host.pid, host.plan);
        return Err(UntrustedReceipt), false;
      }
      var loaded := host.Load();
      var current := loaded.generation;
      ghost var second := host.Now();
      if current.state.pending == None {
        var consumed := IsInLedger(current.state.ledger, receipt);
        return if consumed then Ok(current) else Err(ConflictingReplay), false;
      }
      if current != generation {
        return Err(StoreConflict), false;
      }
      if current.state.pending != Some(receipt.request) {
        return Err(UntrustedReceipt), false;
      }
      AcceptingStores(current.state, receipt, use, host.terms);
      AcceptedIsConsumed(current.state, receipt, use, host.plan.policy);
      var access := host.Swap(current, Accepting(receipt, use), AcceptedState(current.state, receipt, use, host.plan.policy));
      MovesOn(first, second, host.Now(), host.plan);
      if access.Current? {
        return Ok(access.generation), true;
      }
      if access.Crashed? {
        return Err(Ended), false;
      }
      ghost var third := host.Now();
      MeanwhileOn(first, second, third, host.pid, host.plan);
      var latest := host.Load();
      MovesOn(first, third, host.Now(), host.plan);
      MeanwhileOn(first, third, host.Now(), host.pid, host.plan);
      var consumed := IsInLedger(latest.generation.state.ledger, receipt);
      r := if consumed then Ok(latest.generation) else Err(StoreConflict);
    }

    method IsInLedger(ledger: seq<Event>, receipt: Receipt) returns (found: bool)
      ensures found <==> WasConsumed(ledger, receipt)
    {
      found := exists event <- ledger :: IsConsumption(event, receipt);
    }
  }

  lemma AskingStores(s: RunState, request: Request, terms: Terms)
    requires Enabled(s, Asking(request), terms)
    ensures IsElsewhere(Asking(request), s) && After(s, Asking(request), terms) == AskedState(s, request)
  {
    hide StateApproved, Finalizing, IsFresh, Attempts, PendingState, StartRequested;
  }

  lemma AcceptingStores(s: RunState, receipt: Receipt, use: ReceiptUse, terms: Terms)
    requires Enabled(s, Accepting(receipt, use), terms)
    ensures IsElsewhere(Accepting(receipt, use), s) && After(s, Accepting(receipt, use), terms) == AcceptedState(s, receipt, use, terms.policy)
  {
    hide StateApproved, AcceptUpdate, ReceiptPhase, ConsumedState;
  }

  lemma AcceptedIsConsumed(s: RunState, receipt: Receipt, use: ReceiptUse, policy: Policy)
    ensures WasConsumed(AcceptedState(s, receipt, use, policy).ledger, receipt)
  {
    var wait := if use == ForFinalization then receipt.retryAfter else 0.0;
    var c := ConsumedState(s, receipt, wait);
    RoundEndsConsumed(s.ledger, receipt, wait);
    if use == ForFinalization {
      AcceptanceKeepsLedger(c, receipt, AcceptedState(s, receipt, use, policy), policy);
    } else {
      ConfirmationKeepsLedger(c, receipt, AcceptedState(s, receipt, use, policy));
    }
  }
}
