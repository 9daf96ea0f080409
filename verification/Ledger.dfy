/**
The Effect Ledger: the append-only log of what was intended, invoked, observed
and reconciled for every external change of a run.

The checking loop is stated as code and proved equal to a declarative grammar:
sequence numbers strictly increase, and the events of each single effect spell
I(VO)*, I(VO)*V or I(VO)*R.
*/
module EffectLedger {
  import opened Outcomes

  datatype Operation =
    | Commit | Push | ReconcileCommit | ReconcilePush
    | QueryProjection | CompleteTicket | StartTicket | RestoreTicket | QueryState
    | CreateBranch

  /** Effect identifiers are a random suffix per effect, except the ticket
      branch, whose identifier is derived from the run and ticket alone. */
  datatype EffectId = Uuid(n: nat) | TicketBranch

  datatype Target = Ticket | EffectTarget(effect: EffectId)

  datatype Outcome = Success | Failure | NotFound | Conflict | Unknown

  /** A request to the Linear bridge, bound to the generation it was made from. */
  datatype Request = Request(
    requestId: nat,
    effect: EffectId,
    operation: Operation,
    target: Target,
    arguments: map<string, string>,
    externalRevision: Option<string>,
    revision: nat)

  /** A bridge-signed receipt; its content hash is the receipt itself. */
  datatype Receipt = Receipt(
    request: Request,
    outcome: Outcome,
    externalRevision: Option<string>,
    observedState: Option<string>,
    resultHash: string,
    retryAfter: real,
    observedAt: real)

  datatype RequestHash = LocalHash(effect: EffectId, operation: Operation, target: Target) | BridgeHash(request: Request)

  datatype Payload =
    | Intention(operation: Operation, target: Target, request: RequestHash)
    | Invocation(wait: real)
    | Observation(outcome: Outcome, revision: Option<string>, evidence: Option<Receipt>)
    | Reconciliation(result: Outcome, receipt: Option<Receipt>)

  datatype Event = Event(effect: EffectId, sequence: int, payload: Payload)

  datatype Kind = I | V | O | R

  function KindOf(event: Event): Kind {
    match event.payload
    case Intention(_, _, _) => I
    case Invocation(_) => V
    case Observation(_, _, _) => O
    case Reconciliation(_, _) => R
  }

  // ----- the declarative grammar -----

  ghost predicate InGrammar(word: seq<Kind>) {
    word == [] || (word[0] == I && Rounds(word[1..]))
  }

  ghost predicate Rounds(word: seq<Kind>) {
    || word == []
    || word == [V]
    || word == [R]
    || (|word| >= 2 && word[0] == V && word[1] == O && Rounds(word[2..]))
  }

  /** The events of one effect, in ledger order. */
  ghost function Word(ledger: seq<Event>, effect: EffectId): (word: seq<Kind>)
    ensures |word| <= |ledger|
  {
    if ledger == [] then []
    else
      var rest := Word(ledger[..|ledger| - 1], effect);
      var last := ledger[|ledger| - 1];
      if last.effect == effect then rest + [KindOf(last)] else rest
  }

  ghost predicate Increasing(ledger: seq<Event>) {
    && (forall i :: 0 <= i < |ledger| ==> 0 < ledger[i].sequence)
    && (forall i, j :: 0 <= i < j < |ledger| ==> ledger[i].sequence < ledger[j].sequence)
  }

  ghost predicate ValidLedger(ledger: seq<Event>) {
    Increasing(ledger) && forall effect :: InGrammar(Word(ledger, effect))
  }

  // ----- the automaton of the checking loop -----

  datatype Phase = Ready | AwaitingObservation | Reconciled

  datatype LedgerError =
    | SequenceNotIncreasing
    | SecondIntention
    | InvocationNotReady
    | ObservationNotAwaited
    | ReconciliationTooEarly
    | SecondReconciliation

  /** One event against the phase its effect is in (None: no intention yet). */
  function Transition(phase: Option<Phase>, kind: Kind): Result<Phase, LedgerError> {
    match kind
    case I => if phase.Some? then Err(SecondIntention) else Ok(Ready)
    case V => if phase != Some(Ready) then Err(InvocationNotReady) else Ok(AwaitingObservation)
    case O => if phase != Some(AwaitingObservation) then Err(ObservationNotAwaited) else Ok(Ready)
    case R =>
      if phase == Some(AwaitingObservation) || phase == None then Err(ReconciliationTooEarly)
      else if phase == Some(Reconciled) then Err(SecondReconciliation)
      else Ok(Reconciled)
  }

  ghost function RunFrom(phase: Option<Phase>, word: seq<Kind>): Result<Option<Phase>, LedgerError>
    decreases |word|
  {
    if word == [] then Ok(phase)
    else
      match Transition(phase, word[0])
      case Ok(next) => RunFrom(Some(next), word[1..])
      case Err(error) => Err(error)
  }

  lemma {:induction false} RunFromSnoc(phase: Option<Phase>, word: seq<Kind>, kind: Kind)
    ensures RunFrom(phase, word + [kind]) ==
            match RunFrom(phase, word)
            case Err(error) => Err(error)
            case Ok(mid) => match Transition(mid, kind) case Ok(next) => Ok(Some(next)) case Err(error) => Err(error)
    decreases |word|
  {
    if word == [] {
      assert [] + [kind] == [kind];
      assert [kind][1..] == [];
    } else {
      assert (word + [kind])[1..] == word[1..] + [kind];
      var step := Transition(phase, word[0]);
      if step.Ok? {
        RunFromSnoc(Some(step.value), word[1..], kind);
      }
    }
  }

  lemma {:induction false} ReconciledIsFinal(word: seq<Kind>)
    ensures RunFrom(Some(Reconciled), word).Ok? <==> word == []
  {
  }

  lemma {:induction false} RoundsAreAccepted(word: seq<Kind>)
    ensures Rounds(word) <==> RunFrom(Some(Ready), word).Ok?
    decreases |word|
  {
    if word != [] {
      ReconciledIsFinal(word[1..]);
      if word[0] == V && |word| >= 2 && word[1] == O {
        assert word[1..][1..] == word[2..];
        RoundsAreAccepted(word[2..]);
      } else if |word| >= 2 {
        assert word[1..][0] == word[1];
      }
    }
  }

  /** The automaton accepts a word exactly when the word is in the grammar. */
  lemma {:induction false} AutomatonIsGrammar(word: seq<Kind>)
    ensures InGrammar(word) <==> RunFrom(None, word).Ok?
  {
    if word != [] {
      RoundsAreAccepted(word[1..]);
    }
  }

  ghost function PhaseOf(ledger: seq<Event>, effect: EffectId): (phase: Option<Phase>)
    requires InGrammar(Word(ledger, effect))
  {
    AutomatonIsGrammar(Word(ledger, effect));
    RunFrom(None, Word(ledger, effect)).value
  }

  function LastSequence(ledger: seq<Event>): int {
    if ledger == [] then 0 else ledger[|ledger| - 1].sequence
  }

  /** Why an event may not follow a valid ledger; None when it may. */
  ghost function Refusal(ledger: seq<Event>, event: Event): (refusal: Option<LedgerError>)
    requires ValidLedger(ledger)
  {
    if event.sequence <= LastSequence(ledger) then Some(SequenceNotIncreasing)
    else
      match Transition(PhaseOf(ledger, event.effect), KindOf(event))
      case Ok(_) => None
      case Err(error) => Some(error)
  }

  lemma WordSnoc(ledger: seq<Event>, event: Event, effect: EffectId)
    ensures Word(ledger + [event], effect) ==
            if event.effect == effect then Word(ledger, effect) + [KindOf(event)] else Word(ledger, effect)
  {
    assert (ledger + [event])[..|ledger|] == ledger;
  }

  /** A valid ledger may be extended by exactly the events that are not refused. */
  lemma {:induction false} ExtendedValidity(ledger: seq<Event>, event: Event)
    requires ValidLedger(ledger)
    ensures ValidLedger(ledger + [event]) <==> Refusal(ledger, event) == None
  {
    var longer := ledger + [event];
    WordSnoc(ledger, event, event.effect);
    RunFromSnoc(None, Word(ledger, event.effect), KindOf(event));
    AutomatonIsGrammar(Word(ledger, event.effect));
    AutomatonIsGrammar(Word(longer, event.effect));
    forall effect | effect != event.effect
      ensures Word(longer, effect) == Word(ledger, effect)
    {
      WordSnoc(ledger, event, effect);
    }
    if Increasing(longer) {
      assert longer[|ledger|] == event;
      assert ledger != [] ==> longer[|ledger| - 1] == ledger[|ledger| - 1];
    }
  }

  lemma {:induction false} WordPrefix(ledger: seq<Event>, n: nat, effect: EffectId)
    requires n <= |ledger|
    ensures Word(ledger[..n], effect) <= Word(ledger, effect)
    decreases |ledger|
  {
    if n < |ledger| {
      var shorter := ledger[..|ledger| - 1];
      assert shorter[..n] == ledger[..n];
      WordPrefix(shorter, n, effect);
    } else {
      assert ledger[..n] == ledger;
    }
  }

  lemma {:induction false} RunOfPrefix(phase: Option<Phase>, word: seq<Kind>, n: nat)
    requires n <= |word| && RunFrom(phase, word).Ok?
    ensures RunFrom(phase, word[..n]).Ok?
    decreases |word|
  {
    if n > 0 {
      assert word[..n][1..] == word[1..][..n - 1];
      RunOfPrefix(Some(Transition(phase, word[0]).value), word[1..], n - 1);
    }
  }

  lemma {:induction false} ValidityIsPrefixClosed(ledger: seq<Event>, n: nat)
    requires n <= |ledger| && ValidLedger(ledger)
    ensures ValidLedger(ledger[..n])
  {
    forall effect
      ensures InGrammar(Word(ledger[..n], effect))
    {
      var word, part := Word(ledger, effect), Word(ledger[..n], effect);
      WordPrefix(ledger, n, effect);
      AutomatonIsGrammar(word);
      RunOfPrefix(None, word, |part|);
      assert word[..|part|] == part;
      AutomatonIsGrammar(part);
    }
  }

  /** The intention event of an effect, as the loop's dictionary records it. */
  ghost function IntentionOf(ledger: seq<Event>, effect: EffectId): (intention: Option<Payload>)
    ensures intention.Some? ==> intention.value.Intention?
  {
    if ledger == [] then None
    else
      var last := ledger[|ledger| - 1];
      if last.effect == effect && last.payload.Intention? then Some(last.payload)
      else IntentionOf(ledger[..|ledger| - 1], effect)
  }

  lemma IntentionSnoc(ledger: seq<Event>, event: Event, effect: EffectId)
    ensures IntentionOf(ledger + [event], effect) ==
            if event.effect == effect && event.payload.Intention? then Some(event.payload)
            else IntentionOf(ledger, effect)
  {
    assert (ledger + [event])[..|ledger|] == ledger;
  }

  /**
  The checking loop. It accepts exactly the valid ledgers, returns for each
  effect its intention and phase, and otherwise names the first event that
  breaks the ledger together with the rule it breaks.
  */
  method ValidateEffectLedger(ledger: seq<Event>)
    returns (r: Result<(map<EffectId, Payload>, map<EffectId, Phase>), (nat, LedgerError)>)
    ensures r.Ok? <==> ValidLedger(ledger)
    ensures r.Ok? ==> forall effect ::
      && (effect in r.value.0 <==> IntentionOf(ledger, effect).Some?)
      && (effect in r.value.0 ==> Some(r.value.0[effect]) == IntentionOf(ledger, effect))
    ensures r.Ok? ==> forall effect ::
      && (effect in r.value.1 <==> PhaseOf(ledger, effect).Some?)
      && (effect in r.value.1 ==> Some(r.value.1[effect]) == PhaseOf(ledger, effect))
    ensures r.Err? ==>
      && r.error.0 < |ledger|
      && ValidLedger(ledger[..r.error.0])
      && Refusal(ledger[..r.error.0], ledger[r.error.0]) == Some(r.error.1)
  {
    hide Word, RunFrom, InGrammar, IntentionOf, Increasing, PhaseOf;
    var intentions: map<EffectId, Payload>, phases: map<EffectId, Phase> := map[], map[];
    var previousSequence := 0;
    var i := 0;
    EmptyLedger();
    assert ledger[..0] == [];
    while i < |ledger|
      invariant 0 <= i <= |ledger|
      invariant ValidLedger(ledger[..i])
      invariant previousSequence == LastSequence(ledger[..i])
      invariant forall effect :: Lookup(intentions, effect) == IntentionOf(ledger[..i], effect)
      invariant forall effect :: Lookup(phases, effect) == PhaseOf(ledger[..i], effect)
    {
      var event := ledger[i];
      ghost var seen, longer := ledger[..i], ledger[..i + 1];
      assert longer == seen + [event];
      if event.sequence <= previousSequence {
        RefusedLedgerIsInvalid(ledger, i);
        return Err((i, SequenceNotIncreasing));
      }
      previousSequence := event.sequence;
      var phase := Lookup(phases, event.effect);
      var step := Transition(phase, KindOf(event));
      if step.Err? {
        RefusedLedgerIsInvalid(ledger, i);
        return Err((i, step.error));
      }
      ViewsAfter(seen, event);
      if KindOf(event) == I {
        intentions := intentions[event.effect := event.payload];
      }
      phases := phases[event.effect := step.value];
      i := i + 1;
    }
    assert ledger[..i] == ledger;
    forall effect
      ensures effect in intentions <==> IntentionOf(ledger, effect).Some?
      ensures effect in phases <==> PhaseOf(ledger, effect).Some?
    {
      assert Lookup(intentions, effect) == IntentionOf(ledger, effect);
      assert Lookup(phases, effect) == PhaseOf(ledger, effect);
    }
    r := Ok((intentions, phases));
  }

  function Lookup<T>(entries: map<EffectId, T>, effect: EffectId): Option<T> {
    if effect in entries then Some(entries[effect]) else None
  }

  lemma EmptyLedger()
    ensures ValidLedger([])
    ensures forall effect :: IntentionOf([], effect) == None && PhaseOf([], effect) == None
  {
  }

  /** What an accepted event does to the loop's two dictionaries. */
  lemma ViewsAfter(seen: seq<Event>, event: Event)
    requires ValidLedger(seen) && Refusal(seen, event) == None
    ensures ValidLedger(seen + [event])
    ensures forall effect ::
      IntentionOf(seen + [event], effect) ==
      if event.effect == effect && event.payload.Intention? then Some(event.payload) else IntentionOf(seen, effect)
    ensures forall effect ::
      PhaseOf(seen + [event], effect) ==
      if event.effect == effect then Some(Transition(PhaseOf(seen, effect), KindOf(event)).value) else PhaseOf(seen, effect)
  {
    ExtendedValidity(seen, event);
    forall effect
      ensures IntentionOf(seen + [event], effect) ==
        if event.effect == effect && event.payload.Intention? then Some(event.payload) else IntentionOf(seen, effect)
    {
      IntentionSnoc(seen, event, effect);
    }
    forall effect
      ensures PhaseOf(seen + [event], effect) ==
        if event.effect == effect then Some(Transition(PhaseOf(seen, effect), KindOf(event)).value) else PhaseOf(seen, effect)
    {
      PhaseSnoc(seen, event, effect);
    }
  }

  lemma PhaseSnoc(seen: seq<Event>, event: Event, effect: EffectId)
    requires ValidLedger(seen) && Refusal(seen, event) == None && ValidLedger(seen + [event])
    ensures PhaseOf(seen + [event], effect) ==
      if event.effect == effect then Some(Transition(PhaseOf(seen, effect), KindOf(event)).value) else PhaseOf(seen, effect)
  {
    WordSnoc(seen, event, effect);
    RunFromSnoc(None, Word(seen, effect), KindOf(event));
    AutomatonIsGrammar(Word(seen, effect));
  }

  lemma {:induction false} RefusedLedgerIsInvalid(ledger: seq<Event>, i: nat)
    requires i < |ledger| && ValidLedger(ledger[..i])
    requires Refusal(ledger[..i], ledger[i]) != None
    ensures !ValidLedger(ledger)
  {
    ExtendedValidity(ledger[..i], ledger[i]);
    assert ledger[..i + 1] == ledger[..i] + [ledger[i]];
    if ValidLedger(ledger) {
      ValidityIsPrefixClosed(ledger, i + 1);
    }
  }
}
