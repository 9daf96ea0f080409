/**
What the protocols read out of a ledger (attempt counts, latest intentions,
accumulated waits) and how each reading changes when one effect's events are
appended with consecutive sequence numbers.
*/
module LedgerViews {
  import opened Outcomes
  import opened EffectLedger

  /** Append one event per payload to `effect`, numbering on from the last event. */
  function Extend(ledger: seq<Event>, effect: EffectId, payloads: seq<Payload>): seq<Event>
    decreases |payloads|
  {
    if payloads == [] then ledger
    else Extend(ledger + [Event(effect, LastSequence(ledger) + 1, payloads[0])], effect, payloads[1..])
  }

  function KindOfPayload(payload: Payload): Kind {
    KindOf(Event(TicketBranch, 0, payload))
  }

  ghost function Kinds(payloads: seq<Payload>): (kinds: seq<Kind>)
    ensures |kinds| == |payloads|
  {
    seq(|payloads|, i requires 0 <= i < |payloads| => KindOfPayload(payloads[i]))
  }

  /** How many intentions of an operation the ledger holds. */
  function Attempts(ledger: seq<Event>, operation: Operation): nat {
    if ledger == [] then 0
    else
      var last := ledger[|ledger| - 1].payload;
      Attempts(ledger[..|ledger| - 1], operation) +
      if last.Intention? && last.operation == operation then 1 else 0
  }

  /** The effect of the latest intention of an operation. */
  function Latest(ledger: seq<Event>, operation: Operation): Option<EffectId> {
    if ledger == [] then None
    else
      var last := ledger[|ledger| - 1];
      if last.payload.Intention? && last.payload.operation == operation then Some(last.effect)
      else Latest(ledger[..|ledger| - 1], operation)
  }

  ghost predicate IsReconciled(ledger: seq<Event>, effect: EffectId) {
    R in Word(ledger, effect)
  }

  /** A reconciling effect of `operation` aimed at `target` has itself been reconciled. */
  ghost predicate ReObserved(ledger: seq<Event>, operation: Operation, target: EffectId) {
    exists effect ::
      && IntentionOf(ledger, effect).Some?
      && IntentionOf(ledger, effect).value.operation == operation
      && IntentionOf(ledger, effect).value.target == EffectTarget(target)
      && IsReconciled(ledger, effect)
  }

  /** The latest attempt of `operation` has been reconciled and then observed once more. */
  ghost predicate Settled(ledger: seq<Event>, operation: Operation, reconcile: Operation) {
    match Latest(ledger, operation)
    case None => true
    case Some(effect) => IsReconciled(ledger, effect) && ReObserved(ledger, reconcile, effect)
  }

  // ----- accumulated retry waits -----

  /** The wait recorded by the latest invocation of an effect. */
  ghost function LastWait(ledger: seq<Event>, effect: EffectId): real {
    if ledger == [] then 0.0
    else
      var last := ledger[|ledger| - 1];
      if last.effect == effect && last.payload.Invocation? then last.payload.wait
      else LastWait(ledger[..|ledger| - 1], effect)
  }

  /** Operations carried out by the bridge on the ticket, projection queries aside. */
  predicate IsRetried(operation: Operation) {
    operation in {CompleteTicket, StartTicket, RestoreTicket, QueryState}
  }

  /** The waits the ledger records for retried bridge effects that were not a success. */
  ghost function LedgerWait(ledger: seq<Event>): real {
    if ledger == [] then 0.0
    else
      var before, last := ledger[..|ledger| - 1], ledger[|ledger| - 1];
      var intention := IntentionOf(before, last.effect);
      LedgerWait(before) +
      if last.payload.Observation? && last.payload.outcome != Success
         && intention.Some? && IsRetried(intention.value.operation)
      then LastWait(before, last.effect) else 0.0
  }

  // ----- how one appended event changes every reading -----

  lemma ViewsSnoc(ledger: seq<Event>, event: Event)
    ensures forall operation ::
      Attempts(ledger + [event], operation) == Attempts(ledger, operation) +
      if event.payload.Intention? && event.payload.operation == operation then 1 else 0
    ensures forall operation ::
      Latest(ledger + [event], operation) ==
      if event.payload.Intention? && event.payload.operation == operation then Some(event.effect)
      else Latest(ledger, operation)
    ensures forall effect ::
      LastWait(ledger + [event], effect) ==
      if event.effect == effect && event.payload.Invocation? then event.payload.wait else LastWait(ledger, effect)
    ensures LedgerWait(ledger + [event]) == LedgerWait(ledger) +
      if event.payload.Observation? && event.payload.outcome != Success
         && IntentionOf(ledger, event.effect).Some? && IsRetried(IntentionOf(ledger, event.effect).value.operation)
      then LastWait(ledger, event.effect) else 0.0
  {
    assert (ledger + [event])[..|ledger|] == ledger;
  }

  /** Everything about a ledger that the protocols depend on, before and after an extension. */
  ghost predicate SameIntentions(before: seq<Event>, after: seq<Event>) {
    && (forall effect :: IntentionOf(after, effect) == IntentionOf(before, effect))
    && (forall operation :: Attempts(after, operation) == Attempts(before, operation))
    && (forall operation :: Latest(after, operation) == Latest(before, operation))
  }

  ghost predicate WordsExtended(before: seq<Event>, after: seq<Event>, effect: EffectId, kinds: seq<Kind>) {
    forall other :: Word(after, other) == if other == effect then Word(before, effect) + kinds else Word(before, other)
  }

  lemma {:induction false} GrammarPrefix(word: seq<Kind>, n: nat)
    requires n <= |word| && InGrammar(word)
    ensures InGrammar(word[..n])
  {
    AutomatonIsGrammar(word);
    RunOfPrefix(None, word, n);
    AutomatonIsGrammar(word[..n]);
  }

  /** Appending a grammatical continuation keeps the ledger valid and changes only its effect's word. */
  lemma {:induction false} ExtendKeepsValidity(ledger: seq<Event>, effect: EffectId, payloads: seq<Payload>)
    requires ValidLedger(ledger)
    requires InGrammar(Word(ledger, effect) + Kinds(payloads))
    ensures ValidLedger(Extend(ledger, effect, payloads))
    ensures WordsExtended(ledger, Extend(ledger, effect, payloads), effect, Kinds(payloads))
    ensures ledger <= Extend(ledger, effect, payloads)
    ensures |Extend(ledger, effect, payloads)| == |ledger| + |payloads|
    decreases |payloads|
  {
    if payloads == [] {
      assert Kinds(payloads) == [];
    } else {
      var event := Event(effect, LastSequence(ledger) + 1, payloads[0]);
      var longer := ledger + [event];
      var word := Word(ledger, effect);
      assert KindOf(event) == KindOfPayload(payloads[0]);
      assert Kinds(payloads) == [KindOf(event)] + Kinds(payloads[1..]);
      assert word + Kinds(payloads) == (word + [KindOf(event)]) + Kinds(payloads[1..]);
      assert (word + Kinds(payloads))[..|word| + 1] == word + [KindOf(event)];
      GrammarPrefix(word + Kinds(payloads), |word| + 1);
      forall other
        ensures Word(longer, other) == if other == effect then word + [KindOf(event)] else Word(ledger, other)
      {
        WordSnoc(ledger, event, other);
      }
      assert Increasing(longer);
      ExtendKeepsValidity(longer, effect, payloads[1..]);
    }
  }

  /** An extension that starts with the effect's intention. */
  lemma IntendViews(ledger: seq<Event>, effect: EffectId, intention: Payload)
    requires intention.Intention?
    ensures var after := Extend(ledger, effect, [intention]);
      && (forall other :: IntentionOf(after, other) == if other == effect then Some(intention) else IntentionOf(ledger, other))
      && (forall operation :: Attempts(after, operation) ==
            Attempts(ledger, operation) + if intention.operation == operation then 1 else 0)
      && (forall operation :: Latest(after, operation) ==
            if intention.operation == operation then Some(effect) else Latest(ledger, operation))
      && LedgerWait(after) == LedgerWait(ledger)
  {
    var event := Event(effect, LastSequence(ledger) + 1, intention);
    assert [intention][1..] == [];
    assert Extend(ledger, effect, [intention]) == ledger + [event];
    ViewsSnoc(ledger, event);
    forall other { IntentionSnoc(ledger, event, other); }
  }

  /** An extension without an intention. */
  lemma {:induction false} FollowViews(ledger: seq<Event>, effect: EffectId, payloads: seq<Payload>)
    requires forall payload <- payloads :: !payload.Intention?
    ensures SameIntentions(ledger, Extend(ledger, effect, payloads))
    decreases |payloads|
  {
    if payloads != [] {
      var event := Event(effect, LastSequence(ledger) + 1, payloads[0]);
      ViewsSnoc(ledger, event);
      forall other { IntentionSnoc(ledger, event, other); }
      FollowViews(ledger + [event], effect, payloads[1..]);
    }
  }

  lemma ExtendTwice(ledger: seq<Event>, effect: EffectId, a: Payload, b: Payload)
    ensures Extend(ledger, effect, [a, b]) ==
            ledger + [Event(effect, LastSequence(ledger) + 1, a)] + [Event(effect, LastSequence(ledger) + 2, b)]
  {
    var first := ledger + [Event(effect, LastSequence(ledger) + 1, a)];
    assert [a, b][1..] == [b] && [b][1..] == [];
    assert Extend(first, effect, [b]) == first + [Event(effect, LastSequence(first) + 1, b)];
  }

  lemma ExtendThrice(ledger: seq<Event>, effect: EffectId, a: Payload, b: Payload, c: Payload)
    ensures Extend(ledger, effect, [a, b, c]) ==
            ledger + [Event(effect, LastSequence(ledger) + 1, a)] + [Event(effect, LastSequence(ledger) + 2, b)]
                   + [Event(effect, LastSequence(ledger) + 3, c)]
  {
    var first := ledger + [Event(effect, LastSequence(ledger) + 1, a)];
    assert [a, b, c][1..] == [b, c];
    ExtendTwice(first, effect, b, c);
  }

  /** The wait added by one complete invoke-observe-reconcile round. */
  lemma RoundWait(ledger: seq<Event>, effect: EffectId, wait: real, observation: Payload, reconciliation: Payload)
    requires observation.Observation? && reconciliation.Reconciliation?
    ensures LedgerWait(Extend(ledger, effect, [Invocation(wait), observation, reconciliation])) ==
            LedgerWait(ledger) +
            if observation.outcome != Success && IntentionOf(ledger, effect).Some?
               && IsRetried(IntentionOf(ledger, effect).value.operation) then wait else 0.0
  {
    var n := LastSequence(ledger);
    var v, o, r := Event(effect, n + 1, Invocation(wait)), Event(effect, n + 2, observation), Event(effect, n + 3, reconciliation);
    ExtendThrice(ledger, effect, Invocation(wait), observation, reconciliation);
    ViewsSnoc(ledger, v);
    IntentionSnoc(ledger, v, effect);
    ViewsSnoc(ledger + [v], o);
    ViewsSnoc(ledger + [v] + [o], r);
  }

  /** Events of an effect whose operation is not retried never add a wait. */
  lemma {:induction false} UnretriedWait(ledger: seq<Event>, effect: EffectId, payloads: seq<Payload>)
    requires forall payload <- payloads :: !payload.Intention?
    requires IntentionOf(ledger, effect).Some? ==> !IsRetried(IntentionOf(ledger, effect).value.operation)
    ensures LedgerWait(Extend(ledger, effect, payloads)) == LedgerWait(ledger)
    decreases |payloads|
  {
    if payloads != [] {
      var event := Event(effect, LastSequence(ledger) + 1, payloads[0]);
      ViewsSnoc(ledger, event);
      IntentionSnoc(ledger, event, effect);
      UnretriedWait(ledger + [event], effect, payloads[1..]);
    }
  }

  /** In a valid ledger an effect has an intention exactly when it has any event. */
  lemma {:induction false} IntentionIffWord(ledger: seq<Event>, effect: EffectId)
    requires ValidLedger(ledger)
    ensures IntentionOf(ledger, effect).Some? <==> Word(ledger, effect) != []
    decreases |ledger|
  {
    if ledger != [] {
      var before, last := ledger[..|ledger| - 1], ledger[|ledger| - 1];
      ValidityIsPrefixClosed(ledger, |ledger| - 1);
      assert ledger == before + [last];
      IntentionIffWord(before, effect);
      if last.effect == effect && Word(before, effect) == [] {
        assert Word(ledger, effect) == [KindOf(last)];
        assert Word(ledger, effect)[0] == I;
      }
    }
  }
}
