/**
The run's authoritative store: one current generation, replaced only by a
compare-and-swap on the exact current revision, and only by a valid state.
A revision number stands for the (revision, state hash) pair of a generation.
*/
module Stores {
  import opened Outcomes
  import opened EffectLedger
  import opened LedgerViews
  import opened RunStates

  datatype Generation = Generation(revision: nat, state: RunState)

  datatype Swap = Swapped(generation: Generation) | StaleGeneration | InvalidState

  class RunStateStore {
    var revision: nat
    var state: RunState

    constructor (initial: RunState)
      requires ValidState(initial)
      ensures revision == 1 && state == initial && Valid()
    {
      revision, state := 1, initial;
    }

    ghost predicate Valid()
      reads this
    {
      ValidState(state)
    }

    method Load() returns (generation: Generation)
      ensures generation == Generation(revision, state)
    {
      generation := Generation(revision, state);
    }

    method CompareAndSwap(expected: nat, next: RunState) returns (swap: Swap)
      requires Valid()
      modifies this
      ensures Valid()
      ensures swap.Swapped? <==> expected == old(revision) && ValidState(next)
      ensures swap.StaleGeneration? <==> expected != old(revision)
      ensures swap.Swapped? ==> swap.generation == Generation(old(revision) + 1, next) == Generation(revision, state)
      ensures !swap.Swapped? ==> revision == old(revision) && state == old(state)
    {
      if expected != revision {
        return StaleGeneration;
      }
      var accepted := Validate(next);
      if !accepted {
        return InvalidState;
      }
      revision, state := revision + 1, next;
      swap := Swapped(Generation(revision, state));
    }
  }

  /** The persisted contract, decided through the ledger's checking loop. */
  method Validate(s: RunState) returns (accepted: bool)
    ensures accepted <==> ValidState(s)
  {
    if s.iterationCount > IterationLimit(s)
      || (s.iterationOpen && s.iterationCount == 0)
      || (s.eligible && s.iterationOpen)
      || (s.eligible && (s.artifacts.reviewManifest == None || s.artifacts.reviewResult == None))
      || s.artifacts.productManifest.None? != s.artifacts.productHash.None?
      || (s.artifacts.taskStatus.Some? && s.artifacts.taskDefinition.None?)
      || !OutputsMatch(s.checkpoints, s.outputs)
      || (s.releaseReceipt.Some? && s.releaseBinding != Some(s.releaseReceipt.value.binding))
      || (s.released && (s.releaseBinding == None || s.releaseReceipt == None || !s.releaseReceipt.value.signed))
    {
      return false;
    }
    var checked := ValidateEffectLedger(s.ledger);
    if checked.Err? {
      return false;
    }
    var (intentions, phases) := checked.value;
    if s.pending.Some? {
      var pending := s.pending.value;
      ReconciledMeansR(s.ledger, pending.effect);
      return pending.effect in intentions
        && phases[pending.effect] != Reconciled
        && intentions[pending.effect] == Intention(pending.operation, pending.target, BridgeHash(pending));
    }
    accepted := true;
  }

  lemma {:induction false} RunReachesReconciled(phase: Option<Phase>, word: seq<Kind>)
    requires RunFrom(phase, word).Ok? && phase != Some(Reconciled)
    ensures RunFrom(phase, word).value == Some(Reconciled) <==> R in word
    ensures word == [] ==> RunFrom(phase, word).value == phase
    ensures word != [] ==> RunFrom(phase, word).value.Some?
    decreases |word|
  {
    if word != [] {
      var next := Transition(phase, word[0]).value;
      assert word == [word[0]] + word[1..];
      if next == Reconciled {
        ReconciledIsFinal(word[1..]);
      } else {
        RunReachesReconciled(Some(next), word[1..]);
      }
    }
  }

  /** The loop's "reconciled" phase is the presence of a reconciliation event. */
  lemma ReconciledMeansR(ledger: seq<Event>, effect: EffectId)
    requires ValidLedger(ledger)
    ensures PhaseOf(ledger, effect) == Some(Reconciled) <==> R in Word(ledger, effect)
    ensures PhaseOf(ledger, effect).Some? <==> IntentionOf(ledger, effect).Some?
  {
    AutomatonIsGrammar(Word(ledger, effect));
    RunReachesReconciled(None, Word(ledger, effect));
    IntentionIffWord(ledger, effect);
  }
}
