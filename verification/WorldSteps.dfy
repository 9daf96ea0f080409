/**
How a world moves while one process is looking the other way, and the atomic
steps of that process, each a legal step of the world whatever happened before.
*/
module WorldSteps {
  import opened Outcomes
  import opened EffectLedger
  import opened LedgerViews
  import opened RunStates
  import opened Stores
  import opened FinalizerWrites
  import opened LinearWrites
  import opened Protocol
  import opened ProtocolInvariant
  import opened ProtocolRuns
  import opened Worlds

  // ----- sequences of steps -----

  ghost predicate IsPath(worlds: seq<World>, steps: seq<(Process, Action)>, from: World, to: World, plan: Plan) {
    && |worlds| == |steps| + 1
    && worlds[0] == from && worlds[|steps|] == to
    && forall i :: 0 <= i < |steps| ==> Happens(worlds, steps, i, plan)
  }

  ghost predicate Avoids(steps: seq<(Process, Action)>, p: Process) {
    forall i :: 0 <= i < |steps| ==> steps[i].0 != p
  }

  /** Any number of steps of any process. */
  ghost predicate MovesTo(from: World, to: World, plan: Plan) {
    exists worlds, steps :: IsPath(worlds, steps, from, to, plan)
  }

  /** Any number of steps of every process but `p`. */
  ghost predicate Meanwhile(from: World, to: World, p: Process, plan: Plan) {
    exists worlds, steps :: IsPath(worlds, steps, from, to, plan) && Avoids(steps, p)
  }

  lemma NothingHappens(w: World, p: Process, plan: Plan)
    ensures Meanwhile(w, w, p, plan) && MovesTo(w, w, plan)
  {
    assert IsPath([w], [], w, w, plan) && Avoids([], p);
  }

  lemma OneStep(w: World, p: Process, a: Action, next: World, plan: Plan)
    requires CanStep(w, p, a, plan)
    requires a.Save? ==> Enabled(w.state, StoredAnswer(w, p, a.outcome), TermsOf(plan, p))
    requires next == Step(w, p, a, plan)
    ensures MovesTo(w, next, plan)
  {
    hide CanStep, Step, Enabled;
    var worlds, steps := [w, next], [(p, a)];
    assert Happens(worlds, steps, 0, plan);
    assert IsPath(worlds, steps, w, next, plan);
  }

  lemma MovesOn(a: World, b: World, c: World, plan: Plan)
    requires MovesTo(a, b, plan) && MovesTo(b, c, plan)
    ensures MovesTo(a, c, plan)
  {
    hide CanStep, Step, Enabled;
    var ws, ss :| IsPath(ws, ss, a, b, plan);
    var vs, ts :| IsPath(vs, ts, b, c, plan);
    var worlds, steps := ws + vs[1..], ss + ts;
    forall i | 0 <= i < |steps| ensures Happens(worlds, steps, i, plan) {
      if i < |ss| {
        assert Happens(ws, ss, i, plan);
      } else {
        assert Happens(vs, ts, i - |ss|, plan);
      }
    }
    assert IsPath(worlds, steps, a, c, plan);
  }

  lemma MeanwhileOn(a: World, b: World, c: World, p: Process, plan: Plan)
    requires Meanwhile(a, b, p, plan) && Meanwhile(b, c, p, plan)
    ensures Meanwhile(a, c, p, plan)
  {
    hide CanStep, Step, Enabled;
    var ws, ss :| IsPath(ws, ss, a, b, plan) && Avoids(ss, p);
    var vs, ts :| IsPath(vs, ts, b, c, plan) && Avoids(ts, p);
    var worlds, steps := ws + vs[1..], ss + ts;
    forall i | 0 <= i < |steps| ensures Happens(worlds, steps, i, plan) {
      if i < |ss| {
        assert Happens(ws, ss, i, plan);
      } else {
        assert Happens(vs, ts, i - |ss|, plan);
      }
    }
    assert IsPath(worlds, steps, a, c, plan) && Avoids(steps, p);
  }

  /** What a process may rely on while others work. */
  ghost predicate Undisturbed(from: World, to: World, p: Process, plan: Plan) {
    && Doing(to, p) == Doing(from, p)
    && from.revision <= to.revision
    && (from.revision == to.revision ==> to.state == from.state)
  }

  lemma StepLeavesOthers(w: World, q: Process, a: Action, p: Process, plan: Plan)
    requires WorldInv(w, plan) && CanStep(w, q, a, plan) && q != p
    requires a.Save? ==> Enabled(w.state, StoredAnswer(w, q, a.outcome), TermsOf(plan, q))
    ensures Undisturbed(w, Step(w, q, a, plan), p, plan)
  {
    hide Enabled, After, Inv, IsOpen, CallsOk, SeparateCallers, RepositoryOk, ActivityOk;
  }

  lemma {:induction false} PathLeavesOthers(worlds: seq<World>, steps: seq<(Process, Action)>, from: World, to: World, p: Process, plan: Plan)
    requires WorldInv(from, plan) && IsPath(worlds, steps, from, to, plan)
    ensures WorldInv(to, plan)
    ensures Avoids(steps, p) ==> Undisturbed(from, to, p, plan)
    decreases |steps|
  {
    hide CanStep, Step, WorldInv, Enabled;
    if |steps| > 0 {
      var mid, last := worlds[|steps| - 1], steps[|steps| - 1];
      var shorter, before := worlds[..|steps|], steps[..|steps| - 1];
      forall i | 0 <= i < |before| ensures Happens(shorter, before, i, plan) {
        assert Happens(worlds, steps, i, plan);
      }
      PathLeavesOthers(shorter, before, from, mid, p, plan);
      assert Happens(worlds, steps, |steps| - 1, plan);
      StepKeeps(mid, last.0, last.1, plan);
      if last.0 != p {
        StepLeavesOthers(mid, last.0, last.1, p, plan);
      }
    }
  }

  lemma MeanwhileIsHarmless(from: World, to: World, p: Process, plan: Plan)
    requires WorldInv(from, plan) && Meanwhile(from, to, p, plan)
    ensures WorldInv(to, plan) && Undisturbed(from, to, p, plan) && MovesTo(from, to, plan)
  {
    hide WorldInv, IsPath, Undisturbed;
    var worlds, steps :| IsPath(worlds, steps, from, to, plan) && Avoids(steps, p);
    PathLeavesOthers(worlds, steps, from, to, p, plan);
  }

  // ----- the steps a process stores by itself -----

  /** The world as a process with this generation sees it. */
  ghost function View(w: World, generation: Generation): World {
    w.(revision := generation.revision, state := generation.state)
  }

  predicate IsOwn(a: Action) {
    a.Announce? || a.AnnounceLook? || a.Save? || a.InvokeCreation?
  }

  /** The step is one this process may take in the generation it has seen. */
  ghost predicate MayStore(w: World, p: Process, a: Action, generation: Generation, plan: Plan) {
    && IsOwn(a)
    && CanStep(View(w, generation), p, a, plan)
    && (a.Save? ==> Enabled(generation.state, StoredAnswer(w, p, a.outcome), TermsOf(plan, p)))
  }

  /** While others work, the step stays possible for as long as the generation is current. */
  lemma MayStoreTransfers(w: World, now: World, p: Process, a: Action, generation: Generation, plan: Plan)
    requires MayStore(w, p, a, generation, plan) && Undisturbed(w, now, p, plan)
    requires now.revision == generation.revision && now.state == generation.state
    ensures MayStore(now, p, a, generation, plan) && View(now, generation) == now
    ensures Step(now, p, a, plan).state == Step(View(w, generation), p, a, plan).state
    ensures Doing(Step(now, p, a, plan), p) == Doing(Step(View(w, generation), p, a, plan), p)
    ensures Step(now, p, a, plan) ==
      now.(revision := now.revision + 1, state := Step(now, p, a, plan).state,
           activities := now.activities[p := Doing(Step(now, p, a, plan), p)])
  {
    hide Enabled, After, IsOpen;
  }

  /** What the branch has gained is never lost, the remote never loses the branch, and a closed branch gains nothing. */
  ghost predicate BranchGoesOn(before: World, after: World, plan: Plan) {
    && Grows(before.repo.made, after.repo.made)
    && (before.repo.remote.Some? ==> after.repo.remote.Some?)
    && (IsClosed(before, plan) ==>
          && IsClosed(after, plan) && after.repo.made == before.repo.made && after.repo.head == before.repo.head
          && (before.repo.index == TreeOf(before.repo, plan) ==> after.repo.index == before.repo.index))
  }

  lemma StepGoesOn(w: World, q: Process, a: Action, plan: Plan)
    requires WorldInv(w, plan) && CanStep(w, q, a, plan)
    requires a.Save? ==> Enabled(w.state, StoredAnswer(w, q, a.outcome), TermsOf(plan, q))
    ensures BranchGoesOn(w, Step(w, q, a, plan), plan)
  {
    hide WorldInv, CanStep, Step, Enabled, After, IsClosed;
    if IsClosed(w, plan) {
      ClosedStaysClosed(w, q, a, plan);
    }
    StepKeepsGains(w, q, a, plan);
  }

  lemma StepKeepsGains(w: World, q: Process, a: Action, plan: Plan)
    requires WorldInv(w, plan) && CanStep(w, q, a, plan)
    requires a.Save? ==> Enabled(w.state, StoredAnswer(w, q, a.outcome), TermsOf(plan, q))
    ensures var next := Step(w, q, a, plan);
      Grows(w.repo.made, next.repo.made) && (w.repo.remote.Some? ==> next.repo.remote.Some?)
  {
    hide Enabled, After, Inv, IsOpen, CallsOk, SeparateCallers;
  }

  lemma GoesOnAndOn(a: World, b: World, c: World, plan: Plan)
    requires BranchGoesOn(a, b, plan) && BranchGoesOn(b, c, plan)
    ensures BranchGoesOn(a, c, plan)
  {
    hide IsClosed;
  }

  lemma StaysAsItIs(w: World, plan: Plan)
    ensures BranchGoesOn(w, w, plan)
  {
    hide IsClosed;
  }

  lemma {:induction false} PathGoesOn(worlds: seq<World>, steps: seq<(Process, Action)>, from: World, to: World, plan: Plan)
    requires WorldInv(from, plan) && IsPath(worlds, steps, from, to, plan)
    ensures WorldInv(to, plan) && BranchGoesOn(from, to, plan)
    decreases |steps|
  {
    hide CanStep, Step, WorldInv, Enabled, BranchGoesOn;
    if |steps| == 0 {
      StaysAsItIs(from, plan);
    } else {
      var mid, last := worlds[|steps| - 1], steps[|steps| - 1];
      var shorter, before := worlds[..|steps|], steps[..|steps| - 1];
      forall i | 0 <= i < |before| ensures Happens(shorter, before, i, plan) {
        assert Happens(worlds, steps, i, plan);
      }
      PathGoesOn(shorter, before, from, mid, plan);
      assert Happens(worlds, steps, |steps| - 1, plan);
      StepKeeps(mid, last.0, last.1, plan);
      StepGoesOn(mid, last.0, last.1, plan);
      GoesOnAndOn(from, mid, to, plan);
    }
  }

  lemma MovesKeepTheBranch(from: World, to: World, plan: Plan)
    requires WorldInv(from, plan) && MovesTo(from, to, plan)
    ensures WorldInv(to, plan) && BranchGoesOn(from, to, plan)
  {
    hide WorldInv, IsPath, BranchGoesOn;
    var worlds, steps :| IsPath(worlds, steps, from, to, plan);
    PathGoesOn(worlds, steps, from, to, plan);
  }

  /** A commit that is held stays held, whatever the others do. */
  lemma HeldStaysHeld(from: World, to: World, tree: string, plan: Plan)
    requires WorldInv(from, plan) && MovesTo(from, to, plan) && IsHeld(from, tree, plan)
    ensures IsHeld(to, tree, plan) && to.repo.head == from.repo.head
  {
    hide WorldInv, MovesTo, IsClosed;
    MovesKeepTheBranch(from, to, plan);
  }

  /** The commit that is held for this tree, if there is one. */
  ghost function Held(w: World, tree: string, plan: Plan): Option<string> {
    if IsHeld(w, tree, plan) then Some(w.repo.head) else None
  }

  lemma HeldIsKept(from: World, to: World, tree: string, plan: Plan)
    requires WorldInv(from, plan) && MovesTo(from, to, plan)
    ensures Held(from, tree, plan).Some? ==> Held(to, tree, plan) == Held(from, tree, plan)
  {
    hide WorldInv, MovesTo, IsHeld;
    if IsHeld(from, tree, plan) {
      HeldStaysHeld(from, to, tree, plan);
    }
  }
}
