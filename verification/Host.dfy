/**
One process among many: its view of the store and the repository, with every
other process and component free to act before each of its own atomic steps,
and with a crash possible at each of them.
*/
module Hosts {
  import opened Outcomes
  import opened EffectLedger
  import opened LedgerViews
  import opened RunStates
  import opened Stores
  import opened Supervision
  import opened Router
  import opened FinalizerWrites
  import opened LinearWrites
  import opened PreparationWrites
  import opened Protocol
  import opened ProtocolInvariant
  import opened ProtocolRuns
  import opened Worlds
  import opened WorldSteps

  /** How a store access ends: with a generation, with a lost race, or with the process. */
  datatype Access = Current(generation: Generation) | LostRace | Crashed

  /** What Git answers about the ticket branch. */
  datatype BranchAnswer = ReuseRefused | Broken | Named(branch: string)

  /** A generation this process has seen: either still current, or overtaken. */
  ghost predicate Known(generation: Generation, w: World) {
    && generation.revision <= w.revision
    && (generation.revision == w.revision ==> generation.state == w.state)
  }

  predicate IsCurrent(generation: Generation, w: World) {
    generation == Generation(w.revision, w.state)
  }

  ghost predicate SameRun(before: World, after: World) {
    after.revision == before.revision && after.state == before.state
  }

  class Host {
    const pid: Process
    const plan: Plan
    const terms: Terms := TermsOf(plan, pid)
    const store: RunStateStore
    const calm: bool   // nobody interferes, nothing crashes, and Git does what it is asked
    var repo: Repository
    var activities: map<Process, Activity>
    var commitCalls: seq<EffectId>
    var pushCalls: seq<EffectId>
    var branchCalls: seq<BranchBinding>

    constructor (pid: Process, plan: Plan, store: RunStateStore, worktree: string, calm: bool)
      requires Inv(store.state, plan.policy) && store.state.commitSha == None && store.state.pushedSha == None
      ensures this.pid == pid && this.plan == plan && this.store == store && this.calm == calm
      ensures Ok() && Doing(Now(), pid) == Idle && repo.made == []
    {
      this.pid, this.plan, this.store, this.calm := pid, plan, store, calm;
      repo := Repository(plan.policy.baseline, [], plan.baseTree, worktree, None);
      activities, commitCalls, pushCalls, branchCalls := map[], [], [], [];
    }

    ghost function Now(): World
      reads this, store
    {
      World(store.revision, store.state, repo, activities, commitCalls, pushCalls, branchCalls)
    }

    ghost predicate Ok()
      reads this, store
    {
      WorldInv(Now(), plan)
    }

    /**
    Any number of steps of the others. The body takes none, but callers know
    only the contract: whatever the others did, this process was not disturbed.
    */
    method Interfere()
      requires Ok()
      modifies this, store
      ensures Ok() && Meanwhile(old(Now()), Now(), pid, plan)
      ensures Undisturbed(old(Now()), Now(), pid, plan) && MovesTo(old(Now()), Now(), plan)
      ensures calm ==> Now() == old(Now())
    {
      hide WorldInv;
      NothingHappens(Now(), pid, plan);
      MeanwhileIsHarmless(Now(), Now(), pid, plan);
    }

    /** The process ends here: it forgets what it was doing. */
    method Crash()
      requires Ok()
      modifies this
      ensures Ok() && MovesTo(old(Now()), Now(), plan) && Doing(Now(), pid) == Idle
      ensures repo == old(repo) && commitCalls == old(commitCalls) && branchCalls == old(branchCalls)
    {
      hide WorldInv, Happens;
      ghost var before := Now();
      activities := activities[pid := Idle];
      StepKeeps(before, pid, Stop, plan);
      OneStep(before, pid, Stop, Now(), plan);
    }

    method Load() returns (access: Access)
      requires Ok() && Doing(Now(), pid) == Idle
      modifies this, store
      ensures Ok() && MovesTo(old(Now()), Now(), plan) && Doing(Now(), pid) == Idle
      ensures Meanwhile(old(Now()), Now(), pid, plan)
      ensures access.Current? && access.generation == Generation(store.revision, store.state)
      ensures calm ==> Now() == old(Now())
    {
      hide WorldInv, Meanwhile, MovesTo;
      Interfere();
      var generation := store.Load();
      access := Current(generation);
    }

    /** A compare-and-swap of a write that is no finalizer effect. The validating store never refuses it. */
    method Swap(generation: Generation, ghost write: Write, next: RunState) returns (access: Access)
      requires Ok() && Doing(Now(), pid) == Idle && Known(generation, Now())
      requires IsElsewhere(write, generation.state) && Enabled(generation.state, write, terms) && next == After(generation.state, write, terms)
      modifies this, store
      ensures Ok() && MovesTo(old(Now()), Now(), plan) && Doing(Now(), pid) == Idle
      ensures access.Current? ==> access.generation == Generation(generation.revision + 1, next)
      ensures access.Current? ==> access.generation == Generation(store.revision, store.state)
      ensures access.LostRace? ==> Meanwhile(old(Now()), Now(), pid, plan)
      ensures calm && IsCurrent(generation, old(Now())) ==>
        access.Current? && Now() == old(Now()).(revision := generation.revision + 1, state := next)
    {
      hide WorldInv, Meanwhile, MovesTo, Enabled, After, ValidState;
      Interfere();
      ghost var before := Now();
      var crash := *;
      if crash && !calm {
        Crash();
        MovesOn(old(Now()), before, Now(), plan);
        return Crashed;
      }
      StoreIsValid(before, plan);
      var swap := store.CompareAndSwap(generation.revision, next);
      if swap.StaleGeneration? {
        return LostRace;
      }
      SwapIsElsewhere(before, pid, write, plan);
      assert swap.Swapped?;
      OneStep(before, pid, Elsewhere(write), Now(), plan);
      MovesOn(old(Now()), before, Now(), plan);
      access := Current(swap.generation);
    }

    /** A compare-and-swap of one of this process's own effect steps. A lost race ends the process. */
    method SwapOwn(generation: Generation, ghost a: Action, next: RunState, doing: Activity) returns (access: Access)
      requires Ok() && Known(generation, Now()) && MayStore(Now(), pid, a, generation, plan)
      requires next == Step(View(Now(), generation), pid, a, plan).state
      requires doing == Doing(Step(View(Now(), generation), pid, a, plan), pid)
      modifies this, store
      ensures Ok() && MovesTo(old(Now()), Now(), plan)
      ensures access.Current? ==> access.generation == Generation(generation.revision + 1, next)
      ensures access.Current? ==> access.generation == Generation(store.revision, store.state) && Doing(Now(), pid) == doing
      ensures !access.Current? ==> Doing(Now(), pid) == Idle
      ensures calm && IsCurrent(generation, old(Now())) ==>
        access.Current? && repo == old(repo) && (old(IsClear()) ==> IsClear())
    {
      hide WorldInv, Meanwhile, MovesTo, Enabled, After, ValidState, MayStore, Step, CanStep, View;
      ghost var first := Now();
      Interfere();
      ghost var before := Now();
      var crash := *;
      if crash && !calm {
        Crash();
        MovesOn(first, before, Now(), plan);
        return Crashed;
      }
      StoreIsValid(before, plan);
      if store.revision == generation.revision {
        MayStoreTransfers(first, before, pid, a, generation, plan);
        OwnIsStep(before, pid, a, generation, plan);
      }
      var swap := store.CompareAndSwap(generation.revision, next);
      if swap.StaleGeneration? {
        Crash();
        MovesOn(first, before, Now(), plan);
        return LostRace;
      }
      activities := activities[pid := doing];
      assert Now() == Step(before, pid, a, plan);
      OneStep(before, pid, a, Now(), plan);
      MovesOn(first, before, Now(), plan);
      access := Current(swap.generation);
    }

    /** What a call to Git leaves in this process's hands when it is still alive. */
    ghost predicate HasAnswer(revision: nat, operation: Operation, id: EffectId, result: Option<string>)
      reads this, store
    {
      var doing := Doing(Now(), pid);
      && Ok() && doing.Answered?
      && doing.revision == revision && doing.operation == operation && doing.id == id
      && (result.Some? ==> doing.result == result)
    }

    /** HEAD is the commit this process is approved for, and stays so. */
    ghost predicate Holds()
      reads this, store
    {
      IsHeld(Now(), pid.approval.tree, plan)
    }

    ghost function HeldCommit(): Option<string>
      reads this, store
    {
      Held(Now(), pid.approval.tree, plan)
    }

    /** Nothing stands in the way of the first commit: the approved files are there, and nobody else is about to commit. */
    ghost predicate IsClear()
      reads this, store
    {
      IsClearFor(Now(), pid, plan)
    }

    /**
    Commit the approved manifest: the guard compares HEAD with the baseline,
    then the worktree with the manifest; it stages what the worktree holds by
    then, and Git commits what is staged; between any two of these the others
    go on, and each may break.
    */
    method CommitManifest(revision: nat, id: EffectId) returns (alive: bool, result: Option<string>)
      requires Ok() && Doing(Now(), pid).MayCall? && Doing(Now(), pid).operation == Commit
      requires Doing(Now(), pid).revision == revision && Doing(Now(), pid).id == id
      modifies this, store
      ensures Ok() && MovesTo(old(Now()), Now(), plan)
      ensures alive ==> HasAnswer(revision, Commit, id, result)
      ensures old(repo.made) != [] ==> result == None
      ensures !alive ==> Doing(Now(), pid) == Idle
      ensures calm ==> alive && SameRun(old(Now()), Now())
      ensures calm && old(repo.made != [] || repo.worktree != pid.approval.tree) ==> repo == old(repo) && result == None
      ensures calm && old(IsClear()) ==> Holds() && result == Some(repo.head)
    {
      hide WorldInv, MovesTo, Meanwhile, CanStep, Step, IsClosed, IsHeld, BranchGoesOn;
      ghost var first := Now();
      Interfere();
      ghost var before := Now();
      MovesKeepTheBranch(first, before, plan);
      GainsAreKept(first, before, plan);
      GuardSeesHead(before, plan);
      var crash, breaks := *, *;
      if crash && !calm {
        Crash();
        MovesOn(first, before, Now(), plan);
        return false, None;
      }
      commitCalls := commitCalls + [id];
      if (breaks && !calm) || repo.head != plan.policy.baseline {
        activities := activities[pid := Answered(revision, Commit, id, None)];
        GuardSteps(before, pid, false, Now(), plan);
        MovesOn(first, before, Now(), plan);
        return true, None;
      }
      activities := activities[pid := Guarded(revision, id)];
      ghost var guarded := Now();
      GuardSteps(before, pid, true, guarded, plan);
      MovesOn(first, before, guarded, plan);
      alive, result := CompareAndCommit(revision, id);
      MovesOn(first, guarded, Now(), plan);
    }

    method CompareAndCommit(revision: nat, id: EffectId) returns (alive: bool, result: Option<string>)
      requires Ok() && Doing(Now(), pid) == Guarded(revision, id)
      modifies this, store
      ensures Ok() && MovesTo(old(Now()), Now(), plan)
      ensures alive ==> HasAnswer(revision, Commit, id, result)
      ensures old(repo.made) != [] ==> result == None
      ensures !alive ==> Doing(Now(), pid) == Idle
      ensures calm ==> alive && SameRun(old(Now()), Now())
      ensures calm && old(repo.worktree) != pid.approval.tree ==> repo == old(repo) && result == None
      ensures calm && old(IsClear()) ==> Holds() && result == Some(repo.head)
    {
      hide WorldInv, MovesTo, Meanwhile, CanStep, Step, IsClosed, IsHeld, BranchGoesOn;
      ghost var first := Now();
      Interfere();
      ghost var before := Now();
      MovesKeepTheBranch(first, before, plan);
      GainsAreKept(first, before, plan);
      var crash, differs := *, *;
      if crash && !calm {
        Crash();
        MovesOn(first, before, Now(), plan);
        return false, None;
      }
      if (differs && !calm) || repo.worktree != pid.approval.tree {
        activities := activities[pid := Answered(revision, Commit, id, None)];
        RefusalSteps(before, pid, Now(), plan);
        MovesOn(first, before, Now(), plan);
        return true, None;
      }
      activities := activities[pid := Compared(revision, id)];
      ghost var compared := Now();
      CompareSteps(before, pid, compared, plan);
      MovesOn(first, before, compared, plan);
      alive, result := StageAndCommit(revision, id);
      MovesOn(first, compared, Now(), plan);
    }

    method StageAndCommit(revision: nat, id: EffectId) returns (alive: bool, result: Option<string>)
      requires Ok() && Doing(Now(), pid) == Compared(revision, id)
      modifies this, store
      ensures Ok() && MovesTo(old(Now()), Now(), plan)
      ensures alive ==> HasAnswer(revision, Commit, id, result)
      ensures old(repo.made) != [] ==> result == None
      ensures !alive ==> Doing(Now(), pid) == Idle
      ensures calm ==> alive && SameRun(old(Now()), Now())
      ensures calm && old(IsClear()) ==> Holds() && result == Some(repo.head)
    {
      hide WorldInv, MovesTo, Meanwhile, CanStep, Step, IsClosed, IsHeld, BranchGoesOn;
      ghost var first := Now();
      Interfere();
      ghost var before := Now();
      MovesKeepTheBranch(first, before, plan);
      GainsAreKept(first, before, plan);
      var crash, refuses := *, *;
      if crash && !calm {
        Crash();
        MovesOn(first, before, Now(), plan);
        return false, None;
      }
      if (refuses && !calm) {
        activities := activities[pid := Answered(revision, Commit, id, None)];
        RefusalSteps(before, pid, Now(), plan);
        MovesOn(first, before, Now(), plan);
        return true, None;
      }
      repo := repo.(index := repo.worktree);
      activities := activities[pid := Staged(revision, id)];
      ghost var staged := Now();
      StagingSteps(before, pid, staged, plan);
      MovesOn(first, before, staged, plan);
      alive, result := MakeCommit(revision, id);
      MovesOn(first, staged, Now(), plan);
    }

    method MakeCommit(revision: nat, id: EffectId) returns (alive: bool, result: Option<string>)
      requires Ok() && Doing(Now(), pid) == Staged(revision, id)
      modifies this, store
      ensures Ok() && MovesTo(old(Now()), Now(), plan)
      ensures alive ==> HasAnswer(revision, Commit, id, result)
      ensures old(repo.made) != [] ==> result == None
      ensures !alive ==> Doing(Now(), pid) == Idle
      ensures calm ==> alive && SameRun(old(Now()), Now())
      ensures calm && old(IsClear()) && old(repo.index) == pid.approval.tree ==> Holds() && result == Some(repo.head)
    {
      hide WorldInv, MovesTo, Meanwhile, CanStep, Step, IsClosed, IsHeld, BranchGoesOn, Committed, CommitAnswer;
      ghost var first := Now();
      Interfere();
      ghost var before := Now();
      MovesKeepTheBranch(first, before, plan);
      GainsAreKept(first, before, plan);
      GuardSeesHead(before, plan);
      var crash, refuses, lost := *, *, *;
      if crash && !calm {
        Crash();
        MovesOn(first, before, Now(), plan);
        return false, None;
      }
      if (refuses && !calm) || repo.index == TreeOf(repo, plan) {
        activities := activities[pid := Answered(revision, Commit, id, None)];
        RefusalSteps(before, pid, Now(), plan);
        MovesOn(first, before, Now(), plan);
        return true, None;
      }
      var sha := NewObject();
      var answer := CommitAnswer(repo, sha, pid.approval.tree, plan);
      repo := Committed(repo, sha);
      activities := activities[pid := Answered(revision, Commit, id, answer)];
      CommitSteps(before, pid, sha, Now(), plan);
      MovesOn(first, before, Now(), plan);
      return true, if lost && !calm then None else answer;
    }

    /**
    Push the recorded commit: the guard compares HEAD with it, and Git pushes
    what the branch holds by then; afterwards the remote must have the recorded
    commit. Git may break before or after the remote has moved, and the answer
    may be lost.
    */
    method PushCommit(revision: nat, id: EffectId) returns (alive: bool, result: Option<string>)
      requires Ok() && Doing(Now(), pid).MayCall? && Doing(Now(), pid).operation == Push
      requires Doing(Now(), pid).revision == revision && Doing(Now(), pid).id == id
      modifies this, store
      ensures Ok() && MovesTo(old(Now()), Now(), plan)
      ensures alive ==> HasAnswer(revision, Push, id, result)
      ensures alive && result.Some? ==> result == old(Doing(Now(), pid)).sha
      ensures !alive ==> Doing(Now(), pid) == Idle
      ensures calm ==> alive && SameRun(old(Now()), Now())
      ensures calm && old(Doing(Now(), pid).sha == Some(repo.head)) ==>
        result == old(Doing(Now(), pid)).sha && repo == old(repo).(remote := result)
      ensures calm && old(Doing(Now(), pid).sha != Some(repo.head)) ==> result == None && repo == old(repo)
    {
      hide WorldInv, MovesTo, Meanwhile, CanStep, Step;
      ghost var first := Now();
      Interfere();
      ghost var before := Now();
      var crash, breaks := *, *;
      if crash && !calm {
        Crash();
        MovesOn(first, before, Now(), plan);
        return false, None;
      }
      var sha := activities[pid].sha;
      var passes := sha == Some(repo.head) && (calm || !breaks);
      pushCalls := pushCalls + [id];
      activities := activities[pid := if passes then Pushing(revision, id, sha) else Answered(revision, Push, id, None)];
      ghost var guarded := Now();
      PushGuardSteps(before, pid, passes, guarded, plan);
      MovesOn(first, before, guarded, plan);
      if !passes {
        return true, None;
      }
      alive, result := SendPush(revision, id, sha);
      MovesOn(first, guarded, Now(), plan);
    }

    method SendPush(revision: nat, id: EffectId, sha: Option<string>) returns (alive: bool, result: Option<string>)
      requires Ok() && Doing(Now(), pid) == Pushing(revision, id, sha)
      modifies this, store
      ensures Ok() && MovesTo(old(Now()), Now(), plan)
      ensures alive ==> HasAnswer(revision, Push, id, result)
      ensures alive && result.Some? ==> result == sha
      ensures !alive ==> Doing(Now(), pid) == Idle
      ensures calm ==> alive && SameRun(old(Now()), Now())
      ensures calm && sha == Some(old(repo.head)) ==> result == sha && repo == old(repo).(remote := sha)
    {
      hide WorldInv, MovesTo, Meanwhile, CanStep, Step;
      ghost var first := Now();
      Interfere();
      ghost var before := Now();
      var crash, fails, lost := *, *, *;
      if crash && !calm {
        Crash();
        MovesOn(first, before, Now(), plan);
        return false, None;
      }
      var works := calm || !fails;
      var answers := works && sha == Some(repo.head) && (calm || !lost);
      result := if answers then sha else None;
      if works {
        repo := repo.(remote := Some(repo.head));
      }
      activities := activities[pid := Answered(revision, Push, id, result)];
      SendSteps(before, pid, works, answers, Now(), plan);
      MovesOn(first, before, Now(), plan);
      alive := true;
    }

    /** Turn to Git about an effect of this generation; a generation already overtaken could only lose its race later. */
    method StartLook(generation: Generation, operation: Operation, id: EffectId) returns (access: Access)
      requires Ok() && Doing(Now(), pid) == Idle && Known(generation, Now())
      requires operation in {Commit, Push} && IsOpen(generation.state, operation, id, terms)
      modifies this, store
      ensures Ok() && MovesTo(old(Now()), Now(), plan)
      ensures access.Current? ==>
        && access.generation == generation == Generation(store.revision, store.state)
        && Doing(Now(), pid) == MayLook(generation.revision, operation, id, generation.state.commitSha)
      ensures !access.Current? ==> Doing(Now(), pid) == Idle
      ensures calm && IsCurrent(generation, old(Now())) ==>
        access.Current? && repo == old(repo) && (old(IsClear()) ==> IsClear())
    {
      hide WorldInv, MovesTo, Meanwhile, CanStep, Step, IsOpen;
      ghost var first := Now();
      Interfere();
      ghost var before := Now();
      var crash := *;
      if crash && !calm {
        Crash();
        MovesOn(first, before, Now(), plan);
        return Crashed;
      }
      if store.revision != generation.revision {
        return LostRace;
      }
      activities := activities[pid := MayLook(generation.revision, operation, id, generation.state.commitSha)];
      LookStarts(before, pid, operation, id, Now(), plan);
      MovesOn(first, before, Now(), plan);
      access := Current(generation);
    }

    /** Ask Git whether the approved commit, or the pushed one, is there. */
    method LookForResult(revision: nat, operation: Operation, id: EffectId) returns (alive: bool, result: Option<string>)
      requires Ok() && Doing(Now(), pid).MayLook? && Doing(Now(), pid).operation == operation && operation in {Commit, Push}
      requires Doing(Now(), pid).revision == revision && Doing(Now(), pid).id == id
      modifies this, store
      ensures Ok() && MovesTo(old(Now()), Now(), plan)
      ensures alive ==> HasAnswer(revision, operation, id, result)
      ensures alive && result.Some? && operation != Commit ==> result == old(Doing(Now(), pid)).sha
      ensures alive && operation == Commit && old(Holds()) ==> result == Some(old(repo.head))
      ensures !alive ==> Doing(Now(), pid) == Idle
      ensures calm ==> alive && SameRun(old(Now()), Now()) && repo == old(repo) && (old(IsClear()) ==> IsClear())
      ensures calm ==> result == SeenAtOnce(repo, old(Doing(Now(), pid)), pid.approval.tree, plan)
    {
      hide WorldInv, MovesTo, Meanwhile, CanStep, Step, IsClosed, Seen;
      if operation != Commit {
        alive, result := ReadGit(revision, operation, id);
        return;
      }
      ghost var first := Now();
      Interfere();
      ghost var before := Now();
      var crash := *;
      if crash && !calm {
        Crash();
        MovesOn(first, before, Now(), plan);
        return false, None;
      }
      activities := activities[pid := Looking(revision, id, repo.head)];
      ghost var looking := Now();
      HeadSteps(before, pid, looking, plan);
      MovesOn(first, before, looking, plan);
      if IsHeld(first, pid.approval.tree, plan) {
        HeldStaysHeld(first, looking, pid.approval.tree, plan);
      }
      alive, result := ReadGit(revision, operation, id);
      MovesOn(first, looking, Now(), plan);
    }

    /** The rest of a look: HEAD must still be the candidate, and the candidate is verified after that. */
    method ReadGit(revision: nat, operation: Operation, id: EffectId) returns (alive: bool, result: Option<string>)
      requires Ok()
      requires var doing := Doing(Now(), pid);
        && (if operation == Commit then doing.Looking? else doing.MayLook? && doing.operation == operation == Push)
        && doing.revision == revision && doing.id == id
      modifies this, store
      ensures Ok() && MovesTo(old(Now()), Now(), plan)
      ensures alive ==> HasAnswer(revision, operation, id, result)
      ensures alive && result.Some? && operation != Commit ==> result == old(Doing(Now(), pid)).sha
      ensures alive && operation == Commit && old(Holds()) && old(Doing(Now(), pid)).candidate == old(repo.head) ==> result == Some(old(repo.head))
      ensures !alive ==> Doing(Now(), pid) == Idle
      ensures calm ==> alive && SameRun(old(Now()), Now()) && repo == old(repo) && (old(IsClear()) ==> IsClear())
      ensures calm && (operation == Commit ==> old(Doing(Now(), pid)).candidate == repo.head) ==>
        result == Seen(repo, old(Doing(Now(), pid)), pid.approval.tree, plan)
    {
      hide WorldInv, MovesTo, Meanwhile, CanStep, Step, IsClosed;
      ghost var first := Now();
      Interfere();
      ghost var second := Now();
      var moved := operation == Commit && activities[pid].candidate != repo.head;
      Interfere();
      ghost var before := Now();
      MovesOn(first, second, before, plan);
      if IsHeld(first, pid.approval.tree, plan) {
        HeldStaysHeld(first, second, pid.approval.tree, plan);
        HeldStaysHeld(second, before, pid.approval.tree, plan);
      }
      var crash := *;
      if crash && !calm {
        Crash();
        MovesOn(first, before, Now(), plan);
        return false, None;
      }
      var seen := Seen(repo, activities[pid], pid.approval.tree, plan);
      activities := activities[pid := Answered(revision, operation, id, seen)];
      LookSteps(before, pid, Now(), plan);
      MovesOn(first, before, Now(), plan);
      return true, if moved then None else seen;
    }

    /** Create the bound branch. The call counts as made whatever it answers. */
    method CreateBoundBranch(revision: nat, target: BranchBinding) returns (alive: bool, answer: BranchAnswer)
      requires Ok() && Doing(Now(), pid) == MayCreate(revision, target)
      modifies this, store
      ensures Ok() && MovesTo(old(Now()), Now(), plan) && Doing(Now(), pid) == Idle
      ensures alive ==> target in branchCalls
      ensures calm ==> alive && answer == Named(target.branch) && SameRun(old(Now()), Now()) && repo == old(repo)
    {
      hide WorldInv, MovesTo, Meanwhile, CanStep, Step;
      ghost var first := Now();
      Interfere();
      ghost var before := Now();
      var crash := *;
      if crash && !calm {
        Crash();
        MovesOn(first, before, Now(), plan);
        return false, Broken;
      }
      activities := activities[pid := Idle];
      branchCalls := branchCalls + [target];
      CreationSteps(before, pid, Now(), plan);
      MovesOn(first, before, Now(), plan);
      answer := AnswerAbout(target);
      alive := true;
    }

    method AnswerAbout(target: BranchBinding) returns (answer: BranchAnswer)
      ensures calm ==> answer == Named(target.branch)
    {
      var reused, broken := *, *;
      var name: string := *;
      answer := if calm then Named(target.branch) else if reused then ReuseRefused else if broken then Broken else Named(name);
    }

    method NewObject() returns (sha: string)
      ensures sha != plan.policy.baseline && forall m <- repo.made :: m.sha != sha
    {
      sha := plan.policy.baseline + "0";
      var i := 0;
      while i < |repo.made|
        invariant 0 <= i <= |repo.made| && |sha| > |plan.policy.baseline|
        invariant forall m <- repo.made[..i] :: |m.sha| < |sha|
      {
        assert repo.made[..i + 1] == repo.made[..i] + [repo.made[i]];
        sha := sha + repo.made[i].sha;
        i := i + 1;
      }
      assert repo.made[..i] == repo.made;
    }
  }

  /** Nothing is committed, the worktree holds the approved files, which differ from the baseline, and no other process is past the guard. */
  ghost predicate IsClearFor(w: World, p: Process, plan: Plan) {
    && w.repo.made == [] && w.repo.worktree == p.approval.tree != plan.baseTree && w.repo.index in {plan.baseTree, p.approval.tree}
    && forall q <- w.activities :: q != p ==> !IsPastGuard(w.activities[q])
  }

  lemma TakesStep(w: World, p: Process, a: Action, next: World, plan: Plan)
    requires WorldInv(w, plan) && CanStep(w, p, a, plan) && !a.Save? && next == Step(w, p, a, plan)
    ensures WorldInv(next, plan) && MovesTo(w, next, plan)
  {
    hide WorldInv, MovesTo, CanStep, Step;
    StepKeeps(w, p, a, plan);
    OneStep(w, p, a, next, plan);
  }

  lemma GuardSteps(w: World, p: Process, passes: bool, next: World, plan: Plan)
    requires WorldInv(w, plan) && Doing(w, p).MayCall? && Doing(w, p).operation == Commit
    requires passes ==> w.repo.head == plan.policy.baseline
    requires var doing := Doing(w, p);
      next == w.(activities := w.activities[p := if passes then Guarded(doing.revision, doing.id) else Answered(doing.revision, Commit, doing.id, None)],
                 commitCalls := w.commitCalls + [doing.id])
    ensures WorldInv(next, plan) && MovesTo(w, next, plan)
  {
    hide WorldInv, MovesTo, Enabled, After, Inv;
    TakesStep(w, p, if passes then PassGuard else FailGuard, next, plan);
  }

  lemma CompareSteps(w: World, p: Process, next: World, plan: Plan)
    requires WorldInv(w, plan) && Doing(w, p).Guarded? && w.repo.worktree == p.approval.tree
    requires next == w.(activities := w.activities[p := Compared(Doing(w, p).revision, Doing(w, p).id)])
    ensures WorldInv(next, plan) && MovesTo(w, next, plan)
  {
    hide WorldInv, MovesTo, Enabled, After, Inv;
    TakesStep(w, p, CompareWorktree, next, plan);
  }

  lemma StagingSteps(w: World, p: Process, next: World, plan: Plan)
    requires WorldInv(w, plan) && Doing(w, p).Compared?
    requires next == w.(repo := w.repo.(index := w.repo.worktree),
                        activities := w.activities[p := Staged(Doing(w, p).revision, Doing(w, p).id)])
    ensures WorldInv(next, plan) && MovesTo(w, next, plan)
  {
    hide WorldInv, MovesTo, Enabled, After, Inv;
    TakesStep(w, p, StageWorktree, next, plan);
  }

  lemma CreationSteps(w: World, p: Process, next: World, plan: Plan)
    requires WorldInv(w, plan) && Doing(w, p).MayCreate?
    requires next == w.(activities := w.activities[p := Idle], branchCalls := w.branchCalls + [Doing(w, p).target])
    ensures WorldInv(next, plan) && MovesTo(w, next, plan)
  {
    hide WorldInv, MovesTo, Enabled, After, Inv;
    TakesStep(w, p, CallCreation, next, plan);
  }

  lemma PushGuardSteps(w: World, p: Process, passes: bool, next: World, plan: Plan)
    requires WorldInv(w, plan) && Doing(w, p).MayCall? && Doing(w, p).operation == Push
    requires passes ==> Doing(w, p).sha == Some(w.repo.head)
    requires var doing := Doing(w, p);
      next == w.(activities := w.activities[p := if passes then Pushing(doing.revision, doing.id, doing.sha) else Answered(doing.revision, Push, doing.id, None)],
                 pushCalls := w.pushCalls + [doing.id])
    ensures WorldInv(next, plan) && MovesTo(w, next, plan)
  {
    hide WorldInv, MovesTo, Enabled, After, Inv;
    TakesStep(w, p, if passes then PassPush else FailPush, next, plan);
  }

  lemma SendSteps(w: World, p: Process, works: bool, answers: bool, next: World, plan: Plan)
    requires WorldInv(w, plan) && Doing(w, p).Pushing? && (answers ==> works && Doing(w, p).sha == Some(w.repo.head))
    requires var doing := Doing(w, p);
      next == w.(repo := if works then w.repo.(remote := Some(w.repo.head)) else w.repo,
                 activities := w.activities[p := Answered(doing.revision, Push, doing.id, if answers then doing.sha else None)])
    ensures WorldInv(next, plan) && MovesTo(w, next, plan)
  {
    hide WorldInv, MovesTo, Enabled, After, Inv;
    TakesStep(w, p, Worlds.SendPush(works, answers), next, plan);
  }

  /** What a look finds when nothing moves meanwhile. */
  function SeenAtOnce(repo: Repository, doing: Activity, tree: string, plan: Plan): Option<string>
    requires doing.MayLook?
  {
    Seen(repo, if doing.operation == Commit then Looking(doing.revision, doing.id, repo.head) else doing, tree, plan)
  }

  lemma HeadSteps(w: World, p: Process, next: World, plan: Plan)
    requires WorldInv(w, plan) && Doing(w, p).MayLook? && Doing(w, p).operation == Commit
    requires next == w.(activities := w.activities[p := Looking(Doing(w, p).revision, Doing(w, p).id, w.repo.head)])
    ensures WorldInv(next, plan) && MovesTo(w, next, plan)
  {
    hide WorldInv, MovesTo, Enabled, After, Inv;
    TakesStep(w, p, SeeHead, next, plan);
  }

  lemma LookSteps(w: World, p: Process, next: World, plan: Plan)
    requires WorldInv(w, plan) && (Doing(w, p).Looking? || (Doing(w, p).MayLook? && Doing(w, p).operation == Push))
    requires var doing := Doing(w, p);
      next == w.(activities := w.activities[p := Answered(doing.revision, if doing.Looking? then Commit else Push, doing.id,
                                                          Seen(w.repo, doing, p.approval.tree, plan))])
    ensures WorldInv(next, plan) && MovesTo(w, next, plan)
  {
    hide WorldInv, MovesTo, Enabled, After, Inv, Seen;
    TakesStep(w, p, Look, next, plan);
  }

  lemma LookStarts(w: World, p: Process, operation: Operation, id: EffectId, next: World, plan: Plan)
    requires WorldInv(w, plan) && Doing(w, p) == Idle && operation in {Commit, Push} && IsOpen(w.state, operation, id, TermsOf(plan, p))
    requires next == w.(activities := w.activities[p := MayLook(w.revision, operation, id, w.state.commitSha)])
    ensures WorldInv(next, plan) && MovesTo(w, next, plan)
  {
    hide WorldInv, MovesTo, Enabled, After, Inv, IsOpen;
    TakesStep(w, p, Worlds.StartLook(operation, id), next, plan);
  }

  lemma GainsAreKept(before: World, after: World, plan: Plan)
    requires BranchGoesOn(before, after, plan)
    ensures before.repo.made != [] ==> after.repo.made != []
  {
    hide IsClosed;
  }

  lemma RefusalSteps(w: World, p: Process, next: World, plan: Plan)
    requires WorldInv(w, plan) && IsPastGuard(Doing(w, p))
    requires next == w.(activities := w.activities[p := Answered(Doing(w, p).revision, Commit, Doing(w, p).id, None)])
    ensures WorldInv(next, plan) && MovesTo(w, next, plan)
  {
    hide WorldInv, MovesTo, Enabled, After, Inv;
    TakesStep(w, p, if Doing(w, p).Staged? then RefuseCommit else RefuseWorktree, next, plan);
  }

  /** A commit of what is staged is the approved one exactly as the first one; with nobody else at it, it stays at HEAD. */
  lemma CommitSteps(w: World, p: Process, sha: string, next: World, plan: Plan)
    requires WorldInv(w, plan) && Doing(w, p).Staged? && w.repo.index != TreeOf(w.repo, plan)
    requires sha != plan.policy.baseline && forall m <- w.repo.made :: m.sha != sha
    requires next == w.(
        repo := Committed(w.repo, sha),
        activities := w.activities[p := Answered(Doing(w, p).revision, Commit, Doing(w, p).id, CommitAnswer(w.repo, sha, p.approval.tree, plan))])
    ensures WorldInv(next, plan) && MovesTo(w, next, plan)
    ensures CommitAnswer(w.repo, sha, p.approval.tree, plan).Some? <==> w.repo.made == [] && w.repo.index == p.approval.tree
    ensures IsClearFor(w, p, plan) && w.repo.index == p.approval.tree ==>
      IsHeld(next, p.approval.tree, plan) && next.repo.head == sha && CommitAnswer(w.repo, sha, p.approval.tree, plan) == Some(sha)
  {
    hide WorldInv, MovesTo, Enabled, After, Inv, IsOpen, IsHeld;
    MakeCommitKeeps(w, p, sha, next, plan);
    TakesStep(w, p, MakeCommit(sha), next, plan);
    if IsClearFor(w, p, plan) && w.repo.index == p.approval.tree {
      CommitCloses(w, p, sha, next, plan);
    }
  }

  lemma CommitCloses(w: World, p: Process, sha: string, next: World, plan: Plan)
    requires IsClearFor(w, p, plan) && w.repo.index == p.approval.tree
    requires next.repo == Committed(w.repo, sha) && exists id, revision, result ::
      next.activities == w.activities[p := Answered(revision, Commit, id, result)]
    requires IsVerified(next.repo, p.approval.tree, plan)
    ensures IsHeld(next, p.approval.tree, plan) && next.repo.head == sha
  {
  }

  lemma OwnIsStep(w: World, p: Process, a: Action, generation: Generation, plan: Plan)
    requires WorldInv(w, plan) && MayStore(w, p, a, generation, plan) && View(w, generation) == w
    ensures CanStep(w, p, a, plan) && (a.Save? ==> Enabled(w.state, StoredAnswer(w, p, a.outcome), TermsOf(plan, p)))
    ensures WorldInv(Step(w, p, a, plan), plan) && ValidState(Step(w, p, a, plan).state)
    ensures Step(w, p, a, plan).revision == w.revision + 1
  {
    hide WorldInv, Enabled, After, ValidState, IsOpen;
    StepKeeps(w, p, a, plan);
    StoreIsValid(Step(w, p, a, plan), plan);
  }

  lemma CurrentHasInv(w: World, plan: Plan)
    requires WorldInv(w, plan)
    ensures Inv(w.state, plan.policy) && Known(Generation(w.revision, w.state), w)
  {
    hide Inv, ActivityOk, CallsOk;
  }

  lemma KnownStays(generation: Generation, before: World, after: World, plan: Plan)
    requires WorldInv(before, plan) && Known(generation, before) && MovesTo(before, after, plan)
    ensures Known(generation, after)
  {
    hide WorldInv, IsPath;
    var worlds, steps :| IsPath(worlds, steps, before, after, plan);
    RevisionsRise(worlds, steps, before, after, plan);
  }

  lemma {:induction false} RevisionsRise(worlds: seq<World>, steps: seq<(Process, Action)>, from: World, to: World, plan: Plan)
    requires IsPath(worlds, steps, from, to, plan)
    ensures from.revision <= to.revision && (from.revision == to.revision ==> to.state == from.state)
    decreases |steps|
  {
    hide CanStep, Step, Enabled;
    if |steps| > 0 {
      var mid, last := worlds[|steps| - 1], steps[|steps| - 1];
      var shorter, before := worlds[..|steps|], steps[..|steps| - 1];
      forall i | 0 <= i < |before| ensures Happens(shorter, before, i, plan) {
        assert Happens(worlds, steps, i, plan);
      }
      RevisionsRise(shorter, before, from, mid, plan);
      assert Happens(worlds, steps, |steps| - 1, plan);
      RevisionRises(mid, last.0, last.1, plan);
    }
  }

  lemma RevisionRises(w: World, p: Process, a: Action, plan: Plan)
    requires CanStep(w, p, a, plan) && (a.Save? ==> Enabled(w.state, StoredAnswer(w, p, a.outcome), TermsOf(plan, p)))
    ensures var next := Step(w, p, a, plan);
      w.revision <= next.revision && (w.revision == next.revision ==> next.state == w.state)
  {
    hide Enabled, After, IsOpen;
  }

  lemma StoreIsValid(w: World, plan: Plan)
    requires WorldInv(w, plan)
    ensures ValidState(w.state)
  {
    hide LedgerStory, PendingStory, BranchStory, Milestones, Bounded, WaitStory, ActivityOk, CallsOk;
  }

  lemma SwapIsElsewhere(w: World, p: Process, write: Write, plan: Plan)
    requires WorldInv(w, plan) && IsElsewhere(write, w.state) && Enabled(w.state, write, TermsOf(plan, p))
    ensures var next := w.(revision := w.revision + 1, state := After(w.state, write, TermsOf(plan, p)));
      && CanStep(w, p, Elsewhere(write), plan) && next == Step(w, p, Elsewhere(write), plan)
      && WorldInv(next, plan) && ValidState(next.state)
  {
    hide WorldInv, Enabled, After, ValidState;
    StepKeeps(w, p, Elsewhere(write), plan);
    StoreIsValid(Step(w, p, Elsewhere(write), plan), plan);
  }
}
