# Verified model of a crash-tolerant ticket automation engine

The engine carries one ticket from selection to a finished, pushed and recorded change. Everything it knows
about a run is one durable record, changed only by compare-and-swap; every external effect is first written to
a ledger, then tried, then recorded. Clients may crash between any two of these steps, several may work at
once, and people may stop and resume a run. This project models that record and the protocols over it, and
proves what they keep.

The code is in modules that follow the program's parts:

- **The Effect Ledger** (`Ledger.dfy`, `LedgerViews.dfy`). The checking loop is proved equal to a grammar: sequence
  numbers rise, and the events of one effect spell I(VO)\*, I(VO)\*V or I(VO)\*R.
- **The run record** (`RunState.dfy`, `Store.dfy`, `Writes.dfy`, `Protocol.dfy`). `RunState` is the record, `ValidState` its persisted
  contract, `RunStateStore` the compare-and-swap store. `Protocol.Write` lists every write any component makes, with
  the checks its component makes before it.
- **The joint invariant** (`ProtocolInvariant.dfy`, `ProtocolRuns.dfy`). Every write keeps one invariant: a valid and quiet
  ledger, pending requests, the branch saga, milestones, attempt bounds and the retry wait. What follows for whole runs is
  stated beside it. The policy is fixed for a run; each write has its own approval, so that a run may be invalidated and
  approved again under another review.
- **What runs add up to** (`Attestation.dfy`, `Chain.dfy`, `Waits.dfy`, `Reach.dfy`). Confirmations rest on receipts; the exact conditions under
  which a completion rests on a push and the accumulated wait is what the ledger recorded; and how runs are put together
  from their parts, for the ones that show a condition is needed.
- **Processes, Git and crashes** (`World.dfy`, `WorldSteps.dfy`, `Host.dfy`). Any number of processes, each with the approval it was
  started for, each interrupted anywhere between storing an intention, comparing HEAD, comparing the worktree, staging,
  committing, sending a push and storing the answer, while people edit the worktree.
- **Rival processes** (`Rivals.dfy`, `RivalRuns.dfy`). Exactly when the branch can gain another commit and the remote can leave the
  first one, why it otherwise does not, whole histories in which it does, and what a run that was approved again can still record.
- **The sagas** (`Finalizer.dfy`, `Linear.dfy`, `Prepare.dfy`). The methods as the program has them, running against the other
  processes: before each atomic step the others may have taken any number of steps, and at each one the process may die.
- **Supervisor and router** (`Router.dfy`, `Supervisor.dfy`, `SupervisorRuns.dfy`). Invalidation as reachability, total failure
  routing, one stage per step, and a measure that bounds every run.
- **Publication** (`Publication.dfy`, `PublicationRuns.dfy`, `OpenSpec.dfy`). Versions of a change's artifacts, unlocked staging
  with reads at different moments, locked publishing, and complete trees.
- **One-use capabilities** (`Capability.dfy`, `FinalizationService.dfy`). Two critical sections with the handler between them.
- **Git** (`Manifest.dfy`, `Commit.dfy`, `Git.dfy`, `GuardSteps.dfy`, `GitOutput.dfy`). The change manifest and its meaning, commit verification,
  the guard that alone commits and pushes, its commit as steps of the world, and the parsers of Git's output.

In the histories that end badly (`MilestoneChain.ChainCanBreak` and those of `RivalRuns`) the run is approved by a writer
outside the supervisor, who binds the reviewed artifacts and keeps the Reviewer's checkpoint alone; `Supervision.NextStage`
would take the earlier stages first.

`Interfere` in `Host.dfy` and `FinalizationService.dfy` stands for the other processes: its body does nothing, and callers are
proved against its contract alone, which allows any number of steps of the others. The constant `calm` of both classes
means that nobody interferes, nothing dies, the approved artifacts and the context are as they were, and Git or the
handler works. Without it a contract says what holds in any surroundings; with it the contract says in addition what
must be achieved, so that a method that skips a step, or always gives up, does not meet it.

## Where the code does not do what one might expect

Each of these is a lemma or a clause about the code as it is written.

- A checkpoint leaves `current_stage` on the finished stage, while the next execution demands equality, so the step
  after a successful stage goes to Human Review (`SupervisorRuns.StepAfterCheckpointStops`).
- A stage with an outdated checkpoint cannot be checkpointed again: its second output is refused by the store and the
  run asks for repair (`SupervisorRuns.StaleCheckpointNeedsRepair`).
- A commit that is held on the branch (at HEAD, verified for this approval, the branch closed) but not recorded is adopted without another Git call exactly when the latest attempt
  is not settled. When it is settled, one more call is made, which the guard refuses; the advance after that adopts
  (`Finalizers.Finalizer.Advance`).
- What the ledger recorded and the run did not count as retry wait is exactly the sum of the waits that were refused as
  too long (`RetryWaits.WaitIsConserved`).
- An untracked file at the path of a deletion that stays a deletion is left out of the manifest. The manifest is
  faithful exactly when there is no such file (`Manifests.FaithfulIffNothingDropped`, `Manifests.AFileCanBeDropped`).
- A manifest that renames a file away and writes its old path again is never accepted as a commit
  (`Commits.RewrittenSourceIsRefused`).
- The store lets a parked run resume while its completion is still pending. A product defect then throws the push away
  but not the request, and the old receipt completes a run without push or commit; `MilestoneChain.ChainCanBreak` is such
  a run from its beginning. Completions rest on a push throughout a run if and only if no failure does that
  (`MilestoneChain.RunIsChained`), and the chain stands if and only if none is received without a push
  (`MilestoneChain.RunIsAChain`).
- The guard compares HEAD with the baseline, then the worktree with the manifest; it stages what the worktree has become by
  then and commits on whatever HEAD is by then. A process that passed the guard before the first commit can commit on top
  of it, under another approval (`RivalRuns.TwoCommitsCanHappen`) or under the same one (`RivalRuns.TwoCommitsWithOneApproval`).
  Another commit can follow if and only if `Worlds.IsClosed` does not hold (`Rivals.AnotherCommitIff`), and the first commit closes
  the branch exactly when its process is alone between guard and staging (`Rivals.FirstCommitClosesIff`).
- A worktree that is edited between its comparison and its staging is committed; the verification refuses that commit, and
  no process approved for the reviewed tree ever records one afterwards (`Rivals.EditedTreeIsCommitted`).
- A push compares HEAD with the recorded commit and then sends what the branch holds. When the branch gains another commit
  in between, the remote leaves what was recorded as pushed (`RivalRuns.RemoteCanLeaveRecorded`); it can if and only if the
  branch gains another commit (`Rivals.RemoteCanLeaveIff`). The run then gets no further than Human Review
  (`Finalizers.Finalizer.Advance`).
- A run that is approved again for another tree, with the first approval's commit already on the branch, never records a
  commit (`Rivals.OtherApprovalsRecordNothing`).
- Once the branch effect is reconciled the ledger refuses any further event of it (`ProtocolRuns.ReconciledIsClosed`), so a
  preparation that the store lets start over after a compensation cannot create its branch again.
- A preparation that dies between its first invocation and the stored binding is always given up for review; from
  every other position at most three undisturbed steps create the branch (`Preparation.CalmStepAdvances`).
- A capability whose dispatcher dies after its claim stays consumed for good and is never answered
  (`Capabilities.AbandonedForever`).
- A finished run goes to Human Review when the release of its index entry fails (`Finalizers.Finalizer.FinishRelease`).

## Model

| member | source | states |
|---|---|---|
| EffectLedger.AutomatonIsGrammar | src/auto_code/contracts.py:2987-3008 | the per-effect automaton of the loop accepts a word of events exactly when it is I(VO)\*, I(VO)\*V or I(VO)\*R |
| EffectLedger.ExtendedValidity | src/auto_code/contracts.py:2983-3008 | a valid ledger can be extended by exactly the events the loop does not refuse |
| EffectLedger.ValidityIsPrefixClosed | src/auto_code/contracts.py:2979-3009 | every prefix of a valid ledger is valid |
| EffectLedger.ValidateEffectLedger | src/auto_code/contracts.py:2979-3009 | the loop accepts exactly the valid ledgers, returns each effect's intention and phase, and otherwise names the first bad event and its rule |
| LedgerViews.ExtendKeepsValidity | src/auto_code/finalizer.py:408-467 | appending consecutively numbered events that continue one effect's word grammatically keeps the ledger valid and touches no other effect |
| Stores.Validate | src/auto_code/contracts.py:2850-2962 | the persisted contract is decided exactly, through the checking loop |
| Stores.RunStateStore.CompareAndSwap | src/auto_code/state.py:608-646 | a swap succeeds exactly on the current revision with a valid state, raises the revision by one, and otherwise changes nothing |
| Router.Descendants | src/auto_code/router.py:228-234 | for any finite dependency map the growing set stops and equals what is reachable from the owner |
| Router.ReviewerIsAlwaysInvalidated | src/auto_code/router.py:105-146 | invalidating any stage invalidates the Reviewer |
| Router.InvalidateFromStage | src/auto_code/router.py:105-146 | computes the invalidated state from the reachable stages |
| Router.InvalidationIsSafe | src/auto_code/router.py:105-146 | invalidation keeps every state valid and the checkpoints closed under dependencies, and clears eligibility |
| Router.InvalidationsCommute | src/auto_code/router.py:105-146 | two invalidations give the same state in either order, but for the stage the run resumes at |
| Router.ApplyRouteDecision | src/auto_code/router.py:201-225 | the loop over the invalidation roots computes the routed state |
| Router.RoutingIsTotal | src/auto_code/router.py:149-225 | any failure in any state is recorded, closes the iteration, and changes nothing else than its decision says |
| Router.RoutingIsSafe | src/auto_code/router.py:201-225 | routing keeps stored states valid and touches neither ledger nor pending request nor budget |
| Supervision.NextStage | src/auto_code/router.py:78-102 | returns the first stage, in order, without an expectation or a reusable checkpoint, and nothing for a run that is not active |
| Supervision.NextStageIsUnique | src/auto_code/router.py:78-102 | the next stage is determined by the state, the expectations and the issued checkpoints |
| Supervision.Supervisor.ExecuteAndCheckpoint | src/auto_code/supervisor.py:142-237 | whatever the executor answers, what is stored is the one routed or checkpointed state of its verdict |
| Supervision.Supervisor.Step | src/auto_code/supervisor.py:78-109 | a stale caller changes nothing; a step that dies leaves at most an opened iteration; otherwise the stored state is the step's specification |
| SupervisorRuns.StepKeepsValid | src/auto_code/supervisor.py:78-109 | iterations begun never exceed the base budget and the consumed grants |
| SupervisorRuns.StepDescends | src/auto_code/supervisor.py:78-188 | a step leaves the run as it is exactly when it is at rest, and otherwise uses up some of the measure |
| SupervisorRuns.RunsAreBounded | src/auto_code/supervisor.py:78-109 | in any run of steps, for any executor outcomes and with deaths between the two writes of a step, the number of changing steps is bounded by the first state's measure |
| SupervisorRuns.StepKeepsGrounded | src/auto_code/supervisor.py:142-188 | a stage is only ever checkpointed on top of everything it requires |
| SupervisorRuns.EligibilityNeedsApproval | src/auto_code/supervisor.py:190-237 | finalization becomes eligible only through an approved review of the bound manifest |
| SupervisorRuns.StepAfterCheckpointStops | src/auto_code/supervisor.py:143-188 | after a stored checkpoint the next step for another stage goes to Human Review |
| SupervisorRuns.StaleCheckpointNeedsRepair | src/auto_code/supervisor.py:176-187 | a stage that already has a checkpoint cannot store another one; the run asks for repair |
| ProtocolInvariant.IntendKeeps | src/auto_code/finalizer.py:408-428 | storing an intention under a fresh effect keeps the joint invariant |
| ProtocolInvariant.RecordKeeps | src/auto_code/finalizer.py:430-467 | recording a result as one round, with its commit or push, keeps the joint invariant |
| ProtocolInvariant.AskKeeps | src/auto_code/linear.py:260-325 | storing a pending request with its intention keeps the joint invariant |
| ProtocolInvariant.AcceptKeeps | src/auto_code/finalizer.py:215-247 | consuming a receipt with the finalization's update keeps the joint invariant |
| ProtocolInvariant.AcceptPreparationKeeps | src/auto_code/prepare.py:588-604 | consuming a receipt with the preparation's update keeps the joint invariant |
| ProtocolInvariant.BranchPosition | src/auto_code/prepare.py:407-452 | while the branch is being prepared, the stored binding tells its first round from its second |
| ProtocolInvariant.BranchInvokeKeeps | src/auto_code/prepare.py:471-483 | an invocation continues the branch effect to IV without a binding and to IVOV with one |
| ProtocolInvariant.BranchFinishKeeps | src/auto_code/prepare.py:512-548 | the branch's outcome and its one reconciliation are stored together and end the effect at IVOR or IVOVOR |
| ProtocolInvariant.DoneKeeps | src/auto_code/finalizer.py:178-199 | DONE is stored with all four pieces of evidence |
| ProtocolInvariant.RouteKeeps | src/auto_code/router.py:105-225 | a routed failure keeps the joint invariant; an invalidation takes back all milestones together |
| ProtocolInvariant.WriteKeeps | src/auto_code/contracts.py:2850-2962 | any write of any component, made when its component makes it, keeps the joint invariant and so a valid state |
| ProtocolRuns.EveryStateKeepsInv | src/auto_code/finalizer.py:104-204 | in every stored state of every run, under any sequence of approvals and with any resumption the store allows, the ledger is valid, the push rests on the commit, the commit on the ticket's projection, DONE on all four milestones, and attempts stay within the allowed number |
| Attestations.WhoConfirms | src/auto_code/prepare.py:588-604 | of all writes only the preparation's own consumption of a successful start receipt confirms the start, and of a successful restore receipt the compensation |
| Attestations.EveryStateIsAttested | src/auto_code/prepare.py:588-604 | in every stored state of every run a started ticket is backed by a successful start receipt in the ledger, and a compensation by a successful restore receipt |
| ProtocolRuns.OnlyTheBranchAwaits | src/auto_code/finalizer.py:408-467 | between writes no effect but the branch's awaits an observation, and a pending effect has only its intention |
| ProtocolRuns.BranchOutcomeIsReconciled | src/auto_code/prepare.py:512-548 | the phase is BRANCH_CREATED, READY or COMPENSATION_REQUIRED exactly when the branch effect is reconciled; compensated implies COMPENSATION_REQUIRED |
| ProtocolRuns.OneReconciliation | src/auto_code/contracts.py:3003-3008 | a valid ledger reconciles each effect at most once |
| ProtocolRuns.WriteIsOnward | src/auto_code/state.py:688-704 | no write shortens the ledger or the failures, moves the preparation back, or undoes a binding, a compensation or a wait |
| ProtocolRuns.RunsAreOnward | src/auto_code/state.py:1002-1027 | over any run the preparation phase never moves backward and the stored binding never changes |
| ProtocolRuns.BranchOutcomeIsFinal | src/auto_code/prepare.py:536-548 | created and compensation exclude each other over a whole run, and neither is left |
| ProtocolRuns.AcceptanceCloses | src/auto_code/linear.py:372-397 | accepting a receipt takes its effect from the bare intention to reconciled in one write |
| ProtocolRuns.ReceiptsAreAppliedOnce | src/auto_code/linear.py:344-420 | no run ever applies two receipts for one effect |
| ProtocolRuns.ReconciledIsClosed | src/auto_code/contracts.py:2995-3008 | after its reconciliation an effect accepts no further event |
| RetryWaits.AcceptanceCountsItsWait | src/auto_code/finalizer.py:229-238 | a receipt adds to the accumulated wait what it adds to the ledger, except exactly for a refused wait |
| RetryWaits.WriteCountsItsWait | src/auto_code/finalizer.py:229-247 | of all writes of all components only a refused wait leaves a wait of the ledger uncounted |
| RetryWaits.WaitIsConserved | src/auto_code/finalizer.py:229-247 | in every stored state of every run the ledger's waits are the accumulated wait and the refused waits so far; both sides are equal exactly when none was refused, and the accumulated wait is within the total allowed |
| MilestoneChain.WriteKeepsChained | src/auto_code/router.py:123-143 | a write keeps completions resting on a push if and only if it does not throw the push away under a pending completion |
| MilestoneChain.WriteBreaksChain | src/auto_code/finalizer.py:225-228 | a write breaks the chain completion, push, commit, projection if and only if it receives a completion for a run without a push |
| MilestoneChain.RunIsChained | src/auto_code/state.py:863-876 | over any run, completions asked for or received rest on a push in every state if and only if no failure throws a push away while its completion is pending |
| MilestoneChain.EveryStateIsAChain | src/auto_code/finalizer.py:119-204 | without such a failure the whole chain stands in every stored state, after invalidations as well |
| MilestoneChain.RunIsAChain | src/auto_code/finalizer.py:225-228 | the chain stands in every state of a run if and only if no completion is received for it without a push |
| MilestoneChain.ChainCanBreak | src/auto_code/state.py:1360-1368 | a run from its initial state, prepared, finalized up to the completion, resumed, invalidated and approved again, that ends with a completion and no push |
| Worlds.MakeCommitKeeps | src/auto_code/git.py:727-731 | a commit follows whatever HEAD is; it is the process's answer exactly as the first commit, with its own approved tree |
| Worlds.SendPushKeeps | src/auto_code/git.py:740-748 | a push moves the remote to whatever the branch holds by then, and is answered only for the first commit while it is the only one |
| Worlds.InvokeCreationKeeps | src/auto_code/prepare.py:443-452 | the invocation that announces the branch's creation can be stored only once, and only for the stored binding |
| Worlds.StepKeeps | src/auto_code/finalizer.py:327-467 | every step of every process, crashes included, keeps the world's invariant, and an answer can always be recorded in the generation it was asked in |
| Worlds.DistinctCallsAreAttempts | src/auto_code/finalizer.py:501-506 | distinct called effects are at most the counted intentions |
| Worlds.RecordedIsTheFirstCommit | src/auto_code/finalizer.py:327-467 | at any moment of any history, under any approvals, Git calls are at most the intentions and these at most the allowed number, what is recorded as commit and as pushed is the first commit on the baseline, the remote has some commit of the branch once a push is recorded, and the branch was created at most once from the stored binding |
| Worlds.ClosedStaysClosed | src/auto_code/git.py:704-705 | a branch on which nobody can add a commit stays so: the guard's comparison of HEAD keeps every new process out |
| Rivals.AnotherCommitIff | src/auto_code/git.py:697-731 | once there is a commit, another can follow if and only if a process saw HEAD before it and has not staged yet, or something else is staged and a process has staged |
| Rivals.FirstCommitClosesIff | src/auto_code/git.py:704-727 | the first commit closes the branch for good exactly when no other process is between its look at HEAD and its staging |
| Rivals.CommitHappensAtMostOnce | src/auto_code/git.py:704-731 | the branch gains at most one commit, wherever processes die and whatever is approved when, as long as the first commit is made by a process that is alone between guard and staging |
| Rivals.TwoCommits | src/auto_code/git.py:704-727 | two processes past the guard, whatever their approvals, make two commits when the worktree changes between the second's comparison and its staging |
| Rivals.EditedTreeIsCommitted | src/auto_code/git.py:706-730 | one process alone can commit an edited worktree, and nobody approved for the reviewed one ever records a commit after that |
| RivalRuns.TwoCommitsCanHappen | src/auto_code/git.py:697-731 | a whole history from a run that was just activated, invalidated and approved again, that ends with the approved trees of both approvals committed |
| RivalRuns.TwoCommitsWithOneApproval | src/auto_code/git.py:697-731 | a whole history under a single approval that ends with the approved tree committed and an edited one on top |
| Rivals.RemoteHoldsRecorded | src/auto_code/git.py:733-748 | a recorded push is what the remote holds, in every history whose first commit is made alone |
| Rivals.RemoteCanLeaveIff | src/auto_code/git.py:736-741 | while a push is between its comparison of HEAD and its sending, the remote can come to hold another than the first commit if and only if the branch has gained another commit or still can |
| RivalRuns.RemoteCanLeaveRecorded | src/auto_code/git.py:733-748 | a whole history under a single approval that ends with the first commit recorded as pushed and another one on the remote |
| Rivals.OtherApprovalsRecordNothing | src/auto_code/finalizer.py:385-406 | with a commit on the branch, no process approved for another tree ever records a commit, whatever happens |
| Rivals.ReapprovedRecordsIff | src/auto_code/git.py:772-782 | a process that may look for the one commit on a clean branch can record it if and only if it is approved for that commit's tree |
| WorldSteps.MovesKeepTheBranch | src/auto_code/finalizer.py:385-406 | no sequence of steps loses a commit or takes the branch from the remote, and a closed branch gains nothing |
| WorldSteps.HeldStaysHeld | src/auto_code/git.py:772-782 | the verified commit of a closed branch stays at HEAD and verified, whatever the others do |
| Hosts.Host.Swap | src/auto_code/state.py:608-646 | a write is stored on the exact generation only, and the validating store never refuses a component's write |
| Hosts.Host.SwapOwn | src/auto_code/finalizer.py:408-467 | an effect step is stored only in the generation it was decided in; a lost race ends the process |
| Hosts.Host.CommitManifest | src/auto_code/git.py:697-731 | with a commit already on the branch the guard answers nothing; in calm surroundings it then leaves the repository alone, as it does when the worktree is not the approved one, and on a branch where no other process is past the guard it makes the approved commit, answers it and leaves it held |
| Hosts.Host.PushCommit | src/auto_code/git.py:733-748 | an answer is the commit that was to be pushed; in calm surroundings it is answered and on the remote when it is HEAD, and otherwise nothing is pushed |
| Hosts.Host.LookForResult | src/auto_code/git.py:772-792 | a commit that is held on the branch is found; in calm surroundings the answer is what Git holds |
| LinearGateways.OtherReceiptsAreRefused | src/auto_code/linear.py:512-518 | once a receipt is consumed, no other receipt for its effect counts as consumed |
| LinearGateways.LinearGateway.PersistPending | src/auto_code/linear.py:260-325 | success means exactly this request is pending, whoever stored it; a different pending request, a wrong binding and an inactive run are refused |
| LinearGateways.LinearGateway.ReplayPending | src/auto_code/linear.py:327-342 | the pending request is rebuilt from the record alone, nothing is stored, and a stale caller is refused |
| LinearGateways.LinearGateway.ConsumeReceipt | src/auto_code/linear.py:344-420 | success means this receipt is reconciled; a consumed receipt returns the current generation unchanged, any other is refused, and one for exactly the pending request is applied once |
| Finalizers.RecordProgresses | src/auto_code/finalizer.py:367-369 | recording an unrecorded attempt settles it by one stage |
| Finalizers.LookProgresses | src/auto_code/finalizer.py:370-383 | looking once more at a recorded attempt settles it |
| Finalizers.NewAttemptIsUnsettled | src/auto_code/finalizer.py:408-467 | a new recorded attempt is one the next advance looks at again |
| Finalizers.Finalizer.Intend | src/auto_code/finalizer.py:408-428 | the intention is stored before anything is called, under an effect nobody has used |
| Finalizers.Finalizer.RecordLocalResult | src/auto_code/finalizer.py:430-467 | a result is stored as one round on exactly the generation of its intention |
| Finalizers.Finalizer.InvokeCommit | src/auto_code/finalizer.py:327-340 | with a commit already on the branch the attempt is recorded as failed and stays to be looked at; in calm surroundings, on a branch that is clear for it, the commit is made and recorded |
| Finalizers.Finalizer.InvokePush | src/auto_code/finalizer.py:342-351 | a push never changes the recorded commit; in calm surroundings it is made and recorded |
| Finalizers.Finalizer.ObserveLocalEffect | src/auto_code/finalizer.py:385-406 | a commit held on the branch is recorded as this effect's success |
| Finalizers.Finalizer.ReconcileLocalEffect | src/auto_code/finalizer.py:353-383 | nothing is left to do exactly when the latest attempt is settled; otherwise it is settled further, and a commit held on the branch is adopted |
| Finalizers.Finalizer.ReleaseActiveRun | src/auto_code/finalizer.py:553-616 | a run is marked released only for the terminal generation the index has signed off |
| Finalizers.Finalizer.GatedResult | src/auto_code/finalizer.py:514-527 | a finished and released run is returned as it is, and nothing is touched; in calm surroundings a pending release is finished |
| Finalizers.Finalizer.Finish | src/auto_code/finalizer.py:173-204 | ends in a finished and released run with exactly this run's evidence, or in review; in calm surroundings with our index entry in the former |
| Finalizers.Finalizer.AskLinear | src/auto_code/finalizer.py:119-171 | the request that is returned is the pending one of the returned generation, asked for only when it may be |
| Finalizers.Finalizer.Enter | src/auto_code/finalizer.py:106-133 | a round goes on only for an approved active run with the approved projection |
| Finalizers.Finalizer.PursueEffect | src/auto_code/finalizer.py:135-157 | either the run comes closer to its end by the loop's measure, or the call returns; in calm surroundings with attempts left always the former |
| Finalizers.Finalizer.CompleteTicketOrFinish | src/auto_code/finalizer.py:159-204 | with commit and push recorded the completion is asked for, or the run is finished with it; in calm surroundings with attempts left it does not fail |
| Finalizers.Finalizer.Carry | src/auto_code/finalizer.py:105-204 | the loop ends by the measure of the effects still unrecorded and how far their latest attempts are settled, and every way out keeps what the call promises |
| Finalizers.Finalizer.Advance | src/auto_code/finalizer.py:104-204 | the loop ends for any behaviour of Git, the store and the others; each step is a legal step of the world; DONE and released is a fixed point; a lost commit is adopted without a Git call exactly when its attempt is not settled; an active run whose branch has gained another commit than the recorded one gets no further than review; in calm surroundings one call takes an approved run with nothing in its way to the verified commit, pushed, with the completion asked for, and with the completion there to finished and released |
| Finalizers.Finalizer.AcceptTrustedReceipt | src/auto_code/finalizer.py:206-247 | a receipt is applied only under a standing approval, exactly as the update says, and otherwise nothing is stored |
| Preparation.PrepareCoordinator.RecordBranchResult | src/auto_code/prepare.py:512-548 | observation, reconciliation and the phase they decide are stored together |
| Preparation.PrepareCoordinator.AppendCreation | src/auto_code/prepare.py:443-445 | only the stored binding is handed to Git for creation |
| Preparation.PrepareCoordinator.BindBranch | src/auto_code/prepare.py:416-432 | the first round ends in a stored binding, a recorded failure or review; in calm surroundings in the binding |
| Preparation.PrepareCoordinator.CreateBoundBranch | src/auto_code/prepare.py:443-452 | after the second round Git was asked once, ever, to create the branch; in calm surroundings its success is stored |
| Preparation.PrepareCoordinator.ReconcileBranch | src/auto_code/prepare.py:407-452 | the next stored state is the one the saga's table gives for how far the branch effect is, wherever an earlier process died |
| Preparation.PrepareCoordinator.LookForBranch | src/auto_code/prepare.py:433-442 | a creation that may have happened is only looked for, never called again |
| Preparation.CalmStepAdvances | src/auto_code/prepare.py:407-452 | from every position but a first invocation without a stored binding, at most three calm steps create the bound branch |
| Preparation.PrepareCoordinator.Advance | src/auto_code/prepare.py:291-331 | one call takes legal steps only and returns the pending request or the current generation; in calm surroundings every phase of an active run does its step |
| Preparation.PrepareCoordinator.ConsumeReceipt | src/auto_code/prepare.py:333-356 | success means the receipt is reconciled in the returned generation |
| Preparation.CreationsAreKept | src/auto_code/git.py:452-472 | a creation that was made is the only one there will ever be |
| Publication.StaleMeansDependent | src/auto_code/openspec.py:736-744 | a visible artifact would become stale exactly when it depends on the replaced one |
| Publication.PublishableIff | src/auto_code/openspec.py:558-605 | a version becomes visible exactly when its inputs are the visible ones, it replaces the visible version, and nothing visible depends on that artifact |
| Publication.PublicationKeepsClosed | src/auto_code/openspec.py:579-601 | publishing keeps the visible set closed under dependencies, replaces one artifact and raises the revision by one |
| PublicationRuns.WriteKeeps | src/auto_code/openspec.py:1062-1076 | each single file that is written leaves everything already in the tree and adds nothing else |
| Publication.HeldFits | src/auto_code/openspec.py:767-791 | a revision's files can all be in one tree only when no two contents are wanted at one path and none is there already |
| PublicationRuns.RevealKeeps | src/auto_code/openspec.py:594-601 | at the pointer swap the revision's tree is complete and holds nothing else |
| PublicationRuns.ActKeeps | src/auto_code/openspec.py:368-405 | every action of every client, with reads at different moments and deaths anywhere, keeps the invariant |
| PublicationRuns.RunsEvolve | src/auto_code/openspec.py:582-601 | revisions never fall, artifacts never disappear, versions only move to ones derived from them, and an artifact with a visible dependent never moves again |
| PublicationRuns.VisibleIsClosedAndComplete | src/auto_code/openspec.py:558-610 | at every moment of every interleaving every visible artifact's inputs are the versions visible beside it, and all files are there |
| PublicationRuns.VersionsNeverReturn | src/auto_code/openspec.py:586-589 | a version that was replaced never becomes visible again |
| OpenSpec.PublicationStore.StageArtifact | src/auto_code/openspec.py:368-405 | staging succeeds exactly when all dependencies are visible, and binds their versions and the replaced one |
| OpenSpec.PublicationStore.RevalidatePrerequisites | src/auto_code/openspec.py:730-734 | decides whether every recorded input is the visible version |
| OpenSpec.PublicationStore.RejectStaleDependents | src/auto_code/openspec.py:736-744 | decides whether any artifact recorded another version of the published one |
| OpenSpec.PublicationStore.WriteCompleteRevision | src/auto_code/openspec.py:767-791 | it succeeds exactly when the artifacts' files fit each other and what an interrupted writer left; the tree is then complete and exact, and even a failed write leaves what is visible alone |
| OpenSpec.PublicationStore.PublishArtifact | src/auto_code/openspec.py:558-610 | it succeeds exactly for a staged version that is visible already, or may be published, fits and, when it completes the change, is valid; what becomes visible is then the decided successor with its complete tree, and any refusal or failure leaves the pointer as it was |
| Capabilities.ActKeeps | src/auto_code/finalization_service.py:695-736 | every action of every dispatcher keeps the protocol's invariant |
| Capabilities.HistoriesRise | src/auto_code/finalization_service.py:705-735 | status only moves from issued to consumed to completed, and a stored response stays |
| Capabilities.HandlerRunsAtMostOnce | src/auto_code/finalization_service.py:726-735 | for any number of dispatchers of one nonce, with deaths anywhere, the handler runs at most once |
| Capabilities.RepliesAgree | src/auto_code/finalization_service.py:713-722 | all replies for a nonce are one response, bound to the issued request |
| Capabilities.AbandonedForever | src/auto_code/finalization_service.py:723-735 | a capability whose dispatcher died after its claim is never answered |
| FinalizationServices.LauncherFinalizationService.IssueDescriptor | src/auto_code/finalization_service.py:635-693 | a nonce is issued once, and the service's own timeout is at most the shortest issued |
| FinalizationServices.LauncherFinalizationService.EnterOnce | src/auto_code/finalization_service.py:705-725 | under the lock a request is refused for its reason, answered again, or claimed |
| FinalizationServices.LauncherFinalizationService.Dispatch | src/auto_code/finalization_service.py:695-736 | an answer is the one stored response for exactly this request, and the handler runs here only after the claim; in calm surroundings a usable capability is answered by exactly one run, and an answered one by the stored response |
| Manifests.RenameMeans | src/auto_code/git.py:549-561 | turning a deletion into a rename adds one written path and changes nothing else |
| Manifests.FoldMatches | src/auto_code/git.py:549-561 | a matching deletion becomes the rename of its path to the file and is not used for another |
| Manifests.FoldKeeps | src/auto_code/git.py:562-563 | a file without a matching deletion is kept aside and leaves the records alone |
| Manifests.DeletedByObject | src/auto_code/git.py:539-543 | an object leads to its last deletion |
| Manifests.FaithfulIffNothingDropped | src/auto_code/git.py:511-583 | on every baseline the manifest means the diff and all untracked files exactly when no untracked file sits at a deletion that stays one |
| Manifests.FaithfulHasEveryFile | src/auto_code/git.py:564-582 | in a faithful manifest every untracked file has exactly its own record |
| Manifests.AFileCanBeDropped | src/auto_code/git.py:568-569 | a concrete diff and file for which the condition fails |
| Manifests.CollectManifestInputs | src/auto_code/git.py:511-583 | the loop over list and dictionary succeeds exactly when every path is allowed, every file that is no rename is authorized and no path repeats; it returns exactly the diff with its matched deletions folded and the other files added, which means what is said above |
| Commits.StagedIsWorktree | src/auto_code/git.py:712-726 | staging a faithful manifest over an otherwise clean index gives exactly the worktree |
| Commits.AcceptedIsApplied | src/auto_code/git.py:901-945 | an accepted commit's tree is the baseline with exactly the manifest applied |
| Commits.VerifiedIsWorktree | src/auto_code/git.py:901-945 | a verified commit of a faithful manifest holds exactly the reviewed worktree |
| Commits.RewrittenSourceIsRefused | src/auto_code/git.py:938-945 | a manifest that writes a renamed-away path again is never accepted |
| Commits.AcceptedIff | src/auto_code/git.py:901-945 | a tree that is the baseline with the manifest applied is accepted if and only if every record changes something and Git reports exactly the manifest's renames |
| Commits.CollectedIsAcceptedIff | src/auto_code/git.py:511-583 | for a diff of real changes and files that are not in the baseline, what is staged for a faithful manifest is accepted if and only if Git reports exactly the renames that were collected |
| GuardSteps.CommitIsWorldSteps | src/auto_code/git.py:697-731 | the guard's commit of a faithful manifest is passing, comparing, staging and committing in the world, and its tree is the reviewed worktree |
| Commits.VerifyCommit | src/auto_code/git.py:901-945 | the checks accept exactly the commits on the baseline, with a clean index, that touch the manifest's paths, hold its objects and show its renames |
| GitGuards.GitGuard.RefreshFinalization | src/auto_code/git.py:750-761 | branch and remote base are bound exactly when both are as approved |
| GitGuards.GitGuard.CommitManifest | src/auto_code/git.py:697-731 | success means HEAD is one verified commit on the baseline; off the baseline nothing is committed; only a verified commit is approved; when Git works it succeeds exactly when branch, baseline, worktree and index are right and the staged tree is accepted |
| GitGuards.GitGuard.ReconcileProductCommit | src/auto_code/git.py:772-782 | a verified commit at HEAD is found again, and nothing else is |
| GitGuards.GitGuard.Push | src/auto_code/git.py:733-748 | the remote branch is only moved to the approved commit, while HEAD is that commit and the remote base is unchanged, and when Git works exactly then |
| GitGuards.GitGuard.PushProductCommit | src/auto_code/git.py:766-770 | another commit than the approved one is never pushed |
| GitOutput.HeaderRoundTrip | src/auto_code/git.py:21-24 | matching a printed header gives back its five parts |
| GitOutput.ParseRawDiff | src/auto_code/git.py:987-1029 | the loop reads exactly the records of the field grammar, with its errors |
| GitOutput.RawRoundTrip | src/auto_code/git.py:987-1029 | parsing a printed diff gives back its records, one-path and two-path ones mixed in any order |
| GitOutput.ParsedRecordsAreValid | src/auto_code/git.py:999-1017 | every record that is read has a well-formed header and safe paths, two of them exactly for renames and copies |
| GitOutput.ParseStatus | src/auto_code/git.py:966-984 | the loop reads exactly the entries of the field grammar, with its errors |
| GitOutput.StatusRoundTrip | src/auto_code/git.py:966-984 | parsing a printed status gives back its entries |
| GitOutput.ParsedStatusIsValid | src/auto_code/git.py:966-984 | every entry that is read is one Git could have printed: two status letters, safe paths, a second path exactly for renames and copies |

## Left out

- Hashes and signatures: a hash is the hashed structure, a revision number stands for revision and state hash, receipts and descriptors are authentic when they say so.
- Identifiers: fresh ones are one above the highest in the ledger, standing for random ones.
- Clocks: times and waits are numbers given from outside.
- Stores.RunStateStore.CompareAndSwap: of the store's transition checks only the persisted contract; the others refuse more writes, so what holds for all modelled writes holds for fewer.
- Stores.Validate: the complete preparation binding, the key bindings, the authorization identifiers and the task coverage of the record are one-branch checks beside it.
- FinalizerWrites.Policy: one project policy, ticket snapshot and baseline for a whole run; approvals may change.
- Task statuses (`transition_task_status`, parsing of task lists): pure list updates beside the protocols.
- Worlds.StepKeeps: nothing but these processes moves the ticket branch, its remote or the index. Comparing the worktree and staging it take one step each; a worktree that is read in parts is one that is edited in between, which may happen at any time.
- Rivals.AnotherCommitIff: a tree is one value, so that the guard's comparisons of changed paths (src/auto_code/git.py:713-718) are refusals that may happen or not. What can happen is meant for trees that change the approved paths, at least one of them not a deletion; what cannot happen needs no such reading.
- Hosts.Host.StartLook: a process whose generation is already overtaken does not look at Git any more, since it could only lose its race afterwards.
- Finalizers.Finalizer.VerifyApproval: the immutable artifacts are one outside answer; what depends on the record is modelled.
- Finalizers.Finalizer.ReleaseActiveRun: the Active Run Index is one entry and one signed receipt, changed by this run alone.
- The reset of a compensated preparation to its start, which the store permits and no component makes.
- Preparation.PrepareCoordinator.Advance: selection, reservation and activation of a ticket come before the modelled saga.
- Supervision.Supervisor.Step: runs on a store nobody else changes during the step.
- Manifests.CollectManifestInputs: the final sort by path and the binary flag; the meaning does not depend on either. Git's own facts are requirements: untracked paths are distinct, in the worktree and not in the index.
- Commits.VerifyCommit: the renames Git reports for a commit are an input, of which only is assumed that a reported source is gone and its destination is new.
- GitGuards.GitGuard.CommitManifest: branch names, messages and the fetch are not modelled.
- PublicationRuns.ActKeeps: validation receipts and checkpoints are one check before the lock; the order in which a revision's artifacts are written is free.
- OpenSpec.PublicationStore.PublishArtifact: file system synchronisation and the ownership of a change.
- FinalizationServices.LauncherFinalizationService.Dispatch: sockets, frames and peer credentials.
- Collection of repair sources, branch name rules, the launcher and its sandbox, model and browser adapters, and the command line: operating-system or client plumbing.
