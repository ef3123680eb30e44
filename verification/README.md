# Verified model of the coding pipeline's control logic

The pipeline takes a request (a prompt or a labelled GitHub issue), plans it, asks a human, builds,
verifies and repairs, opens a pull request, has it reviewed, asks again, and merges. This project
models the code that decides what happens next, and proves what that code keeps. Agents, git,
GitHub and the workflow engine are arbitrary values: every answer they could give is covered.

- `PromptRun` and `IssueRun` are the two run controllers, as classes whose methods are the stages.
  A run reads a finite script that supplies, await by await, the updates handled meanwhile, whether the
  activity raised, and what it replied; a run whose script ends is still waiting. So a statement about
  every script is one about every run and every part of a run. Each run keeps a ghost trace of the
  activities it executed and of what its gates did; `RunTrace`, `PromptGates` and `IssueGates` say
  which traces are safe and what that means, `RunInvariant` what both controllers keep.
  Each ending of a run is explained by that trace, which also accounts for every await of the script, and
  scripts on which all goes well are proved to end in a merge. `PromptWitness` and `IssueWitness` drive the
  same stages on concrete scripts to the surprising ends, and a whole good run each.
- `RepairBudget` and `Verdict` hold what the repair loop charges and what a verify cycle concludes,
  on the shared channels of `PipelineState`.
- `TopoSort` and `BuildDispatch` are the build scheduler; `StateReducers` and `IssueComments` the
  channel reducers; `JsonScan` and `LoopBreaker` the two loop algorithms.
- `DispatchProtocol` is the start protocol between concurrent pollers with stale views; `PollTick` one
  poller's tick and the quarantine; `IssueLabels` the label edits.

`dafny verify dfyconfig.toml` checks everything.

Results that differ from what one might expect of the code:

- In a prompt run a tester finding that a build reported stays until a fixer turn succeeds; a later rebuild that
  reports nothing does not remove it. `Run` keeps the state's findings equal to the outstanding ones of the trace,
  and there are none iff every reporting build was followed by such a fixer turn (`PromptGates.OutstandingIff`).
  The reason: the build activity returns its input channels, and slicing by the old length cannot remove the copy
  (`RepairBudget.RebuildDropsStaleIff`). The first rebuild at the gate starts clean, because the gate opens on a
  passing verdict; `PromptWitness.KeepsStaleFinding` reaches a second one that does not.
- An issue run never drops findings. A verify passes iff its own evidence is clean and no build turn so far reported
  a tester finding and no fixer turn a blocking reconciliation finding (`IssueRun.IssueRun.VerifyStage`,
  `IssueGates.BlockedIff`). After one such report no verdict passes any more, however good its evidence
  (`IssueWitness.FailsOnGoodEvidence`); if it comes before the pull request, there will be none
  (`IssueRun.IssueRun.Repair`). The comment in the issue run that points to the prompt run's handling covers test
  results and findings only.
- The reconciliation findings of Builders and Testers never reach a run: the build activity leaves that channel out of
  what it returns. A Builder that says it is blocked blocks no verdict and is charged to nobody
  (`RunInvariant.BuilderReportsAreLost`), although the failure targets list its kinds.
- A merge does not imply a passing verdict: after a human fix or rebuild the gate is reached whatever the verdict is
  (`PromptWitness.MergesOnFailedVerdict`). It does when no human action was consumed (`Run` of both controllers).
- An approval given while the reviewer still looks is honoured: the decision taken at the merge gate came in after
  the review iff anything was decided after it (`PromptGates.ApprovalSeesReviewIff`).
- Without a sandbox nothing is executed and nothing recorded, and the verdict can pass all the same
  (`Verdict.NoSandboxStillPasses`). A required compile or lint step that fails blocks the verdict unless it left a
  report without errors, an empty one included (`Verdict.RequiredFailureHiddenIff`).
- At the design gate of an issue run a fix or rebuild signal is ignored without restoring the label, so a planning cap
  right after it leaves two state labels (`IssueWitness.LeavesTwoLabels`); this is the one such case
  (`IssueRun.IssueRun.CapReached`, `IssueRun.IssueRun.Run`).
- Not every human comment on an issue is stored. Stored are those that hydration found and those posted before triage
  last emptied the queue (`IssueGates.StoredIff`); once triage has accepted the issue that means before its last turn
  started (`IssueGates.AcceptedMeans`, `IssueGates.AcceptedStoresIff`). A comment posted while the accepting turn runs,
  or any time later, stays queued for good: `IssueWitness.LosesComment`.
- Not every cancel ends an issue run. One does iff it is still the signal in the slot when the run next looks: before a
  triage turn, after the wait for the author, once between the design's approval and the first build, or when an open
  gate wakes (`IssueGates.CancelingIff`, `IssueGates.HeededCancelStops`; by `IssueRun.IssueRun.Run` a run that finishes
  ended canceled, and not by a rejected design, iff it found one). During planning, and from the first build until a
  merge gate opens, a cancel is lost: the next gate forgets it when it opens (`IssueGates.CancelIsLost`,
  `IssueWitness.LosesCancel`).
- The limit on concurrent issue runs holds per poller: k pollers never exceed k times the limit
  (`PollTick.PollersNeverOver`), but two pollers already exceed a limit of one (`PollTick.TwoPollersOverLimit`).
- Run ids do not separate repositories whose owner and name spell the same with a dash
  (`DispatchProtocol.PrefixesSharedIff`, `DispatchProtocol.SlugsCollide`).

## Model

| member | source | states |
|---|---|---|
| `JsonScan.ExtractJson` | src/darkfactory/agents/_sdk_common.py:304-329 | a fenced block wins; otherwise the result is the first minimal brace-balanced block under the scanner's string rules, and nothing is returned exactly when no such block exists |
| `JsonScan.FirstBlockUnique` | src/darkfactory/agents/_sdk_common.py:314-328 | there is at most one such block, so the scanner has no choice |
| `JsonScan.ObjectSteady` | src/darkfactory/agents/_sdk_common.py:314-328 | every printed JSON object opens at its first character, stays open over its body whatever its strings contain, and balances only at its last character |
| `JsonScan.ScanUndoesPrint` | src/darkfactory/agents/_sdk_common.py:304-329 | for every JSON object, every prefix without a quote or an opening brace and every suffix, the scan returns exactly the printed object |
| `LoopBreaker.DetectRepeatingTriplet` | src/darkfactory/hooks/loop_breaker.py:31-45 | true iff the list has at least three calls, two or more repeats are asked for, and some trigram occurs at least that often |
| `LoopBreaker.Hook.PreToolUse` | src/darkfactory/hooks/loop_breaker.py:59-77 | denies iff the last `window` calls, this one included, hold a trigram that often; the trimmed history is always those calls |
| `LoopBreaker.LoopingAgentIsDenied` | src/darkfactory/hooks/loop_breaker.py:48-79 | a stream of period p is denied from call 3 + p(r-1) on when the window can hold that many calls |
| `LoopBreaker.LongCycleIsNotDenied` | src/darkfactory/hooks/loop_breaker.py:48-79 | a cycle of p distinct calls is never denied while fewer than 3 + p(r-1) calls are in view |
| `LoopBreaker.CycleDeniedIff` | src/darkfactory/hooks/loop_breaker.py:48-79 | the exact threshold for a cycle of p distinct calls |
| `StateReducers.LastNAbsorbs` | src/darkfactory/state.py:437-442 | trimming a log early never changes what a later trim keeps |
| `StateReducers.BoundedLogKeepsNewest` | src/darkfactory/state.py:425-442 | folding the bounded reducer over any deltas from an empty log gives the last `cap` entries of the whole history |
| `StateReducers.Merge` | src/darkfactory/state.py:511-526 | the loop over the delta, in any key order, gives key by key: a key not in the delta is untouched; one without a reducer, or where the delta's or the old value is null, reads the delta's value; any other reads the reducer of old and new |
| `StateReducers.PlainChannelIsLastWritten` | src/darkfactory/state.py:514-526 | over any run of merges a channel without a reducer reads what the last delta that mentions it wrote, and its old value when none does |
| `StateReducers.LastWrittenIff` | src/darkfactory/state.py:518-523 | what was written last is the value of the last delta that mentions the key; there is none iff no delta does |
| `StateReducers.BoundedChannelOverRun` | src/darkfactory/state.py:511-526 | over a whole run of merges a present bounded channel follows its own fold, undisturbed by other channels |
| `StateReducers.InitializedLogKeepsNewest` | src/darkfactory/state.py:511-550 | a log that the initial state sets to an empty list is, after any run of merges, the newest entries of everything contributed |
| `StateReducers.UninitializedLogObeysCapIff` | src/darkfactory/state.py:518-526 | on a channel never initialised the first delta bypasses the reducer: the cap holds iff that delta obeys it, and any later delta restores it |
| `StateReducers.MergeWorkPackages` | src/darkfactory/state.py:371-378 | the dictionary loop yields one slice per id, ids in first-seen order, each with its last written value |
| `StateReducers.PackagesMergeIncrementally` | src/darkfactory/state.py:371-378 | merging part of the history first changes nothing |
| `StateReducers.PackagesMergeAssociative` | src/darkfactory/state.py:371-378 | the reducer is associative |
| `StateReducers.PackagesMergeIdempotent` | src/darkfactory/state.py:371-378 | a merged spec has unique ids, holds only slices that were written, and merging it again, even with itself, leaves it alone |
| `IssueComments.MergeIssueComments` | src/darkfactory/state.py:381-418 | the reducer's loop with its two sets of seen keys computes the batch dedup of both lists |
| `IssueComments.DedupExact` | src/darkfactory/state.py:381-418 | no two stored comments share a non-empty id or body, every comment received is stored or matches a stored one, nothing else is stored |
| `IssueComments.DedupGrows` | src/darkfactory/state.py:404-418 | stored comments are never removed or reordered by later ones |
| `IssueComments.DedupStreams` | src/darkfactory/state.py:381-418 | reducing what arrived first and then the rest equals one batch dedup |
| `IssueComments.HumanCommentsAppend` | src/darkfactory/runtime/issue_comments.py:30-36 | filtering markers out of two batches equals filtering the joined batch |
| `IssueComments.HumanCommentsMean` | src/darkfactory/runtime/issue_comments.py:30-36 | the filter keeps exactly the comments that are no marker, each as often as it was there |
| `IssueComments.ClosesMeans` | src/darkfactory/runtime/issue_comments.py:10-36 | the marker scan finds a close iff `-->` follows with no `>` before it |
| `IssueComments.StripMeans` | src/darkfactory/state.py:381-418 | stripping takes off spaces only, and all of them at both ends |
| `TopoSort.Sort` | src/darkfactory/agents/builder_supervisor.py:15-40 | the worklist loop terminates with the complete layers in order followed by the leftover ids |
| `TopoSort.Release` | src/darkfactory/agents/builder_supervisor.py:36-39 | the inner loop removes exactly the finished layer from what the waiting slices wait for |
| `TopoSort.SettledExactly` | src/darkfactory/agents/builder_supervisor.py:29-39 | the ids placed by layers are exactly those that do not transitively depend on a cycle |
| `TopoSort.TailIsStuckIds` | src/darkfactory/agents/builder_supervisor.py:31-34 | the fallback tail is exactly the ids that transitively depend on a cycle, in declared order |
| `TopoSort.OrderPermutesIds` | src/darkfactory/agents/builder_supervisor.py:15-40 | the output is a permutation of the input ids |
| `TopoSort.OrderRespectsDeps` | src/darkfactory/agents/builder_supervisor.py:23-38 | every id before the tail comes after all its dependencies inside the spec |
| `TopoSort.FallbackIffCycle` | src/darkfactory/agents/builder_supervisor.py:31-34 | the fallback is taken iff the dependency graph restricted to the spec has a cycle, self-loops included |
| `BuildDispatch.BuilderPinnedIff` | src/darkfactory/agents/builder.py:175-180 | a Builder output is certain to be recorded under the dispatched slice iff that slice has an id |
| `BuildDispatch.BuildGraph.Supervise` | src/darkfactory/agents/builder_supervisor.py:82-105 | stops at the first id of the order that is unknown or lacks an output: an unknown one is a lookup error, any other is dispatched, Builder before Tester; finishes iff there is none |
| `BuildDispatch.BuildGraph.Work` | src/darkfactory/stages/build.py:254-380 | a crash records no output, an answer records exactly one under the dispatched slice |
| `BuildDispatch.BuildGraph.SuperviseInOrder` | src/darkfactory/agents/builder_supervisor.py:82-105 | between two turns the supervisor names the next turn of the schedule, and finishes iff all turns succeeded |
| `BuildDispatch.BuildGraph.WorkInOrder` | src/darkfactory/stages/build.py:254-380 | a turn, successful or not, keeps the run on schedule |
| `BuildDispatch.BuildGraph.Run` | src/darkfactory/stages/build.py:383-395 | every run, finished or cut short, dispatches along the schedule; it finishes iff every slice was built and tested |
| `BuildDispatch.DispatchAfter` | src/darkfactory/agents/builder_supervisor.py:97-103 | every dispatch is the turn the successes so far call for; after a crash it is the same turn again |
| `BuildDispatch.ProgressOne` | src/darkfactory/stages/build.py:269-279 | a recorded output moves the schedule on by one, a crash leaves it where it was |
| `BuildDispatch.FinishedBuildIsExact` | src/darkfactory/agents/builder_supervisor.py:97-105 | a finished build has exactly one Builder and one Tester output per slice, in build order |
| `BuildDispatch.MissingIsTurnsLeft` | src/darkfactory/agents/builder_supervisor.py:97-105 | the number of missing outputs is the number of turns left, so each success decreases it |
| `BuildDispatch.DispatchedAfterDeps` | src/darkfactory/agents/builder_supervisor.py:96-103 | on an acyclic spec every dispatched slice has all its dependencies built and tested |
| `BuildDispatch.FreshOrderIsUsable` | src/darkfactory/agents/builder_supervisor.py:95-98 | a fresh order over distinct ids never leads to a lookup error and names each slice once |
| `Verdict.RunLint` | src/darkfactory/stages/verify.py:350-366 | the lint loop appends exactly the findings of the runnable steps, in order |
| `Verdict.PlanRunExact` | src/darkfactory/stages/verify.py:200-366 | with a sandbox and a non-empty plan: what the plan run records is clean iff the test command ended with 0 in time, without failures or broken reports, and each compile or lint step has a report without errors or, without a report, ended with 0 in time or is not required |
| `Verdict.RequiredFailureHiddenIff` | src/darkfactory/stages/verify.py:272-315 | a required step that failed or timed out raises no hard finding iff it left a report without one |
| `Verdict.ExpectedPredicates` | src/darkfactory/stages/verify.py:417-444 | the result names exactly the (package, predicate) pairs of brief and spec, each once, in the order they are first read |
| `Verdict.AddKeys` | src/darkfactory/stages/verify.py:421-430 | the nested loop adds each new key once, whatever the set of keys seen was before |
| `Verdict.UncoveredPredicates` | src/darkfactory/stages/verify.py:510-533 | the dictionary and the count agree, key by key, with the last coverage entry that has this package and this text, stripped and not empty |
| `Verdict.LastStatusExact` | src/darkfactory/stages/verify.py:514-522 | a key has a status iff it is that of an entry with its package and its stripped text after which no other one follows; it has none iff there is no such entry |
| `Verdict.CoveredIff` | src/darkfactory/stages/verify.py:510-533 | a key is covered iff that last entry says so, so an entry of another package with the same text never covers it |
| `Verdict.AllKeysMeans` | src/darkfactory/stages/verify.py:417-444 | the keys read are exactly the pairs of an item's id and a non-empty predicate it asks for |
| `Verdict.MechanicalExact` | src/darkfactory/stages/verify.py:536-579 | the mechanical verdict passes iff every test result is clean, no finding is hard, and no agent left a blocking finding |
| `Verdict.VerdictExact` | src/darkfactory/stages/verify.py:463-579 | the final verdict passes iff it is mechanically clean and, when there are predicates, the last word on every expected one is covered (with none expected, every entry is) |
| `Verdict.PassHasPlan` | src/darkfactory/stages/verify.py:82-137 | a pass implies a non-empty verification plan |
| `Verdict.VerdictFromEvidence` | src/darkfactory/stages/verify.py:82-579 | a verify cycle passes iff nothing left by builder or fixer blocks, a plan could be made, its steps were clean if there was a sandbox, and the last word on every expected predicate is covered |
| `Verdict.NoSandboxStillPasses` | src/darkfactory/stages/verify.py:320-338 | without a sandbox nothing is recorded, and the cycle passes iff nothing blocks, the plan is not empty and the predicates are covered |
| `Verdict.RunVerify` | src/darkfactory/stages/verify.py:82-579 | plan, run, aggregate and judge, each in the source's order and with its loops, give the cycle that `Verdict.VerdictFromEvidence` characterises; both controllers call it |
| `Verdict.CycleIsFresh` | src/darkfactory/runtime/workflow.py:563-590 | after a verify cycle test results and findings are exactly that cycle's, and one retry is counted iff its final verdict failed |
| `Verdict.VerdictIgnoresOldEvidence` | src/darkfactory/runtime/workflow.py:564-576 | states that differ only in old test results, findings and summary verify alike |
| `Verdict.RetriesCountFailures` | src/darkfactory/stages/verify.py:463-483 | over any sequence of cycles, with any work between them, the retry counter is the number of failed cycles |
| `RepairBudget.FixerFailureTargets` | src/darkfactory/runtime/workflow.py:189-228 | the three collecting loops and their fallbacks give the charged packages and predicates |
| `RepairBudget.ChargedIff` | src/darkfactory/runtime/workflow.py:189-228 | a package is charged from the evidence iff its id, stripped and not empty, is carried by an uncovered coverage item, a tester finding or a blocking reconciliation finding; the fallback is used iff nothing carries one |
| `RepairBudget.ChargedPredicateIff` | src/darkfactory/runtime/workflow.py:189-228 | a predicate is charged iff it is the stripped, non-empty text of a coverage item that is not covered |
| `RepairBudget.ChargedWpsFacts` | src/darkfactory/runtime/workflow.py:189-228 | the charged list is never empty, names nothing twice, and never the empty id |
| `RepairBudget.TargetWpIds` | src/darkfactory/agents/fixer.py:101-130 | the Fixer's own loop collects the evidence and then always the active slice |
| `RepairBudget.FixerAimsAtFirstCharged` | src/darkfactory/agents/fixer.py:101-130 | whenever the Fixer has a target, its first one is the first package charged; it has none iff no evidence and no active slice names one |
| `RepairBudget.ChargeAll` | src/darkfactory/runtime/workflow.py:264-270 | the counting loop adds one to every target and leaves every other counter |
| `RepairBudget.RecordFixerAttempt` | src/darkfactory/runtime/workflow.py:253-283 | one attempt is charged to everything the failure names |
| `RepairBudget.CheckedChargeKeepsBudget` | src/darkfactory/runtime/workflow.py:231-270 | a charge let through by the exhaustion check keeps every counter within the limit |
| `RepairBudget.UncheckedChargeAddsOne` | src/darkfactory/runtime/workflow.py:701-704 | a human fix, which asks no budget, raises the bound by one |
| `RepairBudget.TotalCharge` | src/darkfactory/runtime/workflow.py:264-270 | the sum of all counters grows by the number of targets |
| `RepairBudget.RepairCallsBounded` | src/darkfactory/runtime/workflow.py:231-283 | calls that each charged someone number at most twice the packages charged |
| `RepairBudget.ChargedAreNamed` | src/darkfactory/runtime/workflow.py:189-228 | a charge only ever names packages that the evidence in the state names, so the counters' keys stay inside them |
| `RepairBudget.FixerTurnDropsStale` | src/darkfactory/runtime/workflow.py:364-382 | after a fixer turn tester findings are empty and reconciliation findings are exactly what the turn emitted |
| `RepairBudget.RebuildDropsStaleIff` | src/darkfactory/runtime/workflow.py:766-781 | after a rebuild tester findings are fresh iff there were none before, because the activity hands its input back |
| `RunTrace.TallyMeans` | src/darkfactory/runtime/workflow.py:402-848 | the running tally the controllers keep says of the whole trace what each definition says |
| `RunTrace.MergeIsVerifiedAndReviewed` | src/darkfactory/runtime/workflow.py:679-833 | in a safe trace every merge comes after a verify and then a review of exactly the code merged: no builder or fixer in between |
| `RunTrace.MergeHasHistory` | src/darkfactory/runtime/workflow.py:549-833 | and no stage was skipped: a build ended well before that verify, and a pull request before that review |
| `RunTrace.PrIsOnPassingCode` | src/darkfactory/runtime/workflow.py:563-664 | every pull request is opened on code whose latest verdict passed |
| `RunTrace.TeardownIsLast` | src/darkfactory/runtime/workflow.py:842-848 | teardown runs at most once and no activity follows it |
| `RunInvariant.RepairsAreBounded` | src/darkfactory/runtime/workflow.py:563-649 | before any human fix the fixer is called at most twice per package that anything in the run can name, so the repair loop ends |
| `RunInvariant.VerifyCounts` | src/darkfactory/runtime/workflow.py:575-592 | a verify cycle keeps the budgets and counts itself among the failed ones iff it failed |
| `RunInvariant.RefusedIff` | src/darkfactory/runtime/workflow.py:60-70 | the critic refuses a plan iff its decision says false; a missing decision or verdict approves |
| `RunInvariant.ExhaustedIff` | src/darkfactory/runtime/workflow.py:231-250 | the budget is used up iff something a charge now would name was charged twice |
| `RunInvariant.BuilderReportsAreLost` | src/darkfactory/runtime/activities.py:2061-2086 | what Builders and Testers report on the reconciliation channel changes nothing in the run's state; the subgraph's result would block and the state does not iff that channel alone has something blocking |
| `PromptGates.BriefTakenMeans` | src/darkfactory/runtime/workflow.py:499-547 | a brief decision taken is the last one delivered, with no revise consumed since |
| `PromptGates.BuildIsApproved` | src/darkfactory/runtime/workflow.py:499-551 | every build was started by an approval that was the last word delivered on the brief, delivered after the last consumed revise |
| `PromptGates.MergeIsApproved` | src/darkfactory/runtime/workflow.py:679-833 | every merge directly follows an approval that was the last word delivered on the merge, delivered after the last consumed fix or rebuild |
| `PromptGates.NoActionLeftAtMerge` | src/darkfactory/runtime/workflow.py:679-758 | when a merge decision is taken no delivered fix or rebuild is left unconsumed |
| `PromptGates.NoReviseLeftAtBrief` | src/darkfactory/runtime/workflow.py:499-547 | when a brief decision is taken no delivered revise is left unconsumed |
| `PromptGates.BriefIsOfApprovedPlan` | src/darkfactory/runtime/workflow.py:447-503 | a brief decision is taken only on a plan that the critic let through, with no other verdict and no revise in between |
| `PromptGates.WaitsForNothing` | src/darkfactory/runtime/workflow.py:499-503 | a gate waits only when every decision and revise, or action, delivered to it was used up |
| `PromptGates.ApprovalSeesReviewIff` | src/darkfactory/runtime/workflow.py:679-841 | the merge decision taken was delivered after a given review iff some merge decision was; it was when the slot was empty then |
| `PromptGates.OutstandingIff` | src/darkfactory/runtime/workflow.py:623-638 | no tester finding is outstanding iff every build that reported one was followed by a fixer turn that succeeded |
| `PromptGates.NoDeliveryBacksBothGates` | src/darkfactory/runtime/workflow.py:850-908 | no single delivery decides both gates; the old alias decides the gate that waits, or when none waits the brief first |
| `PromptRun.PromptRun.Handle` | src/darkfactory/runtime/workflow.py:850-908 | each update handler fills exactly the slot the update is routed to and touches nothing else |
| `PromptRun.PromptRun.Consume` | src/darkfactory/runtime/workflow.py:505-508 | consuming a revise empties both brief slots, consuming an action both merge slots |
| `PromptRun.PromptRun.PlanAttempts` | src/darkfactory/runtime/workflow.py:447-497 | at most five discoveries; it goes on iff the critic let a plan through, and ends with the planning cap iff five plans were refused; a plan is refused iff its decision says false |
| `PromptRun.PromptRun.BriefGate` | src/darkfactory/runtime/workflow.py:499-547 | a latched revise goes first and sends the run back; otherwise the latched decision passes, or rejects with its reason; nothing is awaited while one is latched |
| `PromptRun.PromptRun.Plan` | src/darkfactory/runtime/workflow.py:447-547 | planning and gate alternate until a critic-approved brief is approved; it ends the run only rejected by the decision taken or after five refused plans |
| `PromptRun.PromptRun.VerifyStage` | src/darkfactory/runtime/workflow.py:575-592 | the state becomes one fresh verify cycle of itself |
| `PromptRun.PromptRun.FixerTurn` | src/darkfactory/runtime/workflow.py:623-638 | the reply is merged, no tester finding is left and the reconciliation findings are the reply's; every counter and bound is kept |
| `PromptRun.PromptRun.RepairTurn` | src/darkfactory/runtime/workflow.py:619-649 | a fixer runs only on a failed, feasible verdict with budget left, and a fixer that gives up stops the run |
| `PromptRun.PromptRun.VerifyTurn` | src/darkfactory/runtime/workflow.py:575-617 | after a failed verdict it hands over iff the tester called a predicate infeasible or the budget is used up, with that reason; else the verdict stands |
| `PromptRun.PromptRun.Repair` | src/darkfactory/runtime/workflow.py:563-649 | goes on only with a passing verdict, at once when nothing blocks and the evidence is clean; otherwise hands over with the reason that holds of the state |
| `PromptRun.PromptRun.BuildStage` | src/darkfactory/runtime/workflow.py:549-781 | the build's result is merged and, for a rebuild, sliced by the old lengths; either way the tester findings are the old ones followed by the new |
| `PromptRun.PromptRun.HumanFix` | src/darkfactory/runtime/workflow.py:687-750 | back at the gate iff fixer, verify and review all succeeded: no tester finding is left, the fixer's own reconciliation findings are there, and the code is reviewed with the verdict of one fresh cycle on them |
| `PromptRun.PromptRun.HumanRebuild` | src/darkfactory/runtime/workflow.py:752-811 | back at the gate iff build, verify and review all succeeded: the code is reviewed with the state's verdict, and the tester findings are the old ones followed by the new |
| `PromptRun.PromptRun.TakeMerge` | src/darkfactory/runtime/workflow.py:813-841 | with no action latched, an approval merges once and anything else rejects without merging |
| `PromptRun.PromptRun.MergeGate` | src/darkfactory/runtime/workflow.py:679-841 | every way out of the gate, each for its reason; a merge is of reviewed code whose recorded verdict is the state's, and of passing code without tester findings when no human acted; approvals that come in time merge |
| `PromptRun.PromptRun.Run` | src/darkfactory/runtime/workflow.py:402-848 | for every script of updates and replies: safe trace, gates in order, counters within budget, at most two fixer calls per nameable package before a human fix, verifies at most one more than fixer calls and human actions, at most 5 x (1 + revises) discoveries, retries counted exactly, tester findings exactly the outstanding ones, teardown iff set up, one merge iff the run ends merged and then of code reviewed with the state's verdict. Every await is an activity or a wait that nothing delivered could end. A run fails only if an await raised, and finishes only if none did; rejected only by the last decision taken and for its reason; given to a human only after five refused plans, or before any human action by a verdict or a fixer that says so. When all goes well and everybody approves in time it merges |
| `PromptWitness.MergesOnFailedVerdict` | src/darkfactory/runtime/workflow.py:687-833 | a script on which the stages merge code whose verdict failed: a human fix whose fixer is blocked, and an approval |
| `PromptWitness.KeepsStaleFinding` | src/darkfactory/runtime/workflow.py:752-811 | a script on which a rebuild that reported nothing leaves the finding of the rebuild before it |
| `PromptWitness.GoodRunMerges` | src/darkfactory/runtime/workflow.py:402-848 | a script on which all goes well, and a whole run of it that merges |
| `IssueLabels.SwapLabels` | src/darkfactory/runtime/activities.py:1937-1962 | taking off what is there and adding what was missing before the edit is the swap: a label both shown and removed is not added again |
| `IssueLabels.SwapReplacesIff` | src/darkfactory/runtime/activities.py:1937-1938 | the edit shows the added label instead of the removed ones iff the added label is not both shown and removed; otherwise it is gone |
| `IssueLabels.SwapMoves` | src/darkfactory/runtime/activities.py:1937-1962 | when the added label is not among the removed, a swap leaves one state label iff it takes off the one shown or that is the one added, else both |
| `IssueLabels.QuarantineLabels` | src/darkfactory/runtime/activities.py:1405-1429 | the computed removals and additions give the quarantined label set |
| `IssueLabels.QuarantineTidies` | src/darkfactory/runtime/activities.py:764-777 | a quarantine leaves exactly the closing label, or at most done, and every label that says no state; repeating it changes nothing |
| `IssueGates.TakenAfterOpening` | src/darkfactory/runtime/issue_workflow.py:463-470 | every decision a gate takes was delivered after that gate opened and nothing overwrote it |
| `IssueGates.BuildIsApproved` | src/darkfactory/runtime/issue_workflow.py:463-571 | a build starts only on an approval delivered after the design gate opened |
| `IssueGates.BuildIsOfApprovedSpec` | src/darkfactory/runtime/issue_workflow.py:539-571 | every build starts right after its spec was announced, and that is the spec approved before, under the revision one more than the revises taken |
| `IssueGates.DesignIsOfApprovedPlan` | src/darkfactory/runtime/issue_workflow.py:427-465 | the design gate opens only on a plan that the critic let through, with no other verdict and no design decision in between |
| `IssueGates.MergeIsApproved` | src/darkfactory/runtime/issue_workflow.py:863-896 | a merge needs an approval delivered after the merge gate opened |
| `IssueGates.MergeNeedsAnotherApproval` | src/darkfactory/runtime/issue_workflow.py:863-896 | the design and the merge are decided by two different deliveries, in that order |
| `IssueGates.TriageHeedsCancel` | src/darkfactory/runtime/issue_workflow.py:284-287 | no triage turn starts while the last signal delivered is a cancel |
| `IssueGates.TriageWaitsForAnswer` | src/darkfactory/runtime/issue_workflow.py:378-425 | after a turn that found the issue not ready the next one starts only once a question was asked and then comments were taken in |
| `IssueGates.BlockedIff` | src/darkfactory/runtime/issue_workflow.py:663-817 | a trace is blocked iff it notes a blocking report: a build turn's tester finding or a fixer turn's blocking reconciliation finding |
| `IssueGates.NothingBlocksAPass` | src/darkfactory/runtime/issue_workflow.py:697-817 | no verify passes after such a report |
| `IssueGates.TalkMeans` | src/darkfactory/runtime/issue_workflow.py:294-300 | the comments taken in are those humans posted before the last drain, the queue holds those posted since |
| `IssueGates.StoredIff` | src/darkfactory/runtime/issue_workflow.py:294-300 | a comment that matches no other one is stored iff hydration found it or it was posted before the last drain |
| `IssueGates.AcceptedMeans` | src/darkfactory/runtime/issue_workflow.py:278-335 | once triage accepted the issue, taken in is exactly what was posted before its last turn started, and the rest stays queued |
| `IssueGates.AcceptedStoresIff` | src/darkfactory/runtime/issue_workflow.py:278-335 | so a comment that matches no other one is stored iff hydration found it or it was posted before that turn started |
| `IssueGates.CancelingIff` | src/darkfactory/runtime/issue_workflow.py:1060-1081 | a run has found a cancel iff some delivered cancel was still in the slot, untouched, at a cancel check or when a gate took its signal |
| `IssueGates.HeededCancelStops` | src/darkfactory/runtime/issue_workflow.py:1060-1075 | after such a cancel the run starts nothing but housekeeping and the teardown |
| `IssueGates.CancelIsLost` | src/darkfactory/runtime/issue_workflow.py:463-467 | a cancel delivered after triage while no gate is open, and not between the design's approval and the first build, is found by no check |
| `IssueGates.LastMeans` | src/darkfactory/runtime/issue_workflow.py:1060-1081 | the signal a run took last was delivered and untouched until the gate or the check that took it, and no gate took another one since |
| `IssueGates.WaitsForNothing` | src/darkfactory/runtime/issue_workflow.py:403-467 | the run waits only while every signal delivered was forgotten, or while no human said anything since comments were last taken in |
| `IssueGates.AwaitsCounted` | src/darkfactory/runtime/issue_workflow.py:147-276 | the gates count every activity and every wait of the trace |
| `IssueRun.IssueRun.Decide` | src/darkfactory/runtime/issue_workflow.py:1111-1178 | every decision update overwrites the one signal slot, and only it |
| `IssueRun.IssueRun.PostNewComments` | src/darkfactory/runtime/issue_workflow.py:1180-1184 | human comments are queued in order, markers are dropped, and the trace notes the post |
| `IssueRun.IssueRun.SwapLabel` | src/darkfactory/runtime/issue_workflow.py:1038-1058 | the label the run believes in changes only when the edit succeeded |
| `IssueRun.IssueRun.MoveLabel` | src/darkfactory/runtime/issue_workflow.py:1038-1058 | a swap that takes the shown label off leaves exactly the new one shown |
| `IssueRun.IssueRun.CancelRun` | src/darkfactory/runtime/issue_workflow.py:1060-1075 | a cancel that was found ends the run canceled with its reason, the label the quarantine leaves and, when the issue can be named, the marker posted; or the run failed or waits on the way |
| `IssueRun.IssueRun.CheckCancel` | src/darkfactory/runtime/issue_workflow.py:1060-1081 | a check finds a cancel iff the signal in the slot is one, and leaves the slot alone |
| `IssueRun.IssueRun.Absorb` | src/darkfactory/runtime/issue_workflow.py:294-300 | the queue is taken in and empty; the stored comments stay one batch dedup of everything found and taken in, and only grow |
| `IssueRun.IssueRun.TriageStage` | src/darkfactory/runtime/issue_workflow.py:302-335 | a triage turn starts on an empty queue and without a latched cancel; it accepts the issue iff it is ready, and counts as one more that was not otherwise |
| `IssueRun.IssueRun.Clarify` | src/darkfactory/runtime/issue_workflow.py:378-425 | a round is spent only when a question was asked and a comment was taken in after it; only a cancel, a failure or the end of the script keeps it from that |
| `IssueRun.IssueRun.TriageTurn` | src/darkfactory/runtime/issue_workflow.py:278-425 | it abandons the issue only in the round after the third; a turn that is not ready before that comes back for another one when its awaits end well, a human comments and nobody cancels |
| `IssueRun.IssueRun.RunTriage` | src/darkfactory/runtime/issue_workflow.py:278-425 | at most three clarification rounds and four triage turns, none on a latched cancel; it goes on only with an accepted issue, and abandons it only after four turns that found it not ready and three answered questions |
| `IssueRun.IssueRun.PlanningLoop` | src/darkfactory/runtime/issue_workflow.py:573-647 | at most five discoveries, none after a plan the critic lets through; the cap is reached iff five plans were refused, each by a decision that says false; an approved result is the plan in the state |
| `IssueRun.IssueRun.CapReached` | src/darkfactory/runtime/issue_workflow.py:434-452 | the cap leaves needs-human alone on the issue iff no stray fix or rebuild signal came last at the design gate, else two labels; it is reached iff the report and the label edit succeed |
| `IssueRun.IssueRun.AwaitSignal` | src/darkfactory/runtime/issue_workflow.py:465-467 | a gate forgets every earlier signal when it opens, and takes the first one after |
| `IssueRun.IssueRun.ApproveSpec` | src/darkfactory/runtime/issue_workflow.py:539-571 | the approved revision is 1 + revises and the approved text renders the plan in the state |
| `IssueRun.IssueRun.DecideDesign` | src/darkfactory/runtime/issue_workflow.py:472-571 | each kind's outcome; a fix or rebuild signal only plans again under the gate's label |
| `IssueRun.IssueRun.DesignGate` | src/darkfactory/runtime/issue_workflow.py:427-571 | goes on only with an approved, settled design |
| `IssueRun.IssueRun.BuildStage` | src/darkfactory/runtime/issue_workflow.py:663-676 | every build gets the very spec whose rendering was approved; the first never starts on a latched cancel |
| `IssueRun.IssueRun.VerifyStage` | src/darkfactory/runtime/issue_workflow.py:697-743 | the state becomes one fresh cycle of itself, which passes iff its evidence is clean and nothing reported so far blocks |
| `IssueRun.IssueRun.Repair` | src/darkfactory/runtime/issue_workflow.py:697-817 | goes on only with a passing verdict, no tester finding and no blocking reconciliation finding, and at once when nothing blocks and the evidence is clean; a run in which one was ever reported stops here, for the reason that holds of the state |
| `IssueRun.IssueRun.BuildVerify` | src/darkfactory/runtime/issue_workflow.py:649-817 | from a settled design to passing code, or an orderly end |
| `IssueRun.IssueRun.DecideMerge` | src/darkfactory/runtime/issue_workflow.py:872-985 | each kind's outcome; a fix or rebuild comes back verified, an ignored kind just comes back |
| `IssueRun.IssueRun.ReviewAndMergeGate` | src/darkfactory/runtime/issue_workflow.py:819-985 | a merge is approved only on reviewed code, and on passing code when no human action intervened |
| `IssueRun.IssueRun.Conclude` | src/darkfactory/runtime/issue_workflow.py:232-269 | the merge happens once and the issue ends done, and nothing but a failure or the end of the script keeps it from that |
| `IssueRun.IssueRun.Run` | src/darkfactory/runtime/issue_workflow.py:147-276 | for every script: safe trace, gates in order, budgets, verifies and fixer calls bounded, blocked exactly when the trace is, stored and queued comments exactly as the trace says, ended by a cancel iff one was found, one state label between edits and the right one at the end, a marker on canceled and rejected runs, teardown iff set up, one merge iff merged and then of code reviewed with the state's verdict. Every await is an activity or a wait for what is not there. A run fails only if an await raised, and finishes only if none did; rejected and canceled only by the signal it took last and for its reason; abandoned only after four turns that found the issue not ready and three answered questions; given to a human only after five refused plans, or before any human action by a verdict or a fixer that says so. When all goes well and the decisions that matter approve it merges |
| `IssueWitness.LeavesTwoLabels` | src/darkfactory/runtime/issue_workflow.py:427-647 | a script on which a planning cap after a fix signal leaves the gate's label beside needs-human |
| `IssueWitness.LosesComment` | src/darkfactory/runtime/issue_workflow.py:294-335 | a script on which a human comment posted while triage accepts the issue stays in the queue and is not stored |
| `IssueWitness.LosesCancel` | src/darkfactory/runtime/issue_workflow.py:463-467 | a script on which a cancel that came in during planning is forgotten and the run goes on to the first build |
| `IssueWitness.FailsOnGoodEvidence` | src/darkfactory/runtime/issue_workflow.py:697-743 | a script on which the first build reports a finding and the verify after it fails on clean evidence |
| `IssueWitness.GoodRunMerges` | src/darkfactory/runtime/issue_workflow.py:147-276 | a script on which all goes well, and a whole run of it that merges |
| `DispatchProtocol.RunIdRoundTrip` | src/darkfactory/runtime/activities.py:685-711 | every run id is read back as the number it was made from |
| `DispatchProtocol.PrefixesSharedIff` | src/darkfactory/runtime/activities.py:677-682 | two issues share run ids iff number and owner-name spelling coincide |
| `DispatchProtocol.SlugsCollide` | src/darkfactory/runtime/activities.py:670-682 | two different repositories can have the same spelling: a dash can move between owner and name |
| `DispatchProtocol.ResolveLatestRun` | src/darkfactory/runtime/activities.py:727-761 | the scan returns the first execution of highest number among the first 50000 parsable ones, skipping malformed ids |
| `DispatchProtocol.BestIsHighest` | src/darkfactory/runtime/activities.py:744-761 | what it returns was listed and nothing read has a higher number |
| `DispatchProtocol.LatestExact` | src/darkfactory/runtime/activities.py:727-761 | of a listing of at most 50000 it is the first one of the highest number any listed id has, and none iff no id has one |
| `DispatchProtocol.LatestOfLong` | src/darkfactory/runtime/activities.py:727-761 | of a listing with more parsable ids it is that of the part that holds the first 50000 of them |
| `DispatchProtocol.StartOrUpdate` | src/darkfactory/runtime/activities.py:1242-1311 | the branches compute the decision that `DecideExact` spells out |
| `DispatchProtocol.DecideExact` | src/darkfactory/runtime/activities.py:1242-1311 | in terms of what is listed and written: the highest run running is synced; closed and named by no marker it is ignored; closed and named, the next number is started, or throttled when starts are not allowed; without any run the legacy one is synced if it runs, else the first is started or throttled |
| `DispatchProtocol.MarkerMeans` | src/darkfactory/runtime/activities.py:718-724 | a comment list marks a run iff one of its bodies contains the marker text with that run's id |
| `DispatchProtocol.MarkerNamesOneRun` | src/darkfactory/runtime/activities.py:666-724 | the marker comment of run m marks run n of the same issue iff m is n |
| `DispatchProtocol.MarkerNeedsId` | src/darkfactory/runtime/activities.py:666-724 | comments none of whose bodies contains the run's id do not mark it |
| `DispatchProtocol.StartIsNext` | src/darkfactory/runtime/activities.py:1271-1311 | on any legal, possibly stale view a start is a duplicate that is rejected, or the next number with the previous run closed and marked |
| `DispatchProtocol.IgnoredRunIsClosed` | src/darkfactory/runtime/activities.py:1279-1285 | a run handed back for quarantine is closed |
| `DispatchProtocol.LegalStays` | src/darkfactory/runtime/activities.py:727-761 | what a call has read stays legal whatever other pollers, runs and commenters do before it acts |
| `DispatchProtocol.StepKeepsInv` | src/darkfactory/runtime/activities.py:1199-1322 | every step of every participant keeps the protocol's invariant |
| `DispatchProtocol.DispatchIsSafe` | src/darkfactory/runtime/activities.py:1199-1322 | for any interleaving: runs created are exactly 1 to n in order, and at most one run is running, the legacy run included |
| `DispatchProtocol.NextRunWaits` | src/darkfactory/runtime/activities.py:1275-1286 | run k + 1 is created only after run k closed and a comment with the marker that names run k was there |
| `PollTick.Tick` | src/darkfactory/runtime/issue_poll_workflow.py:89-162 | the loop's counters are the counts of the answers that the dispatch decision gives, with starts allowed while budget is left |
| `PollTick.StartsWithinBudget` | src/darkfactory/runtime/issue_poll_workflow.py:102-114 | a tick starts at most as many runs as the capacity it read, because a call without budget starts none |
| `PollTick.NoBudgetNoStart` | src/darkfactory/runtime/activities.py:1242-1311 | whatever the dispatcher sees, a call that may not start is never answered with a start |
| `PollTick.TickAccounts` | src/darkfactory/runtime/issue_poll_workflow.py:89-120 | started, updated, ignored and throttled add up to the issues seen |
| `PollTick.CountsAddUp` | src/darkfactory/runtime/issue_poll_workflow.py:122-162 | no issue is both quarantined and followed up for a decision |
| `PollTick.NeverOverLimit` | src/darkfactory/runtime/activities.py:1113-1134 | with one poller and an accurate count, the running issue runs never exceed the limit over any number of ticks and closings |
| `PollTick.PollersNeverOver` | src/darkfactory/runtime/activities.py:1113-1134 | for any interleaving of k pollers and ending runs: what runs and what may still be started never exceeds k times the limit |
| `PollTick.TwoPollersOverLimit` | src/darkfactory/runtime/issue_poll_workflow.py:89-114 | two pollers with a limit of one can have two runs running |
| `PollTick.QuarantineClosedIssue` | src/darkfactory/runtime/activities.py:1398-1439 | a full quarantine edits the labels and posts the marker iff it is missing |
| `PollTick.MarkerIsBookkeeping` | src/darkfactory/runtime/issue_comments.py:10-36 | the quarantine marker of an id without `>` is a marker to the comment filter, so it never counts as a human comment |
| `PollTick.RetriesConverge` | src/darkfactory/runtime/activities.py:1363-1439 | any partial attempts followed by a full one leave what one full attempt leaves |
| `PollTick.QuarantineIsIdempotent` | src/darkfactory/runtime/activities.py:1398-1439 | such attempts leave the closing label and exactly one marker comment |

## Left out

- Prompts, templates, phase comment texts, feedback wording, and the channels that only carry text to agents (feedback lists, attempt logs, human focus): formatting and plumbing.
- Retries, timeouts, heartbeats and the agents' own turns: an activity here is one event that succeeded or raised.
- `last_seen_comment_id` and the cursor it gives the poller: only the comments forwarded, not which ones a poller picks.
- The fenced branch of the JSON extraction: its pattern is not modelled, its capture is a parameter.
- Schema validation of agent output and of state records: replies are already typed values.
- Python's `int` on digits outside ASCII, when a run suffix is read.
- Two quarantines of one run at the same time: each could miss the other's marker and both post it.
- Label edits by anyone else while a run lasts, and issue runs started on an issue that does not show exactly the ready label: the label statements are made for issues that start with it.
- Workflow cancellation is an await that raises; continuing after it is not modelled.
- Report parsing, the hydrator's budgets, guards and permission hooks: policy lookups and easier code.
- BuildDispatch.BuildGraph.Run: assumes, like `SuperviseInOrder` and `WorkInOrder`, distinct, non-empty slice ids and an order over the spec, because a repeated or empty id makes the supervisor's record ambiguous; `BuildDispatch.BuilderPinnedIff` and the lookup error of `Supervise` cover those inputs.
- PollTick.NeverOverLimit: assumes one poller, an exact running count and no start repeated after success; `PollTick.PollersNeverOver` covers several pollers, with an exact count at each read.
- DispatchProtocol.DispatchIsSafe: assumes that every listed id in the issue's namespace was made by the dispatcher, that closed runs stay closed, and that comments are not deleted.
