# Scrum-team workflow: a Dafny model

This project models the workflow layer of a prototype "scrum team" system
and the bookkeeping around it. The system moves a shared project record
through a fixed graph of stages: product owner, architect, user approval,
dispatch, one `agent_work` per draft ticket, git merge, tester, reviewer,
sprint review and an unreachable release stage. Each stage returns a partial
update (a delta), and the delta is merged into the record.

The model covers:

- `State`: the project record, its tickets and enumerations, and the merge
  rule. `tickets` and `completed_tickets` are appended to by the
  `add_tickets` reducer; every other key is replaced.
- `Planning`, `Development`, `Review`: the stage functions. The language
  model, uuid values and clock readings are inputs. `dispatch_agents` is a
  method with its loop, proved equal to a filter-and-map specification. The
  join merges the `agent_work` deltas in a completion order given as input,
  and every such order is proved to be a permutation.
- `Graph`: the edge table of `create_workflow` as a successor function, and a
  sequential run loop of this model's own. It proves that a run from the
  entry point visits each stage once and ends right after `sprint_review`,
  never reaching `release`, and it gives the final state.
- `Git`: the git tools as a class over an abstract repository (heads,
  checked-out branch, linked worktrees, `.gitignore` text). Each method is
  proved equal to a step function on repository values, and the
  idempotence, validity and merge properties are proved about those.
- `GitAgent`: the git agent stage, a loop over the in-progress tickets that
  creates branches and worktrees on the shared tools object.
- `Config`: the configuration store as a class over a map.
- `TeamConfig`: the data operations of the dashboard's team composition
  panel, as a class whose invariant keeps required agents enabled.

The model follows the code as written:

- The code's `merge_branch` returns a bool, not a result with conflicting
  files.
- Its abort can raise (see Findings).
- `agent_work` sets status "review" whatever the prior status; it does not
  advance the status one step.
- `agent_work` creates no branch or worktree, and the git agent stage is
  not wired into the graph.
- No per-branch lock exists.
- The order in which parallel `agent_work` deltas are merged is not fixed by
  visible code. It is an input here, and with no choices it is the
  invocation order.

## Model

| member | source | states |
|---|---|---|
| State.ParseType | langgraph_scrum/state.py:13 | exactly the three type literals are accepted, and each reads back to the literal it came from |
| State.ParseStatus | langgraph_scrum/state.py:14 | exactly the seven status literals are accepted, each reading back to its literal |
| State.ParseAgentState | langgraph_scrum/state.py:25 | exactly the four agent-state literals are accepted |
| State.ParsePhase | langgraph_scrum/state.py:38 | exactly the five phase literals are accepted |
| State.LiteralsRoundTrip | langgraph_scrum/state.py:13-38 | every enumeration value prints as a declared literal and parses back to itself; the literal sets have 3, 7, 5 and 4 members |
| State.AddTickets | langgraph_scrum/state.py:6-7 | the result has length `|old| + |new|`; `old` is its prefix and `new` its suffix, so nothing is deduplicated or reordered |
| State.AddTicketsMonoid | langgraph_scrum/state.py:6-7 | `[]` is an identity on both sides and the reducer is associative |
| State.MergeNoChange | langgraph_scrum/state.py:35-63 | merging the empty delta `{}` leaves every state unchanged |
| State.OnlyTicketListsAccumulate | langgraph_scrum/state.py:36-63 | merging a delta twice grows only `tickets` and `completed_tickets` again; every other key, `active_tickets`, `agents` and `messages` included, ends as after one merge |
| State.Merge | langgraph_scrum/state.py:35-63 | how a stage's delta enters the record: `add_tickets` on `tickets` and `completed_tickets`, replacement on every other key; see MergeNoChange, OnlyTicketListsAccumulate and MergeCompose |
| State.MergeCompose | langgraph_scrum/state.py:47-49 | merging two deltas in turn equals merging their combination: last writer wins on plain keys, concatenation on the two reducer lists |
| State.CombineMonoid | langgraph_scrum/state.py:47-49 | combining deltas is associative with `{}` as identity |
| Planning.ProductOwnerConfig | langgraph_scrum/nodes/planning.py:12-13 | a missing `agents` or `product_owner` entry yields the empty configuration; otherwise the product owner's `config`, or the empty configuration when it has none |
| Planning.SystemPrompt | langgraph_scrum/nodes/planning.py:19 | a configured `role_description` is the prompt; without one the default product-owner prompt is used |
| Planning.ProductOwnerNode | langgraph_scrum/nodes/planning.py:7-32 | the delta has only `messages`, with exactly one entry of role "product_owner" whose content is the model's reply, or the fallback text when the call raised |
| Planning.ProductOwnerReplacesLog | langgraph_scrum/nodes/planning.py:32 | merged, that entry replaces the whole message log (no reducer) and nothing else changes |
| Planning.ShortId | langgraph_scrum/nodes/planning.py:41 | the id is the uuid text's prefix of length `min(8, |uuid|)` |
| Planning.ArchitectNode | langgraph_scrum/nodes/planning.py:34-72 | exactly two tickets, a chore then a feature with the fixed titles, all draft, unassigned, without branch, dependencies or changed files; `plan_approved` false and the fixed technical spec; nothing else |
| Planning.ArchitectGrowsTickets | langgraph_scrum/nodes/planning.py:68-72 | each merge of the architect's delta grows `tickets` by exactly two and keeps the earlier tickets as prefix |
| Planning.UserApprovalNode | langgraph_scrum/nodes/planning.py:74-84 | merged into any state, it sets only `plan_approved` to true |
| Development.DraftTickets | langgraph_scrum/nodes/development.py:8-9 | only draft tickets of the list are kept |
| Development.DispatchAgents | langgraph_scrum/nodes/development.py:4-17 | the loop's result is the dispatch specification of the state's tickets (so two calls on one state agree) |
| Development.DispatchTargets | langgraph_scrum/nodes/development.py:15 | the i-th Send targets "agent_work" and carries the i-th draft ticket unchanged; there is one Send per draft |
| Development.SendsForAt | langgraph_scrum/nodes/development.py:12-15 | one Send per pending ticket, at the same position |
| Development.DispatchOrder | langgraph_scrum/nodes/development.py:8-15 | dispatching a concatenation is the concatenation of the dispatches, so Sends follow ticket order |
| Development.DraftTicketsConcat | langgraph_scrum/nodes/development.py:9 | the draft filter distributes over concatenation |
| Development.DispatchCount | langgraph_scrum/nodes/development.py:9-15 | a ticket gets as many Sends as it has copies if it is a draft, and none otherwise |
| Development.DispatchEmpty | langgraph_scrum/nodes/development.py:8-17 | the result is empty exactly when no ticket is a draft, the empty list included |
| Development.AgentWorkNode | langgraph_scrum/nodes/development.py:19-27 | the delta's only key is `completed_tickets`, holding one ticket: the payload with status "review" and every other field unchanged; merged, it appends that ticket |
| Development.CompletionOrder | build/lib/langgraph_scrum/graph.py:44 | every completion order of a fan-out is a permutation (same multiset) of its Sends |
| Development.CompletionOrderDefault | build/lib/langgraph_scrum/graph.py:44 | with no choices the invocations finish in the order they were sent |
| Development.Join | langgraph_scrum/state.py:49 | the joined state differs from the base only in `completed_tickets`, which grows by the reviewed payloads in completion order |
| Development.ReviewedAllPermutation | langgraph_scrum/state.py:49 | arrangements of the same Sends yield the same multiset of completed tickets |
| Development.JoinOrderIrrelevant | langgraph_scrum/state.py:49 | whatever the completion order, the join differs from the invocation-order join only in the order of `completed_tickets` |
| Development.JoinCompletesDrafts | langgraph_scrum/nodes/development.py:9-27 | after a join each draft appears in `completed_tickets`, with status "review", once more per copy in the ticket list |
| Development.AllDraftsKept | langgraph_scrum/nodes/development.py:9 | a list of drafts passes the filter whole |
| Development.ReviewedSendsFor | langgraph_scrum/nodes/development.py:12-27 | in invocation order, the i-th completed ticket is the i-th pending ticket, reviewed |
| Development.ReviewedAllSends | langgraph_scrum/nodes/development.py:12-27 | for a list of drafts, each draft is completed exactly as many times as it occurs in the list |
| Development.GitMergeNode | langgraph_scrum/nodes/development.py:30-36 | merged into any state, it sets only `pending_merges` to the empty list |
| Review.TesterNode | langgraph_scrum/nodes/review.py:4-7 | merging it leaves every state unchanged |
| Review.ReviewerNode | langgraph_scrum/nodes/review.py:9-12 | merging it leaves every state unchanged |
| Review.SprintReviewNode | langgraph_scrum/nodes/review.py:14-17 | merged into any state, it sets only the phase, to "review" |
| Review.ReleaseNode | langgraph_scrum/nodes/review.py:19-22 | merged into any state, it sets only the phase, to "complete" |
| Review.Router | langgraph_scrum/nodes/review.py:24-32 | "release" iff the phase is "release", "planning" iff it is "planning", END iff the phase is missing or any other value |
| Review.RouterAfterReview | langgraph_scrum/nodes/review.py:14-32 | after the sprint review (and after the release) the router always says END |
| Graph.Successors | build/lib/langgraph_scrum/graph.py:39-63 | the edge table, fixed and conditional edges; see FixedChain, SingleSuccessor, DispatchSuccessors and OnlyBackEdge |
| Graph.FixedChain | build/lib/langgraph_scrum/graph.py:38-63 | the entry is `product_owner`; the fixed edges are product_owner→architect→user_approval→dispatch, agent_work→git_merge→tester→reviewer→sprint_review, and release→END |
| Graph.SingleSuccessor | build/lib/langgraph_scrum/graph.py:39-63 | every node but `dispatch` and `sprint_review` has exactly one successor, whatever the state |
| Graph.DispatchSuccessors | build/lib/langgraph_scrum/graph.py:44 | the successors of `dispatch` are one `agent_work` per Send of `dispatch_agents` |
| Graph.OnlyBackEdge | build/lib/langgraph_scrum/graph.py:53-63 | every edge leads strictly closer to END except sprint_review→product_owner; `release` leads only to END |
| Graph.Next | build/lib/langgraph_scrum/graph.py:39-63 | the next stage of a stage without fan-out is never `agent_work` |
| Graph.NextIsSuccessor | build/lib/langgraph_scrum/graph.py:39-63 | the run loop's next stage is that stage's one successor in the edge table |
| Graph.StageStep | build/lib/langgraph_scrum/graph.py:39-50 | a stage without fan-out merges its delta and the run continues at its successor |
| Graph.StageEnd | build/lib/langgraph_scrum/graph.py:53-61 | a stage whose edge leads to END ends the run with its delta merged |
| Graph.PlanningStates | build/lib/langgraph_scrum/graph.py:38-41 | the three planning stages lead to `dispatch` with the planned state (spec, approval, the two new tickets, the product owner's log) |
| Graph.PlanningStretch | build/lib/langgraph_scrum/graph.py:38-41 | a run from `product_owner` visits the three planning stages, then continues at `dispatch` from the planned state |
| Graph.DispatchStretch | build/lib/langgraph_scrum/graph.py:44-45 | a dispatch with Sends visits `agent_work` once per Send, joins, and continues at `git_merge` |
| Graph.ReviewStates | build/lib/langgraph_scrum/graph.py:45-61 | git merge clears pending merges, tester and reviewer change nothing, sprint review sets phase "review", after which the route is END |
| Graph.ReviewStretch | build/lib/langgraph_scrum/graph.py:45-61 | from `git_merge` the run visits the four review-phase stages and finishes |
| Graph.DevelopmentStretch | build/lib/langgraph_scrum/graph.py:44-61 | from a dispatch with Sends the run fans out, joins and finishes after `sprint_review` |
| Graph.PlannedDevelopment | build/lib/langgraph_scrum/graph.py:41-61 | from the planned state the fan-out has two more Sends than the initial drafts and the run ends in the final state |
| Graph.RunFrom | build/lib/langgraph_scrum/graph.py:38-63 | a sequential run along the edges, merging each delta before choosing the next edge; see StageStep, StageEnd, RunOutcome and RunAsWritten |
| Graph.RunOutcome | build/lib/langgraph_scrum/graph.py:38-63 | a run from the entry point with enough fuel ends in the final state with the sprint trace |
| Graph.RunAsWritten | build/lib/langgraph_scrum/graph.py:38-63 | a run from the entry point finishes, visits each stage once (`agent_work` once per draft), never reaches `release`, and ends with phase "review", the new tickets appended and every draft completed with status "review" |
| Graph.SprintTraceShape | build/lib/langgraph_scrum/graph.py:38-61 | the sprint trace is the planning stages, dispatch, `agent_work` once per Send, then the four review-phase stages: `k + 8` stages, never `release` |
| Graph.NewTicketsDispatched | langgraph_scrum/nodes/planning.py:39-66 | the architect's two tickets are drafts, so the fan-out gets two more Sends than the initial drafts |
| Graph.RunStartsWithPlanning | build/lib/langgraph_scrum/graph.py:38-41 | every run begins with product_owner, architect, user_approval, dispatch |
| Graph.FreshProjectCompletesInOrder | build/lib/langgraph_scrum/graph.py:38-63 | on a fresh project, finishing in invocation order, `completed_tickets` ends as the two new tickets in order, both "review" |
| Graph.FreshFinalState | build/lib/langgraph_scrum/graph.py:38-63 | on a fresh project finishing in invocation order, the final `completed_tickets` is the architect's two tickets, reviewed, in order |
| Graph.TwoDraftsReviewed | langgraph_scrum/nodes/development.py:12-27 | two drafts dispatched and finished in invocation order complete as those two tickets, reviewed, in order |
| Git.CommitOf | langgraph_scrum/tools/git.py:30 | a commit is found exactly when the name is among the heads, and it is that head's commit |
| Git.JoinPathInjective | langgraph_scrum/tools/git.py:43 | under one directory, distinct relative branch names have distinct worktree paths |
| Git.IgnoreWorktrees | langgraph_scrum/tools/git.py:13-22 | afterwards the text contains ".worktrees/", extends the old text, and is unchanged when it already contained the entry |
| Git.IgnoreWorktreesIdempotent | langgraph_scrum/tools/git.py:20-22 | the entry is never added twice |
| Git.BranchStep | langgraph_scrum/tools/git.py:24-39 | `create_branch` on repository values; see BranchDetached, BranchExisting, BranchNew, BranchIdempotent and BranchKeepsValid |
| Git.BranchDetached | langgraph_scrum/tools/git.py:26-27 | with HEAD detached, `create_branch` raises and changes nothing, even for an existing name |
| Git.BranchExisting | langgraph_scrum/tools/git.py:30-32 | an existing head: the name is returned and nothing changes |
| Git.BranchNew | langgraph_scrum/tools/git.py:34-36 | a new name: exactly one head at the base's commit is appended and the names grow by that name; an unknown base raises with no change |
| Git.BranchIdempotent | langgraph_scrum/tools/git.py:24-36 | a second `create_branch` after a successful one returns the name and changes nothing |
| Git.BranchKeepsValid | langgraph_scrum/tools/git.py:24-39 | `create_branch` keeps the repository well formed, keeps the old heads as prefix and touches no worktree |
| Git.WorktreeStep | langgraph_scrum/tools/git.py:41-59 | `create_worktree` on repository values; see WorktreeEstablishes, WorktreeIdempotent and WorktreeKeepsValid |
| Git.EnsureBranch | langgraph_scrum/tools/git.py:51-52 | the branch step inside `create_worktree`; see EnsureBranchKeepsValid |
| Git.WorktreeEstablishes | langgraph_scrum/tools/git.py:41-56 | after a successful `create_worktree`, the result is the path under the worktrees directory, a worktree for the branch is there, and the branch is a head |
| Git.WorktreeIdempotent | langgraph_scrum/tools/git.py:43-47 | a second `create_worktree` returns the same path and changes nothing |
| Git.EnsureBranchKeepsValid | langgraph_scrum/tools/git.py:51-52 | the branch step of `create_worktree` keeps the repository well formed and, on success, the branch is a head |
| Git.AddWorktreeKeepsValid | langgraph_scrum/tools/git.py:54 | adding a worktree for a head at its derived path keeps the repository well formed |
| Git.WorktreeKeepsValid | langgraph_scrum/tools/git.py:41-59 | `create_worktree` keeps the repository well formed; heads and worktrees are only added |
| Git.RemoveStep | langgraph_scrum/tools/git.py:61-70 | `remove_worktree` on repository values, with the refusal swallowed; see RemoveAbsent and RemoveUndoesCreate |
| Git.RemoveAbsent | langgraph_scrum/tools/git.py:61-63 | removing an absent worktree changes nothing |
| Git.RemoveUndoesCreate | langgraph_scrum/tools/git.py:61-70 | removing a just-created worktree restores the worktrees; the branch stays |
| Git.MergeStepAsWritten | langgraph_scrum/tools/git.py:75-85 | `merge_branch` as written; see MergeAsWrittenRaises and MergeIntoMissingTarget |
| Git.MergeStep | langgraph_scrum/tools/git.py:75-85 | `merge_branch` as its `return False` intends, never raising; see MergeNeverRaises |
| Git.MergeAsWrittenRaises | langgraph_scrum/tools/git.py:75-85 | as written, `merge_branch` raises exactly when the checkout failed or the merge refused to start, and returns True exactly when the merge went through |
| Git.MergeIntoMissingTarget | langgraph_scrum/tools/git.py:77-84 | as written, merging into a missing "main" raises instead of returning False |
| Git.MergeNeverRaises | langgraph_scrum/tools/git.py:75-85 | the intended merge never raises, returns True exactly when the merge went through, keeps the heads otherwise, and agrees with the code wherever the code returns |
| Git.GitTools.constructor | langgraph_scrum/tools/git.py:8-22 | the worktrees directory is `repo/.worktrees` and exists afterwards; `.gitignore` gets the entry only when the directory was missing and the file exists |
| Git.GitTools.ListBranches | langgraph_scrum/tools/git.py:72-73 | one name per head, in the model's head order (creation order), and a name is listed exactly when it is a head |
| Git.GitTools.CreateBranch | langgraph_scrum/tools/git.py:24-39 | the result and new repository are those of the `create_branch` step; nothing else changes |
| Git.GitTools.CreateWorktree | langgraph_scrum/tools/git.py:41-59 | the result and new repository are those of the `create_worktree` step; nothing else changes |
| Git.GitTools.RemoveWorktree | langgraph_scrum/tools/git.py:61-70 | the new repository is that of the `remove_worktree` step, a refusal swallowed; nothing else changes |
| Git.GitTools.MergeBranch | langgraph_scrum/tools/git.py:75-85 | the result and new repository are those of `merge_branch` as written: True after a merge, False after a conflict, an exception when the checkout failed or the merge refused to start |
| GitAgent.InProgressTickets | langgraph_scrum/nodes/git_agent.py:17-18 | exactly the tickets with status "in_progress" are considered |
| GitAgent.FeatureBranch | langgraph_scrum/nodes/git_agent.py:23 | the branch is "feature/" followed by the ticket id, a relative name |
| GitAgent.FeatureBranchInjective | langgraph_scrum/nodes/git_agent.py:23 | distinct ticket ids give distinct branches |
| GitAgent.GitAgentNode | langgraph_scrum/nodes/git_agent.py:7-30 | the repository ends as the provisioning loop leaves it; on success the delta holds only `branches`, the head list read before any creation; a tools exception escapes the stage |
| GitAgent.StepsExtend | langgraph_scrum/nodes/git_agent.py:24-25 | `create_branch` and `create_worktree` only ever add heads and worktrees and keep the checked-out branch |
| GitAgent.Provision | langgraph_scrum/nodes/git_agent.py:20-25 | the loop over the selected tickets, stopping at the first exception; see ProvisionExtends, ProvisionEstablishes, ProvisionFixed and ProvisionIdempotent |
| GitAgent.ProvisionExtends | langgraph_scrum/nodes/git_agent.py:20-25 | the loop only ever adds, whether or not it fails |
| GitAgent.StepsEstablish | langgraph_scrum/nodes/git_agent.py:24-25 | both calls succeeding leave the branch a head with its worktree, and the repository well formed |
| GitAgent.StepsProvision | langgraph_scrum/nodes/git_agent.py:21-25 | both calls succeeding for a ticket provision that ticket |
| GitAgent.ProvisionEstablishes | langgraph_scrum/nodes/git_agent.py:20-25 | after a successful stage every in-progress ticket without a branch has its feature branch and worktree |
| GitAgent.ProvisionedKept | langgraph_scrum/nodes/git_agent.py:20-25 | a ticket once provisioned stays provisioned while later calls only add heads and worktrees |
| GitAgent.ProvisionFixed | langgraph_scrum/nodes/git_agent.py:20-25 | when every such ticket is already provisioned the loop succeeds and changes nothing |
| GitAgent.ProvisionIdempotent | langgraph_scrum/nodes/git_agent.py:20-25 | running the stage again after a success changes nothing |
| GitAgent.ProvisionSkipsBranched | langgraph_scrum/nodes/git_agent.py:21 | tickets that already carry a branch play no part |
| GitAgent.NothingToProvision | langgraph_scrum/nodes/git_agent.py:17-25 | with no in-progress ticket lacking a branch, the repository is unchanged |
| GitAgent.TicketsNotUpdated | langgraph_scrum/nodes/git_agent.py:26-30 | merging the stage's delta replaces only `branches`; ticket records, their `branch` field included, stay as they were |
| Config.GetEnv | langgraph_scrum/config.py:13-15 | the value is present exactly when the variable is set, and then it is the variable's value |
| Config.GetEnvOr | langgraph_scrum/config.py:16-17 | the variable's value when set, the default otherwise |
| Config.InitialKeys | langgraph_scrum/config.py:11-18 | a fresh store holds exactly the five keys; provider and model are always set, defaulting to "anthropic" and the Claude model; `GOOGLE_API_KEY` is absent so reading it gives the default |
| Config.EmptyEnvironmentDefaults | langgraph_scrum/config.py:12-18 | with an empty environment provider and model read as the defaults and the token as None |
| Config.LookupAfterSet | langgraph_scrum/config.py:20-24 | after `set(k, v)`, `get(k)` is `v`, even when `v` is None, and other keys read as before |
| Config.LookupAfterUpdate | langgraph_scrum/config.py:35-37 | after `update(u)`, keys of `u` read as `u` gives them and other keys as before; an empty update changes nothing |
| Config.Config.constructor | langgraph_scrum/config.py:11-18 | the store starts as the initial entries of the environment |
| Config.Config.Get | langgraph_scrum/config.py:20-21 | the stored value whenever the key is present, even a stored None; the default only for an absent key |
| Config.Config.Set | langgraph_scrum/config.py:23-24 | only the key changes, to the value |
| Config.Config.Update | langgraph_scrum/config.py:35-37 | the store becomes the old one overridden by every pair of the update |
| TeamConfig.InitialValid | dashboard/src/components/team-config.ts:7-78 | the initial cards keep required agents enabled, and product owner, architect and git manager are required |
| TeamConfig.Toggled | dashboard/src/components/team-config.ts:225-232 | the list keeps its length and order, each card toggled on its own |
| TeamConfig.ToggleEffect | dashboard/src/components/team-config.ts:226-231 | only `enabled` can change, and it flips exactly on cards with that id that are not required |
| TeamConfig.ToggleUnknown | dashboard/src/components/team-config.ts:226-231 | an unknown id leaves the list unchanged |
| TeamConfig.ToggleTwice | dashboard/src/components/team-config.ts:228 | toggling the same id twice restores the list |
| TeamConfig.ToggleKeepsValid | dashboard/src/components/team-config.ts:225-231 | toggling keeps required agents enabled and present |
| TeamConfig.DecimalInjective | dashboard/src/components/team-config.ts:248 | different clock readings print differently |
| TeamConfig.CustomId | dashboard/src/components/team-config.ts:248 | the new id is "custom_agent_" followed by at least one decimal digit and nothing else |
| TeamConfig.CustomIdInjective | dashboard/src/components/team-config.ts:248 | agents added at different instants get different ids |
| TeamConfig.EditCard | dashboard/src/components/team-config.ts:345-370 | an edit never changes a card's id, `enabled` or `required` |
| TeamConfig.FindIndex | dashboard/src/components/team-config.ts:335 | the index of the first card with that id, or none when no card has it |
| TeamConfig.EditKeepsFlags | dashboard/src/components/team-config.ts:333-370 | an edit keeps the list's length, ids and flags |
| TeamConfig.EditKeepsValid | dashboard/src/components/team-config.ts:333-370 | an edit keeps the panel well formed |
| TeamConfig.Launched | dashboard/src/components/team-config.ts:263-273 | an entry is launched exactly when it is the entry of an enabled card |
| TeamConfig.LaunchedConcat | dashboard/src/components/team-config.ts:263 | the launch list follows card order |
| TeamConfig.RequiredLaunched | dashboard/src/components/team-config.ts:263-273 | a required card of a well-formed panel is always launched |
| TeamConfig.CoreLaunched | dashboard/src/components/team-config.ts:262-273 | product owner, architect and git manager are launched from every well-formed panel |
| TeamConfig.AddedAgentLaunched | dashboard/src/components/team-config.ts:247-259 | a custom agent adds exactly its entry at the end of the launch list |
| TeamConfig.AllEnabledLaunched | dashboard/src/components/team-config.ts:263-273 | with every card enabled, every card is launched in order |
| TeamConfig.InitialLaunch | dashboard/src/components/team-config.ts:7-78 | a fresh panel launches all seven agents in order |
| TeamConfig.TeamConfig.constructor | dashboard/src/components/team-config.ts:6-81 | empty concept, the seven initial cards, no dialog open; well formed and not yet launchable |
| TeamConfig.TeamConfig.SetConcept | dashboard/src/components/team-config.ts:283-285 | after entering a concept the panel can launch exactly when it is longer than five characters |
| TeamConfig.TeamConfig.AvailableToLaunch | dashboard/src/components/team-config.ts:283-285 | the concept is longer than five characters; see the constructor and SetConcept |
| TeamConfig.TeamConfig.ToggleAgent | dashboard/src/components/team-config.ts:225-232 | the list becomes the toggled list and required agents stay enabled |
| TeamConfig.TeamConfig.EditAgent | dashboard/src/components/team-config.ts:234-237 | the dialog opens on that id; the list is unchanged |
| TeamConfig.TeamConfig.SaveAgent | dashboard/src/components/team-config.ts:239-245 | the dialog closes; the list is unchanged |
| TeamConfig.TeamConfig.ApplyEdit | dashboard/src/components/team-config.ts:333-370 | the edit applies to the first card with the edited id, and the panel stays well formed |
| TeamConfig.TeamConfig.AddNewAgent | dashboard/src/components/team-config.ts:247-260 | exactly one enabled, not required card is appended, the dialog opens on its id, and the panel stays well formed |
| TeamConfig.TeamConfig.StartEvent | dashboard/src/components/team-config.ts:262-281 | the event carries the concept and exactly the entries of the enabled cards, in card order; on a well-formed panel these include product owner, architect and git manager |

## Left out

- The LangGraph executor (`StateGraph`, `Send`, `compile`, streaming) is not part of this model. `Graph.RunFrom` is this model's own sequential run loop with a fuel bound. A run that runs out of fuel reports itself unfinished. `Graph.RunAsWritten` needs at least eight steps.
- Parallel execution of `agent_work` is not modelled. The order in which their deltas are merged is an input, so no particular order is claimed.
- A dispatch with no Send is taken to end the run. The executor's behaviour there is not visible.
- `dispatch_agents` is also registered as a node, and as a node it returns a list of Sends rather than a dictionary. `Graph.RunFrom` merges no delta for it; that node's own return value is not applied to the state.
- `agent_work` changes the received ticket dictionary in place. If the executor hands over the dictionary held in `tickets` rather than a copy (not visible in this code), the ticket there silently becomes "review" too. The model works on values and does not capture this possible aliasing.
- Stage `print` output, `nodes/__init__.py` (which imports names `development.py` does not define) and `main.py` are not part of this model.
- `get_llm` and the LangChain call are the `Llm` input, which replies or raises. uuid values and clock readings are inputs.
- `server.py`, `knowledge.py`, `tmux.py`, `llm.py` and the dashboard's rendering, styles and transport are not part of this model.
- `Git.GitTools.ListBranches`: heads are kept in creation order, a new head at the end, whereas GitPython lists `repo.heads` sorted by name. So the list returned here, and the `branches` delta of `GitAgent.GitAgentNode` built from it, has the right names but not necessarily the source's order.
- Git itself is opaque. Worktree path existence is membership in the repository's worktree map, so a stray directory at that path is not modelled.
- A `create_head` base is resolved only against head names; tags and commit ids are not modelled.
- `worktree add` failure is modelled only as the branch being checked out elsewhere; a refusal for any other reason (local changes, a locked or stale worktree) is not modelled.
- Whether `worktree remove` succeeds and what `git merge` does are inputs.
- The checkout in `merge_branch` is taken to fail only when the target is not a head or is checked out in a worktree (`Git.CheckoutSucceeds`). A checkout refused because of local changes counts as a success here, although the code would then raise from its `merge --abort`.
- `Git.GitTools.constructor`: `os.path.abspath`, the check that the path is a repository and the directory creation are not modelled. The path is taken as absolute.
- `GitAgent.GitAgentNode`: the module-level tools instance is passed in as a parameter.
- `Config.Config.constructor`: `load_dotenv` and `os.getenv` are replaced by an environment map given as input. Values are strings or None rather than arbitrary Python objects.
- `TeamConfig.TeamConfig.StartEvent`: the `start` event is returned as a value rather than dispatched.
- `requestUpdate` is not modelled.
- Temperatures are kept in tenths and only passed through.
- `TeamConfig.TeamConfig.SetConcept`: the length is counted in characters, whereas JavaScript counts UTF-16 code units.
- `newAgentMode` is kept as a field; every method states that it keeps its value, as no source operation changes it.
- No code increments `sprint_number`, checks status transitions or locks branches, so none is modelled.

## Findings

| source | as written | input that shows it | evidently intended | confidence | as-written member | corrected member |
|---|---|---|---|---|---|---|
| langgraph_scrum/tools/git.py:77-85 | every failure runs `git merge --abort`, which itself raises when no merge is in progress; this happens when the checkout of the target failed or the merge refused to start, so the function raises instead of returning False | a repository without a "main" head: `merge_branch(source)` fails its checkout, and the abort raises "no merge to abort" | return False on any failure and never raise; abort only a merge left in progress | not executed | Git.MergeIntoMissingTarget | Git.MergeNeverRaises |
