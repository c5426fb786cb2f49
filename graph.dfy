/** The stage graph built by `create_workflow`: the nodes, the entry point,
    the fixed edges and the two conditional edges. It also has a sequential
    run loop that applies the stages and merges their deltas. */
module Graph {
  import opened Wrappers
  import opened State
  import opened Planning
  import opened Development
  import Review

  datatype Node =
    | ProductOwner | Architect | UserApproval
    | Dispatch | AgentWork | GitMerge
    | Tester | Reviewer | SprintReview | Release

  /** Where an edge leads: a node, or END. */
  datatype Target = At(node: Node) | End

  function NodeName(n: Node): string {
    match n
    case ProductOwner => "product_owner"
    case Architect => "architect"
    case UserApproval => "user_approval"
    case Dispatch => "dispatch"
    case AgentWork => "agent_work"
    case GitMerge => "git_merge"
    case Tester => "tester"
    case Reviewer => "reviewer"
    case SprintReview => "sprint_review"
    case Release => "release"
  }

  /** `set_entry_point("product_owner")` */
  const Entry: Node := ProductOwner

  /** The `add_edge` calls; None for the two nodes whose edges are conditional. */
  function FixedEdge(n: Node): Option<Target> {
    match n
    case ProductOwner => Some(At(Architect))
    case Architect => Some(At(UserApproval))
    case UserApproval => Some(At(Dispatch))
    case AgentWork => Some(At(GitMerge))
    case GitMerge => Some(At(Tester))
    case Tester => Some(At(Reviewer))
    case Reviewer => Some(At(SprintReview))
    case Release => Some(End)
    case Dispatch => None
    case SprintReview => None
  }

  /** The path map of the conditional edge after `sprint_review`. */
  function RouteTarget(route: Review.RouteLabel): Target {
    match route
    case ReleaseLabel => At(Node.Release)
    case PlanningLabel => At(ProductOwner)
    case EndLabel => End
  }

  /** The successors of a node, given the state after the node's update:
      the fixed edge, one `agent_work` per Send from `dispatch_agents`, or the
      router's choice after `sprint_review`. */
  function Successors(n: Node, s: ScrumState): seq<Target> {
    if FixedEdge(n).Some? then [FixedEdge(n).value]
    else if n == Dispatch then seq(|DispatchSends(s.tickets)|, i => At(AgentWork))
    else [RouteTarget(Review.Router(s))]
  }

  /** The distance of a target from END along the forward edges. */
  function Rank(t: Target): nat {
    match t
    case End => 0
    case At(n) =>
      match n
      case Release => 1
      case SprintReview => 2
      case Reviewer => 3
      case Tester => 4
      case GitMerge => 5
      case AgentWork => 6
      case Dispatch => 7
      case UserApproval => 8
      case Architect => 9
      case ProductOwner => 10
  }

  /** The planning chain from the entry point, as the integration test expects
      it, and the development and review chain after the fan-out. */
  lemma FixedChain(s: ScrumState)
    ensures Entry == ProductOwner
    ensures Successors(ProductOwner, s) == [At(Architect)]
    ensures Successors(Architect, s) == [At(UserApproval)]
    ensures Successors(UserApproval, s) == [At(Dispatch)]
    ensures Successors(AgentWork, s) == [At(GitMerge)]
    ensures Successors(GitMerge, s) == [At(Tester)]
    ensures Successors(Tester, s) == [At(Reviewer)]
    ensures Successors(Reviewer, s) == [At(SprintReview)]
    ensures Successors(Node.Release, s) == [End]
  {
  }

  /** Every node other than `dispatch` and `sprint_review` has exactly one
      successor, and it does not depend on the state. */
  lemma {:induction false} SingleSuccessor(n: Node, s: ScrumState, s': ScrumState)
    requires n != Dispatch && n != SprintReview
    ensures |Successors(n, s)| == 1
    ensures Successors(n, s) == Successors(n, s')
  {
    match n
    case ProductOwner => case Architect => case UserApproval => case AgentWork =>
    case GitMerge => case Tester => case Reviewer => case Release =>
  }

  /** The successors of `dispatch` are exactly the Send targets: one
      `agent_work` per invocation of `dispatch_agents`, none when it sends nothing. */
  lemma DispatchSuccessors(s: ScrumState, i: nat)
    requires i < |Successors(Dispatch, s)|
    ensures |Successors(Dispatch, s)| == |DispatchSends(s.tickets)|
    ensures Successors(Dispatch, s)[i] == At(AgentWork)
    ensures NodeName(AgentWork) == DispatchSends(s.tickets)[i].target
  {
    DispatchTargets(s.tickets, i);
  }

  /** Every edge leads strictly closer to END, except the single edge from
      `sprint_review` back to `product_owner`; `release` leads only to END. */
  lemma {:induction false} OnlyBackEdge(n: Node, s: ScrumState, i: nat)
    requires i < |Successors(n, s)|
    ensures Rank(Successors(n, s)[i]) < Rank(At(n)) ||
            (n == SprintReview && Successors(n, s)[i] == At(ProductOwner))
    ensures n == Node.Release ==> Successors(n, s)[i] == End
  {
    if n == SprintReview {
      match Review.Router(s)
      case ReleaseLabel =>
      case PlanningLabel =>
      case EndLabel =>
    } else if n != Dispatch {
      SingleSuccessor(n, s, s);
      match n
      case ProductOwner => case Architect => case UserApproval => case AgentWork =>
      case GitMerge => case Tester => case Reviewer => case Release =>
    }
  }

  // ---------------------------------------------------------------------
  // A sequential run loop
  // ---------------------------------------------------------------------

  /** The inputs a run draws on: the language model, the two uuid strings
      and four clock readings of the architect, and the order in which the
      fan-out's invocations finish (see CompletionOrder). */
  datatype Env = Env(
    llm: Llm,
    firstUuid: string, secondUuid: string,
    created1: string, updated1: string, created2: string, updated2: string,
    choices: seq<nat>)

  /** The delta returned by a stage that has no fan-out. */
  function StageDelta(n: Node, s: ScrumState, env: Env): Delta
    requires n != Dispatch && n != AgentWork
  {
    match n
    case ProductOwner => ProductOwnerNode(s, env.llm)
    case Architect =>
      ArchitectNode(env.firstUuid, env.secondUuid, env.created1, env.updated1, env.created2, env.updated2)
    case UserApproval => UserApprovalNode(s)
    case GitMerge => GitMergeNode(s)
    case Tester => Review.TesterNode(s)
    case Reviewer => Review.ReviewerNode(s)
    case SprintReview => Review.SprintReviewNode(s)
    case Release => Review.ReleaseNode(s)
  }

  /** The one successor of a stage without fan-out; it is never `agent_work`,
      which only a Send reaches. */
  function Next(n: Node, s: ScrumState): (t: Target)
    requires n != Dispatch && n != AgentWork
    ensures t != At(AgentWork)
  {
    if FixedEdge(n).Some? then FixedEdge(n).value else RouteTarget(Review.Router(s))
  }

  /** The run loop follows the graph: the next stage is the one successor. */
  lemma NextIsSuccessor(n: Node, s: ScrumState)
    requires n != Dispatch && n != AgentWork
    ensures [Next(n, s)] == Successors(n, s)
  {
  }

  function Repeat(n: Node, k: nat): (r: seq<Node>)
    ensures |r| == k && forall i :: 0 <= i < k ==> r[i] == n
  {
    if k == 0 then [] else [n] + Repeat(n, k - 1)
  }

  /** A run: the state reached, the stages visited, and whether END was reached
      (false when the fuel ran out first). */
  datatype Run = Run(state: ScrumState, trace: seq<Node>, finished: bool)

  /** Runs the graph from node `n`, one stage at a time. A stage's delta is
      merged before its outgoing edge is chosen. At `dispatch`, every Send runs
      `agent_work`, the deltas are merged in completion order, and the run goes
      on at `git_merge`; a dispatch with no Send has no successor and ends the
      run. */
  function RunFrom(n: Node, s: ScrumState, env: Env, fuel: nat): Run
    requires n != AgentWork
    decreases fuel
  {
    if fuel == 0 then Run(s, [], false)
    else if n == Dispatch then
      var sends := DispatchSends(s.tickets);
      if sends == [] then Run(s, [Dispatch], true)
      else
        var joined := Join(s, CompletionOrder(sends, env.choices));
        var rest := RunFrom(GitMerge, joined, env, fuel - 1);
        Run(rest.state, [Dispatch] + Repeat(AgentWork, |sends|) + rest.trace, rest.finished)
    else
      var after := Merge(s, StageDelta(n, s, env));
      match Next(n, after)
      case End => Run(after, [n], true)
      case At(m) =>
        var rest := RunFrom(m, after, env, fuel - 1);
        Run(rest.state, [n] + rest.trace, rest.finished)
  }

  /** The tickets the architect adds in a run. */
  function NewTickets(env: Env): seq<Ticket> {
    ArchitectNode(env.firstUuid, env.secondUuid, env.created1, env.updated1, env.created2, env.updated2)
      .tickets.value
  }

  /** The stages, in order, of a run whose fan-out has `k` invocations. */
  function SprintTrace(k: nat): seq<Node> {
    [ProductOwner, Architect, UserApproval, Dispatch] + Repeat(AgentWork, k) +
    [GitMerge, Tester, Reviewer, SprintReview]
  }

  /** The state after the three planning stages. */
  function PlannedState(init: ScrumState, env: Env): ScrumState {
    init.(technicalSpec := Some(TechnicalSpec),
          planApproved := Some(true),
          tickets := init.tickets + NewTickets(env),
          messages := ProductOwnerNode(init, env.llm).messages)
  }

  /** A run with some stages visited before it. */
  function After(visited: seq<Node>, r: Run): Run {
    Run(r.state, visited + r.trace, r.finished)
  }

  /** Visiting `a`, `b` and `c` one at a time before a run is visiting `[a, b, c]`. */
  lemma AfterThree(a: Node, b: Node, c: Node, r: Run)
    ensures After([a], After([b], After([c], r))) == After([a, b, c], r)
  {
    assert [a] + ([b] + ([c] + r.trace)) == [a, b, c] + r.trace;
  }

  /** One step of the run loop at a stage without fan-out: the stage's delta
      is merged and the run goes on at the stage's one successor. */
  lemma StageStep(n: Node, s: ScrumState, env: Env, rest: nat)
    requires n != Dispatch && n != AgentWork
    requires Next(n, Merge(s, StageDelta(n, s, env))).At?
    ensures var after := Merge(s, StageDelta(n, s, env));
            RunFrom(n, s, env, rest + 1) == After([n], RunFrom(Next(n, after).node, after, env, rest))
  {
  }

  /** The states the three planning stages produce. */
  lemma PlanningStates(init: ScrumState, env: Env)
    ensures var s1 := Merge(init, StageDelta(ProductOwner, init, env));
            var s2 := Merge(s1, StageDelta(Architect, s1, env));
            Next(ProductOwner, s1) == At(Architect) &&
            Next(Architect, s2) == At(UserApproval) &&
            Next(UserApproval, Merge(s2, StageDelta(UserApproval, s2, env))) == At(Dispatch) &&
            Merge(s2, StageDelta(UserApproval, s2, env)) == PlannedState(init, env)
  {
    MergeNoChange(init);
  }

  /** The planning stages run in sequence and hand the planned state to `dispatch`;
      `rest` is the fuel left at `dispatch`. */
  lemma {:induction false} PlanningStretch(init: ScrumState, env: Env, rest: nat)
    ensures RunFrom(ProductOwner, init, env, rest + 3) ==
            After([ProductOwner, Architect, UserApproval], RunFrom(Dispatch, PlannedState(init, env), env, rest))
  {
    var s1 := Merge(init, StageDelta(ProductOwner, init, env));
    var s2 := Merge(s1, StageDelta(Architect, s1, env));
    PlanningStates(init, env);
    StageStep(ProductOwner, init, env, rest + 2);
    StageStep(Architect, s1, env, rest + 1);
    StageStep(UserApproval, s2, env, rest);
    AfterThree(ProductOwner, Architect, UserApproval, RunFrom(Dispatch, PlannedState(init, env), env, rest));
  }

  /** A dispatch with at least one Send runs the fan-out, joins it and goes
      on at `git_merge`. */
  lemma {:induction false} DispatchStretch(s: ScrumState, env: Env, rest: nat)
    requires DispatchSends(s.tickets) != []
    ensures var sends := DispatchSends(s.tickets);
            var r := RunFrom(GitMerge, Join(s, CompletionOrder(sends, env.choices)), env, rest);
            RunFrom(Dispatch, s, env, rest + 1) ==
            Run(r.state, [Dispatch] + Repeat(AgentWork, |sends|) + r.trace, r.finished)
  {
  }

  /** One step of the run loop at a stage whose outgoing edge leads to END. */
  lemma StageEnd(n: Node, s: ScrumState, env: Env, rest: nat)
    requires n != Dispatch && n != AgentWork
    requires Next(n, Merge(s, StageDelta(n, s, env))) == End
    ensures RunFrom(n, s, env, rest + 1) == Run(Merge(s, StageDelta(n, s, env)), [n], true)
  {
  }

  /** The states the four review-phase stages produce. */
  lemma ReviewStates(s: ScrumState, env: Env)
    ensures var s5 := Merge(s, StageDelta(GitMerge, s, env));
            s5 == s.(pendingMerges := Some([])) &&
            Merge(s5, StageDelta(Tester, s5, env)) == s5 &&
            Merge(s5, StageDelta(Reviewer, s5, env)) == s5 &&
            Merge(s5, StageDelta(SprintReview, s5, env)) == s5.(phase := Some(Phase.Review)) &&
            Next(GitMerge, s5) == At(Tester) &&
            Next(Tester, s5) == At(Reviewer) &&
            Next(Reviewer, s5) == At(SprintReview) &&
            Next(SprintReview, s5.(phase := Some(Phase.Review))) == End
  {
  }

  /** From `git_merge` the run passes the test, review and sprint review
      stages and ends: the router sees phase "review". */
  lemma {:induction false} ReviewStretch(s: ScrumState, env: Env, rest: nat)
    ensures RunFrom(GitMerge, s, env, rest + 4) ==
            Run(s.(pendingMerges := Some([]), phase := Some(Phase.Review)),
                [GitMerge, Tester, Reviewer, SprintReview], true)
  {
    var s5 := s.(pendingMerges := Some([]));
    var s8 := s5.(phase := Some(Phase.Review));
    ReviewStates(s, env);
    StageEnd(SprintReview, s5, env, rest);
    StageStep(Reviewer, s5, env, rest + 1);
    StageStep(Tester, s5, env, rest + 2);
    StageStep(GitMerge, s, env, rest + 3);
    AfterThree(GitMerge, Tester, Reviewer, Run(s8, [SprintReview], true));
  }

  /** The state a run from `init` ends in: the planned state after the
      fan-out's join, with no pending merges and phase "review". */
  function FinalState(init: ScrumState, env: Env): ScrumState {
    var sends := DispatchSends(init.tickets + NewTickets(env));
    PlannedState(init, env).(
      phase := Some(Phase.Review),
      completedTickets := init.completedTickets + ReviewedAll(CompletionOrder(sends, env.choices)),
      pendingMerges := Some([]))
  }

  /** From a `dispatch` with at least one Send the run fans out, joins, and
      ends after `sprint_review`. */
  lemma {:induction false} DevelopmentStretch(s: ScrumState, env: Env, rest: nat)
    requires DispatchSends(s.tickets) != []
    ensures var sends := DispatchSends(s.tickets);
            RunFrom(Dispatch, s, env, rest + 5) ==
            Run(Join(s, CompletionOrder(sends, env.choices)).(pendingMerges := Some([]), phase := Some(Phase.Review)),
                [Dispatch] + Repeat(AgentWork, |sends|) + [GitMerge, Tester, Reviewer, SprintReview], true)
  {
    var sends := DispatchSends(s.tickets);
    DispatchStretch(s, env, rest + 4);
    ReviewStretch(Join(s, CompletionOrder(sends, env.choices)), env, rest);
  }

  /** From the planned state, `dispatch` fans out over the architect's two
      tickets and every earlier draft, and the run ends in FinalState. */
  lemma {:induction false} PlannedDevelopment(init: ScrumState, env: Env, rest: nat)
    ensures RunFrom(Dispatch, PlannedState(init, env), env, rest + 5) ==
            Run(FinalState(init, env),
                [Dispatch] + Repeat(AgentWork, |DraftTickets(init.tickets)| + 2) +
                [GitMerge, Tester, Reviewer, SprintReview], true)
  {
    NewTicketsDispatched(init.tickets, env);
    DevelopmentStretch(PlannedState(init, env), env, rest);
  }

  /** The stretches put together. */
  lemma {:induction false} RunOutcome(init: ScrumState, env: Env, rest: nat)
    ensures RunFrom(Entry, init, env, rest + 8) ==
            Run(FinalState(init, env), SprintTrace(|DraftTickets(init.tickets)| + 2), true)
  {
    var k := |DraftTickets(init.tickets)| + 2;
    PlanningStretch(init, env, rest + 5);
    PlannedDevelopment(init, env, rest);
    SprintTraceShape(k);
    ChainRuns(RunFrom(Entry, init, env, rest + 8), RunFrom(Dispatch, PlannedState(init, env), env, rest + 5),
              [ProductOwner, Architect, UserApproval],
              [Dispatch] + Repeat(AgentWork, k) + [GitMerge, Tester, Reviewer, SprintReview]);
  }

  /** A run that visits `v` and then goes on as a finished run with trace `t`. */
  lemma ChainRuns(a: Run, b: Run, v: seq<Node>, t: seq<Node>)
    requires a == After(v, b) && b.trace == t
    ensures a == Run(b.state, v + t, b.finished)
  {
  }

  /** With the stages as written, a run from the entry visits each stage once
      (`agent_work` once per draft ticket), and ends at END right after
      `sprint_review`: `release` is never reached and the phase ends as
      "review". The final state is the initial one with the planning keys set,
      the architect's two tickets appended, every draft ticket appended to
      `completed_tickets` with status "review" in completion order, no pending
      merges, and the message log replaced by the product owner's entry. */
  lemma {:induction false} RunAsWritten(init: ScrumState, env: Env, fuel: nat)
    requires fuel >= 8
    ensures var r := RunFrom(Entry, init, env, fuel);
            r.finished &&
            r.trace == SprintTrace(|DraftTickets(init.tickets)| + 2) &&
            Node.Release !in r.trace &&
            r.state == FinalState(init, env)
  {
    var rest := fuel - 8;
    assert fuel == rest + 8;
    RunOutcome(init, env, rest);
    SprintTraceShape(|DraftTickets(init.tickets)| + 2);
  }

  /** The trace a run assembles from its three stretches. */
  lemma SprintTraceShape(k: nat)
    ensures [ProductOwner, Architect, UserApproval] +
            ([Dispatch] + Repeat(AgentWork, k) + [GitMerge, Tester, Reviewer, SprintReview]) ==
            SprintTrace(k)
    ensures Node.Release !in SprintTrace(k)
    ensures |SprintTrace(k)| == k + 8 &&
            SprintTrace(k)[..4] == [ProductOwner, Architect, UserApproval, Dispatch]
  {
    var t := SprintTrace(k);
    assert t[..4] == [ProductOwner, Architect, UserApproval, Dispatch];
    assert t[4 + k..] == [GitMerge, Tester, Reviewer, SprintReview];
    assert forall i :: 0 <= i < |t| ==> t[i] != Node.Release by {
      forall i | 0 <= i < |t| ensures t[i] != Node.Release {
        if 4 <= i < 4 + k {
          assert t[i] == Repeat(AgentWork, k)[i - 4];
        }
      }
    }
  }

  /** The architect's two tickets are drafts, so the fan-out of a run has two
      more invocations than the initial ticket list has drafts. */
  lemma NewTicketsDispatched(tickets: seq<Ticket>, env: Env)
    ensures |DispatchSends(tickets + NewTickets(env))| == |DraftTickets(tickets)| + 2
  {
    var added := NewTickets(env);
    DispatchOrder(tickets, added);
    assert DraftTickets(added) == added by {
      assert added[1..][1..] == [];
    }
    SendsForLength(DraftTickets(tickets));
    SendsForLength(added);
  }

  /** The names of the first four stages of every run are the ones the
      integration test waits for. */
  lemma RunStartsWithPlanning(init: ScrumState, env: Env, fuel: nat)
    requires fuel >= 8
    ensures var trace := RunFrom(Entry, init, env, fuel).trace;
            |trace| >= 4 &&
            NodeName(trace[0]) == "product_owner" && NodeName(trace[1]) == "architect" &&
            NodeName(trace[2]) == "user_approval" && NodeName(trace[3]) == "dispatch"
  {
    RunAsWritten(init, env, fuel);
    SprintTraceStart(RunFrom(Entry, init, env, fuel).trace, |DraftTickets(init.tickets)| + 2);
  }

  lemma SprintTraceStart(trace: seq<Node>, k: nat)
    requires trace == SprintTrace(k)
    ensures |trace| >= 4 &&
            NodeName(trace[0]) == "product_owner" && NodeName(trace[1]) == "architect" &&
            NodeName(trace[2]) == "user_approval" && NodeName(trace[3]) == "dispatch"
  {
    SprintTraceShape(k);
    assert trace[0] == trace[..4][0] && trace[1] == trace[..4][1];
    assert trace[2] == trace[..4][2] && trace[3] == trace[..4][3];
  }

  /** Two draft tickets created on a fresh project, finishing in invocation
      order, end up in `completed_tickets` in ticket order, both with status
      "review". */
  lemma FreshProjectCompletesInOrder(init: ScrumState, env: Env, fuel: nat)
    requires init.tickets == [] && init.completedTickets == [] && env.choices == []
    requires fuel >= 8
    ensures var done := RunFrom(Entry, init, env, fuel).state.completedTickets;
            done == [Reviewed(NewTickets(env)[0]), Reviewed(NewTickets(env)[1])] &&
            forall t :: t in done ==> t.status == TicketStatus.Review
  {
    RunAsWritten(init, env, fuel);
    FreshFinalState(init, env);
  }

  lemma FreshFinalState(init: ScrumState, env: Env)
    requires init.tickets == [] && init.completedTickets == [] && env.choices == []
    ensures FinalState(init, env).completedTickets == [Reviewed(NewTickets(env)[0]), Reviewed(NewTickets(env)[1])]
  {
    assert init.tickets + NewTickets(env) == NewTickets(env);
    FreshTicketsReviewed(env);
  }

  /** The fan-out over the architect's two tickets alone, joined in invocation order. */
  lemma FreshTicketsReviewed(env: Env)
    ensures ReviewedAll(CompletionOrder(DispatchSends(NewTickets(env)), [])) ==
            [Reviewed(NewTickets(env)[0]), Reviewed(NewTickets(env)[1])]
  {
    var added := NewTickets(env);
    assert added == [added[0], added[1]];
    TwoDraftsReviewed(added[0], added[1]);
  }

  /** Two drafts, fanned out and joined in invocation order. */
  lemma TwoDraftsReviewed(a: Ticket, b: Ticket)
    requires a.status == Draft && b.status == Draft
    ensures ReviewedAll(CompletionOrder(DispatchSends([a, b]), [])) == [Reviewed(a), Reviewed(b)]
  {
    AllDraftsKept([a, b]);
    CompletionOrderDefault(SendsFor([a, b]));
    ReviewedSendsFor([a, b]);
  }
}
