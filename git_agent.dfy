/** The git agent stage: it reports the branch list and, as a side effect,
    gives every in-progress ticket without a branch a feature branch and a
    worktree for it. The tools object is the one shared instance the stage
    works on. */
module GitAgent {
  import opened Wrappers
  import opened State
  import opened Git

  /** `[t for t in tickets if t["status"] == "in_progress"]`, in order. */
  function InProgressTickets(tickets: seq<Ticket>): (active: seq<Ticket>)
    ensures forall t :: t in active <==> t in tickets && t.status == InProgress
    ensures |active| <= |tickets|
  {
    if tickets == [] then []
    else if tickets[0].status == InProgress then [tickets[0]] + InProgressTickets(tickets[1..])
    else InProgressTickets(tickets[1..])
  }

  /** `not ticket.get("branch")`: a missing branch and an empty one both count. */
  predicate NeedsBranch(t: Ticket) {
    t.branch.None? || t.branch.value == ""
  }

  /** `f"feature/{ticket['id']}"` */
  function FeatureBranch(id: string): (name: string)
    ensures Relative(name) && |name| == |id| + 8 && name[..8] == "feature/"
    ensures name[8..] == id
  {
    "feature/" + id
  }

  /** Distinct ticket ids give distinct branches. */
  lemma FeatureBranchInjective(a: string, b: string)
    requires FeatureBranch(a) == FeatureBranch(b)
    ensures a == b
  {
    assert a == FeatureBranch(a)[8..];
    assert b == FeatureBranch(b)[8..];
  }

  /** The tickets that the stage acts on, in order. */
  function NeedingBranch(active: seq<Ticket>): seq<Ticket> {
    if active == [] then []
    else if NeedsBranch(active[0]) then [active[0]] + NeedingBranch(active[1..])
    else NeedingBranch(active[1..])
  }

  /** The loop of the stage, on a repository view: for each ticket needing a
      branch, `create_branch` then `create_worktree`; the first exception
      propagates out of the stage, with the changes already made kept. */
  function Provision(dir: string, r: Repo, active: seq<Ticket>): Outcome<()>
    decreases |active|
  {
    if active == [] then Outcome(Success(()), r)
    else if !NeedsBranch(active[0]) then Provision(dir, r, active[1..])
    else
      var name := FeatureBranch(active[0].id);
      var b := BranchStep(r, name, "main");
      if b.result.Failure? then Outcome(Failure(b.result.error), b.repo)
      else
        var w := WorktreeStep(dir, b.repo, name);
        if w.result.Failure? then Outcome(Failure(w.result.error), w.repo)
        else Provision(dir, w.repo, active[1..])
  }

  /** `git_agent_node`: the delta holds only `branches`, the list taken
      before any branch was created; the repository ends as `Provision`
      leaves it, and an exception from the tools escapes the stage. */
  method GitAgentNode(git: GitTools, s: ScrumState) returns (res: Result<Delta, GitError>)
    modifies git
    ensures var o := Provision(git.worktreesDir, old(git.View()), InProgressTickets(s.tickets));
            git.View() == o.repo &&
            (res.Success? <==> o.result.Success?) &&
            (res.Failure? ==> res.error == o.result.error) &&
            (res.Success? ==> res.value == NoChange.(branches := Some(Names(old(git.heads)))))
    ensures git.gitignore == old(git.gitignore) && git.worktreesDirExists == old(git.worktreesDirExists)
  {
    var branches := git.ListBranches();
    var active := InProgressTickets(s.tickets);
    var i := 0;
    while i < |active|
      invariant 0 <= i <= |active|
      invariant Provision(git.worktreesDir, old(git.View()), active) ==
                Provision(git.worktreesDir, git.View(), active[i..])
      invariant git.gitignore == old(git.gitignore) && git.worktreesDirExists == old(git.worktreesDirExists)
    {
      var ticket := active[i];
      assert active[i..][1..] == active[i + 1..];
      if NeedsBranch(ticket) {
        var name := FeatureBranch(ticket.id);
        var created := git.CreateBranch(name, "main");
        if created.Failure? {
          return Failure(created.error);
        }
        var path := git.CreateWorktree(name);
        if path.Failure? {
          return Failure(path.error);
        }
      }
      i := i + 1;
    }
    return Success(NoChange.(branches := Some(branches)));
  }

  // ---------------------------------------------------------------------
  // Properties
  // ---------------------------------------------------------------------

  /** `r2` grows `r`: the same checked-out branch, the old heads as a prefix,
      and every old worktree still there for the same branch. */
  predicate Extends(r: Repo, r2: Repo) {
    r2.active == r.active && r.heads <= r2.heads &&
    forall p :: p in r.worktrees ==> p in r2.worktrees && r2.worktrees[p] == r.worktrees[p]
  }

  lemma ExtendsTransitive(r1: Repo, r2: Repo, r3: Repo)
    requires Extends(r1, r2) && Extends(r2, r3)
    ensures Extends(r1, r3)
  {
  }

  /** A name among the heads stays among them as heads are added. */
  lemma NamesGrow(a: seq<Head>, b: seq<Head>, n: string)
    requires a <= b && n in Names(a)
    ensures n in Names(b)
  {
    var i :| 0 <= i < |a| && Names(a)[i] == n;
    assert Names(b)[i] == b[i].name == a[i].name;
  }

  /** The two steps of one ticket only ever add. */
  lemma StepsExtend(dir: string, r: Repo, name: string)
    ensures Extends(r, BranchStep(r, name, "main").repo)
    ensures Extends(r, WorktreeStep(dir, r, name).repo)
  {
  }

  /** The whole loop only ever adds, whether it succeeds or not. */
  lemma {:induction false} ProvisionExtends(dir: string, r: Repo, active: seq<Ticket>)
    ensures Extends(r, Provision(dir, r, active).repo)
    decreases |active|
  {
    if active != [] {
      if !NeedsBranch(active[0]) {
        ProvisionExtends(dir, r, active[1..]);
      } else {
        var name := FeatureBranch(active[0].id);
        var b := BranchStep(r, name, "main");
        StepsExtend(dir, r, name);
        if b.result.Success? {
          var w := WorktreeStep(dir, b.repo, name);
          StepsExtend(dir, b.repo, name);
          ExtendsTransitive(r, b.repo, w.repo);
          if w.result.Success? {
            ProvisionExtends(dir, w.repo, active[1..]);
            ExtendsTransitive(r, w.repo, Provision(dir, w.repo, active[1..]).repo);
          }
        }
      }
    }
  }

  /** What the stage promises for one ticket: its feature branch is a head,
      a worktree sits at the branch's path under the worktrees directory,
      and the main working tree is on a branch. */
  predicate Provisioned(dir: string, r: Repo, t: Ticket) {
    var name := FeatureBranch(t.id);
    r.active.Some? && name in Names(r.heads) &&
    JoinPath(dir, name) in r.worktrees && r.worktrees[JoinPath(dir, name)] == name
  }

  /** Growing a repository keeps a ticket provisioned. */
  lemma ProvisionedKept(dir: string, r: Repo, r2: Repo, t: Ticket)
    requires Provisioned(dir, r, t) && Extends(r, r2)
    ensures Provisioned(dir, r2, t)
  {
    NamesGrow(r.heads, r2.heads, FeatureBranch(t.id));
  }

  /** `create_branch` then `create_worktree` for a relative name, when both
      succeed: the name is a head with its worktree, HEAD is attached, and
      the repository is still well formed. */
  lemma StepsEstablish(dir: string, r: Repo, name: string)
    requires Valid(dir, r) && Relative(name)
    requires BranchStep(r, name, "main").result.Success?
    requires WorktreeStep(dir, BranchStep(r, name, "main").repo, name).result.Success?
    ensures var w := WorktreeStep(dir, BranchStep(r, name, "main").repo, name).repo;
            w.active.Some? && name in Names(w.heads) &&
            JoinPath(dir, name) in w.worktrees && w.worktrees[JoinPath(dir, name)] == name &&
            Valid(dir, w)
  {
    var b := BranchStep(r, name, "main");
    BranchKeepsValid(dir, r, name, "main");
    StepsExtend(dir, b.repo, name);
    WorktreeEstablishes(dir, b.repo, name);
    WorktreeKeepsValid(dir, b.repo, name);
  }

  /** One ticket's two steps, when both succeed, provision it. */
  lemma StepsProvision(dir: string, r: Repo, t: Ticket)
    requires Valid(dir, r)
    requires BranchStep(r, FeatureBranch(t.id), "main").result.Success?
    requires WorktreeStep(dir, BranchStep(r, FeatureBranch(t.id), "main").repo, FeatureBranch(t.id)).result.Success?
    ensures var b := BranchStep(r, FeatureBranch(t.id), "main");
            var w := WorktreeStep(dir, b.repo, FeatureBranch(t.id));
            Provisioned(dir, w.repo, t) && Valid(dir, w.repo)
  {
    StepsEstablish(dir, r, FeatureBranch(t.id));
  }

  /** When the stage succeeds on a well-formed repository, every in-progress
      ticket without a branch has its feature branch and its worktree, and
      the repository is still well formed. */
  lemma {:induction false} ProvisionEstablishes(dir: string, r: Repo, active: seq<Ticket>)
    requires Valid(dir, r)
    requires Provision(dir, r, active).result.Success?
    ensures var o := Provision(dir, r, active);
            Valid(dir, o.repo) &&
            forall t :: t in active && NeedsBranch(t) ==> Provisioned(dir, o.repo, t)
    decreases |active|
  {
    if active != [] {
      var o := Provision(dir, r, active);
      if !NeedsBranch(active[0]) {
        ProvisionEstablishes(dir, r, active[1..]);
      } else {
        var t := active[0];
        var name := FeatureBranch(t.id);
        var b := BranchStep(r, name, "main");
        var w := WorktreeStep(dir, b.repo, name);
        StepsProvision(dir, r, t);
        ProvisionEstablishes(dir, w.repo, active[1..]);
        ProvisionExtends(dir, w.repo, active[1..]);
        ProvisionedKept(dir, w.repo, o.repo, t);
      }
      forall u | u in active && NeedsBranch(u)
        ensures Provisioned(dir, o.repo, u)
      {
        if u != active[0] {
          assert u in active[1..];
        }
      }
    }
  }

  /** On a repository where every ticket needing a branch is already
      provisioned, the loop succeeds and changes nothing. */
  lemma {:induction false} ProvisionFixed(dir: string, r: Repo, active: seq<Ticket>)
    requires forall t :: t in active && NeedsBranch(t) ==> Provisioned(dir, r, t)
    ensures Provision(dir, r, active) == Outcome(Success(()), r)
    decreases |active|
  {
    if active != [] {
      assert forall t :: t in active[1..] ==> t in active;
      ProvisionFixed(dir, r, active[1..]);
    }
  }

  /** Running the stage again after a success changes nothing: the branches
      and worktrees it made are found and reused. */
  lemma ProvisionIdempotent(dir: string, r: Repo, active: seq<Ticket>)
    requires Valid(dir, r)
    requires Provision(dir, r, active).result.Success?
    ensures var o := Provision(dir, r, active);
            Provision(dir, o.repo, active) == Outcome(Success(()), o.repo)
  {
    ProvisionEstablishes(dir, r, active);
    ProvisionFixed(dir, Provision(dir, r, active).repo, active);
  }

  /** Tickets that already carry a branch play no part: the loop behaves as
      if only the tickets needing one were there. */
  lemma {:induction false} ProvisionSkipsBranched(dir: string, r: Repo, active: seq<Ticket>)
    ensures Provision(dir, r, active) == Provision(dir, r, NeedingBranch(active))
    decreases |active|
  {
    if active != [] {
      if !NeedsBranch(active[0]) {
        ProvisionSkipsBranched(dir, r, active[1..]);
      } else {
        var rest := NeedingBranch(active[1..]);
        assert ([active[0]] + rest)[1..] == rest;
        var name := FeatureBranch(active[0].id);
        var b := BranchStep(r, name, "main");
        if b.result.Success? {
          var w := WorktreeStep(dir, b.repo, name);
          if w.result.Success? {
            ProvisionSkipsBranched(dir, w.repo, active[1..]);
          }
        }
      }
    }
  }

  /** With no in-progress ticket, or none lacking a branch, the stage
      touches nothing and its delta is just the branch list. */
  lemma NothingToProvision(dir: string, r: Repo, tickets: seq<Ticket>)
    requires forall t :: t in tickets && t.status == InProgress ==> !NeedsBranch(t)
    ensures Provision(dir, r, InProgressTickets(tickets)) == Outcome(Success(()), r)
  {
    ProvisionFixed(dir, r, InProgressTickets(tickets));
  }

  /** Merging the stage's delta only replaces `branches`: the ticket
      records, their `branch` fields included, stay as they were. */
  lemma TicketsNotUpdated(s: ScrumState, branches: seq<string>)
    ensures Merge(s, NoChange.(branches := Some(branches))) == s.(branches := Some(branches))
    ensures Merge(s, NoChange.(branches := Some(branches))).tickets == s.tickets
  {
    MergeNoChange(s);
  }
}
