/** The git tools: branch and worktree creation behind existence checks,
    worktree removal, the branch listing, the merge, and the `.gitignore`
    update made when the tools are first set up. git itself is opaque: the
    repository is seen through its heads, the branch checked out in the main
    working tree and the linked worktrees, and what git does on a merge or a
    worktree removal is an input. */
module Git {
  import opened Wrappers

  /** A branch head: its name and the commit it points at. */
  datatype Head = Head(name: string, commit: string)

  /** What the tools see of a repository: the heads in creation order
      (git itself lists them sorted by name), the
      branch checked out in the main working tree (None for a detached HEAD),
      and the linked worktrees, from path to the branch checked out there. */
  datatype Repo = Repo(heads: seq<Head>, active: Option<string>, worktrees: map<string, string>)

  /** The exceptions the tools let escape. */
  datatype GitError =
    | DetachedHead                       // reading `active_branch` with HEAD detached
    | BadRevision(rev: string)           // `create_head` from a base that names no head
    | AlreadyCheckedOut(branch: string)  // `worktree add` for a branch checked out elsewhere
    | NoMergeToAbort                     // `merge --abort` with no merge in progress

  /** What an operation returns (or raises) and the repository after it. */
  datatype Outcome<T> = Outcome(result: Result<T, GitError>, repo: Repo)

  // ---------------------------------------------------------------------
  // Heads
  // ---------------------------------------------------------------------

  /** `[head.name for head in repo.heads]` */
  function Names(heads: seq<Head>): (names: seq<string>)
    ensures |names| == |heads|
    ensures forall i :: 0 <= i < |heads| ==> names[i] == heads[i].name
  {
    if heads == [] then [] else [heads[0].name] + Names(heads[1..])
  }

  /** The commit of the first head called `name`; None exactly when no head
      has that name (`name in repo.heads` is false). */
  function CommitOf(heads: seq<Head>, name: string): (c: Option<string>)
    ensures c.Some? <==> name in Names(heads)
    ensures c.Some? ==> Head(name, c.value) in heads
  {
    if heads == [] then None
    else if heads[0].name == name then Some(heads[0].commit)
    else
      assert Names(heads) == [heads[0].name] + Names(heads[1..]);
      CommitOf(heads[1..], name)
  }

  predicate DistinctNames(heads: seq<Head>) {
    forall i, j :: 0 <= i < j < |heads| ==> heads[i].name != heads[j].name
  }

  /** Every head called `name` moved to commit `c`. */
  function SetCommit(heads: seq<Head>, name: string, c: string): (r: seq<Head>)
    ensures Names(r) == Names(heads)
  {
    var r := seq(|heads|, i requires 0 <= i < |heads| =>
                 if heads[i].name == name then heads[i].(commit := c) else heads[i]);
    assert forall i :: 0 <= i < |r| ==> Names(r)[i] == Names(heads)[i];
    r
  }

  // ---------------------------------------------------------------------
  // Paths and the .gitignore text
  // ---------------------------------------------------------------------

  /** `os.path.join(a, b)` on POSIX: an absolute `b` replaces `a`; otherwise
      a separator is put between them unless `a` is empty or ends in one. */
  function JoinPath(a: string, b: string): string {
    if |b| > 0 && b[0] == '/' then b
    else if a == [] || a[|a| - 1] == '/' then a + b
    else a + "/" + b
  }

  /** A name that is not an absolute path: git refuses branch names that
      begin with a slash. */
  predicate Relative(b: string) {
    |b| > 0 && b[0] != '/'
  }

  /** Under one directory, distinct relative names have distinct paths, so a
      branch's worktree path stands for that branch alone. */
  lemma JoinPathInjective(a: string, b1: string, b2: string)
    requires Relative(b1) && Relative(b2)
    requires JoinPath(a, b1) == JoinPath(a, b2)
    ensures b1 == b2
  {
    var prefix := if a == [] || a[|a| - 1] == '/' then a else a + "/";
    assert JoinPath(a, b1) == prefix + b1 && JoinPath(a, b2) == prefix + b2;
    assert b1 == (prefix + b1)[|prefix|..];
    assert b2 == (prefix + b2)[|prefix|..];
  }

  /** `sub in s` on strings. */
  predicate Contains(s: string, sub: string) {
    exists i :: 0 <= i <= |s| && sub <= s[i..]
  }

  const IgnoreEntry: string := ".worktrees/"

  /** The `.gitignore` text after set-up: the entry appended on its own line
      when the text does not already contain it. */
  function IgnoreWorktrees(content: string): (r: string)
    ensures Contains(r, IgnoreEntry)
    ensures content <= r
    ensures Contains(content, IgnoreEntry) ==> r == content
  {
    if Contains(content, IgnoreEntry) then content
    else
      var r := content + "\n" + IgnoreEntry + "\n";
      assert IgnoreEntry <= r[|content| + 1..];
      r
  }

  /** The entry is never added twice. */
  lemma IgnoreWorktreesIdempotent(content: string)
    ensures IgnoreWorktrees(IgnoreWorktrees(content)) == IgnoreWorktrees(content)
  {
  }

  // ---------------------------------------------------------------------
  // The operations on a repository view
  // ---------------------------------------------------------------------

  /** `create_branch(name, base)`: the active branch is read first, so a
      detached HEAD raises even for an existing name; an existing name is
      returned unchanged; otherwise a head at the base's commit is added. */
  function BranchStep(r: Repo, name: string, base: string): Outcome<string> {
    if r.active.None? then Outcome(Failure(DetachedHead), r)
    else if name in Names(r.heads) then Outcome(Success(name), r)
    else
      match CommitOf(r.heads, base)
      case None => Outcome(Failure(BadRevision(base)), r)
      case Some(c) => Outcome(Success(name), r.(heads := r.heads + [Head(name, c)]))
  }

  /** `create_worktree(branch)`: a worktree path that exists is returned
      unchanged; otherwise the branch is created from "main" when missing and
      a worktree for it is added, which git refuses when the branch is
      checked out in the main working tree or in another worktree. */
  function WorktreeStep(dir: string, r: Repo, branch: string): Outcome<string> {
    var path := JoinPath(dir, branch);
    if path in r.worktrees then Outcome(Success(path), r)
    else
      var created := EnsureBranch(r, branch);
      if created.result.Failure? then Outcome(Failure(created.result.error), created.repo)
      else if created.repo.active == Some(branch) || branch in created.repo.worktrees.Values then
        Outcome(Failure(AlreadyCheckedOut(branch)), created.repo)
      else Outcome(Success(path), created.repo.(worktrees := created.repo.worktrees[path := branch]))
  }

  /** The first step of `create_worktree`: `create_branch(branch)` from
      "main", made only when no head has that name. */
  function EnsureBranch(r: Repo, branch: string): Outcome<string> {
    if branch in Names(r.heads) then Outcome(Success(branch), r) else BranchStep(r, branch, "main")
  }

  /** `remove_worktree(branch)`: nothing happens when the path is absent;
      `removable` says whether git agrees to remove the worktree (it refuses,
      for instance, one with local changes), and a refusal is swallowed. */
  function RemoveStep(dir: string, r: Repo, branch: string, removable: bool): Repo {
    var path := JoinPath(dir, branch);
    if path in r.worktrees && removable then r.(worktrees := r.worktrees - {path}) else r
  }

  /** What `git merge` does once the target is checked out: it merges,
      producing the target's new commit; it stops with conflicts, leaving a
      merge in progress; or it refuses before starting (an unknown source,
      for instance), leaving none. */
  datatype MergeAttempt = Merged(commit: string) | Conflicted | Refused

  /** `git checkout target` succeeds for an existing head that no linked
      worktree has checked out. */
  predicate CheckoutSucceeds(r: Repo, target: string) {
    target in Names(r.heads) && target !in r.worktrees.Values
  }

  /** `merge_branch(source, target)` as written: every failure runs
      `merge --abort`, which itself raises when no merge is in progress,
      that is when the checkout failed or the merge refused to start. */
  function MergeStepAsWritten(r: Repo, source: string, target: string, attempt: MergeAttempt): Outcome<bool> {
    if !CheckoutSucceeds(r, target) then Outcome(Failure(NoMergeToAbort), r)
    else
      var checkedOut := r.(active := Some(target));
      match attempt
      case Merged(c) => Outcome(Success(true), checkedOut.(heads := SetCommit(r.heads, target, c)))
      case Conflicted => Outcome(Success(false), checkedOut)
      case Refused => Outcome(Failure(NoMergeToAbort), checkedOut)
  }

  /** `merge_branch` as its handler's `return False` intends it: True on a
      merge, False on any failure, never raising; the abort runs only when a merge was
      left in progress. */
  function MergeStep(r: Repo, source: string, target: string, attempt: MergeAttempt): Outcome<bool> {
    if !CheckoutSucceeds(r, target) then Outcome(Success(false), r)
    else
      var checkedOut := r.(active := Some(target));
      match attempt
      case Merged(c) => Outcome(Success(true), checkedOut.(heads := SetCommit(r.heads, target, c)))
      case Conflicted => Outcome(Success(false), checkedOut)
      case Refused => Outcome(Success(false), checkedOut)
  }

  // ---------------------------------------------------------------------
  // A well-formed repository
  // ---------------------------------------------------------------------

  /** Head names are distinct, and every worktree sits at the path the tools
      derive from its branch, which is a head. */
  predicate Valid(dir: string, r: Repo) {
    DistinctNames(r.heads) &&
    forall p :: p in r.worktrees ==>
      Relative(r.worktrees[p]) && r.worktrees[p] in Names(r.heads) && p == JoinPath(dir, r.worktrees[p])
  }

  // ---------------------------------------------------------------------
  // Properties of create_branch
  // ---------------------------------------------------------------------

  /** With HEAD detached, `create_branch` raises and changes nothing, even
      for a name that exists. */
  lemma BranchDetached(r: Repo, name: string, base: string)
    requires r.active.None?
    ensures BranchStep(r, name, base) == Outcome(Failure(DetachedHead), r)
  {
  }

  /** An existing head: the name is returned and nothing changes. */
  lemma BranchExisting(r: Repo, name: string, base: string)
    requires r.active.Some? && name in Names(r.heads)
    ensures BranchStep(r, name, base) == Outcome(Success(name), r)
  {
  }

  /** A new name: exactly one head is added, at the base's commit, after the
      existing ones; nothing else changes. A base that names no head raises. */
  lemma BranchNew(r: Repo, name: string, base: string)
    requires r.active.Some? && name !in Names(r.heads)
    ensures var o := BranchStep(r, name, base);
            match CommitOf(r.heads, base)
            case None => o == Outcome(Failure(BadRevision(base)), r)
            case Some(c) =>
              o.result == Success(name) &&
              o.repo == r.(heads := r.heads + [Head(name, c)]) &&
              Names(o.repo.heads) == Names(r.heads) + [name]
  {
    match CommitOf(r.heads, base)
    case None =>
    case Some(c) =>
      var hs := r.heads + [Head(name, c)];
      assert Names(hs) == Names(r.heads) + [name] by {
        assert forall i :: 0 <= i < |hs| ==> Names(hs)[i] == (Names(r.heads) + [name])[i];
      }
  }

  /** Creating the same branch a second time returns the name and changes nothing. */
  lemma BranchIdempotent(r: Repo, name: string, base: string)
    requires BranchStep(r, name, base).result.Success?
    ensures var o := BranchStep(r, name, base);
            BranchStep(o.repo, name, base) == Outcome(Success(name), o.repo)
  {
    if name !in Names(r.heads) {
      BranchNew(r, name, base);
    }
  }

  /** `create_branch` keeps the repository well formed, and never removes a
      head or a worktree. */
  lemma BranchKeepsValid(dir: string, r: Repo, name: string, base: string)
    requires Valid(dir, r)
    ensures var o := BranchStep(r, name, base);
            Valid(dir, o.repo) && o.repo.worktrees == r.worktrees && r.heads <= o.repo.heads
  {
    var o := BranchStep(r, name, base);
    if r.active.Some? && name !in Names(r.heads) && CommitOf(r.heads, base).Some? {
      BranchNew(r, name, base);
      assert forall p :: p in r.worktrees ==> r.worktrees[p] in Names(o.repo.heads);
    }
  }

  // ---------------------------------------------------------------------
  // Properties of create_worktree and remove_worktree
  // ---------------------------------------------------------------------

  /** After a successful `create_worktree` of a relative branch name in a
      well-formed repository, the branch is a head and its worktree is at the
      derived path, and the path is the result. */
  lemma WorktreeEstablishes(dir: string, r: Repo, branch: string)
    requires Valid(dir, r) && Relative(branch)
    requires WorktreeStep(dir, r, branch).result.Success?
    ensures var o := WorktreeStep(dir, r, branch);
            var path := JoinPath(dir, branch);
            o.result.value == path &&
            path in o.repo.worktrees && o.repo.worktrees[path] == branch &&
            branch in Names(o.repo.heads)
  {
    var path := JoinPath(dir, branch);
    if path in r.worktrees {
      JoinPathInjective(dir, r.worktrees[path], branch);
    } else if branch !in Names(r.heads) {
      BranchNew(r, branch, "main");
    }
  }

  /** `create_worktree` is idempotent: a second call returns the same path
      and changes nothing. */
  lemma WorktreeIdempotent(dir: string, r: Repo, branch: string)
    requires WorktreeStep(dir, r, branch).result.Success?
    ensures var o := WorktreeStep(dir, r, branch);
            WorktreeStep(dir, o.repo, branch) == Outcome(Success(JoinPath(dir, branch)), o.repo)
  {
  }

  /** Adding a worktree for a relative head at its derived path keeps a
      repository well formed. */
  lemma AddWorktreeKeepsValid(dir: string, r: Repo, branch: string)
    requires Valid(dir, r) && Relative(branch) && branch in Names(r.heads)
    ensures Valid(dir, r.(worktrees := r.worktrees[JoinPath(dir, branch) := branch]))
  {
  }

  /** The branch step of `create_worktree` keeps the repository well
      formed, adds heads only, leaves the worktrees alone, and on success
      the branch is a head. */
  lemma EnsureBranchKeepsValid(dir: string, r: Repo, branch: string)
    requires Valid(dir, r)
    ensures var c := EnsureBranch(r, branch);
            Valid(dir, c.repo) && r.heads <= c.repo.heads && c.repo.worktrees == r.worktrees &&
            (c.result.Success? ==> branch in Names(c.repo.heads))
  {
    if branch !in Names(r.heads) {
      BranchKeepsValid(dir, r, branch, "main");
      if r.active.Some? {
        BranchNew(r, branch, "main");
      }
    }
  }

  /** A worktree for a relative branch name keeps the repository well formed;
      heads and worktrees are only ever added. */
  lemma WorktreeKeepsValid(dir: string, r: Repo, branch: string)
    requires Valid(dir, r) && Relative(branch)
    ensures var o := WorktreeStep(dir, r, branch);
            Valid(dir, o.repo) && r.heads <= o.repo.heads &&
            r.worktrees.Keys <= o.repo.worktrees.Keys
  {
    var path := JoinPath(dir, branch);
    if path !in r.worktrees {
      var created := EnsureBranch(r, branch);
      EnsureBranchKeepsValid(dir, r, branch);
      if created.result.Success? && !(created.repo.active == Some(branch) || branch in created.repo.worktrees.Values) {
        AddWorktreeKeepsValid(dir, created.repo, branch);
      }
    }
  }

  /** Removing an absent worktree changes nothing. */
  lemma RemoveAbsent(dir: string, r: Repo, branch: string, removable: bool)
    requires JoinPath(dir, branch) !in r.worktrees
    ensures RemoveStep(dir, r, branch, removable) == r
  {
  }

  /** Removing a worktree that was just created, when git agrees, restores
      the worktrees to what they were; the branch created with it stays. */
  lemma RemoveUndoesCreate(dir: string, r: Repo, branch: string)
    requires JoinPath(dir, branch) !in r.worktrees
    requires WorktreeStep(dir, r, branch).result.Success?
    ensures var o := WorktreeStep(dir, r, branch);
            RemoveStep(dir, o.repo, branch, true).worktrees == r.worktrees &&
            RemoveStep(dir, o.repo, branch, true).heads == o.repo.heads
  {
    var o := WorktreeStep(dir, r, branch);
    var path := JoinPath(dir, branch);
    var created := EnsureBranch(r, branch);
    assert created.repo.worktrees == r.worktrees;
    assert o.repo.worktrees == r.worktrees[path := branch];
    assert o.repo.worktrees - {path} == r.worktrees;
  }

  // ---------------------------------------------------------------------
  // Properties of merge_branch
  // ---------------------------------------------------------------------

  /** As written, `merge_branch` raises exactly when no merge was left in
      progress: the checkout failed or the merge refused to start. A
      conflict is aborted and reported as False. */
  lemma MergeAsWrittenRaises(r: Repo, source: string, target: string, attempt: MergeAttempt)
    ensures var o := MergeStepAsWritten(r, source, target, attempt);
            (o.result.Failure? <==> !CheckoutSucceeds(r, target) || attempt == Refused) &&
            (o.result == Success(true) <==> CheckoutSucceeds(r, target) && attempt.Merged?)
  {
  }

  /** The input that shows it: a repository without a "main" head. The
      checkout of "main" fails, and the abort that follows raises. */
  lemma MergeIntoMissingTarget(source: string, attempt: MergeAttempt)
    ensures var r := Repo([Head("feature/x", "c1")], Some("feature/x"), map[]);
            MergeStepAsWritten(r, source, "main", attempt) == Outcome(Failure(NoMergeToAbort), r)
  {
    var r := Repo([Head("feature/x", "c1")], Some("feature/x"), map[]);
    assert Names(r.heads) == ["feature/x"];
    assert "main" != "feature/x";
  }

  /** The intended merge never raises, reports True exactly when the merge
      went through, and otherwise leaves the heads as they were; where the
      code as written returns, both agree. */
  lemma MergeNeverRaises(r: Repo, source: string, target: string, attempt: MergeAttempt)
    ensures var o := MergeStep(r, source, target, attempt);
            o.result.Success? &&
            (o.result.value <==> CheckoutSucceeds(r, target) && attempt.Merged?) &&
            (!o.result.value ==> o.repo.heads == r.heads) &&
            (MergeStepAsWritten(r, source, target, attempt).result.Success? ==>
               MergeStepAsWritten(r, source, target, attempt) == o)
  {
  }

  // ---------------------------------------------------------------------
  // The tools object
  // ---------------------------------------------------------------------

  /** `GitTools`: a repository path, the worktrees directory beneath it, the
      repository state git keeps, and the two file-system facts the set-up
      looks at. */
  class GitTools {
    const repoPath: string
    const worktreesDir: string
    var heads: seq<Head>
    var active: Option<string>
    var worktrees: map<string, string>
    var worktreesDirExists: bool
    var gitignore: Option<string>

    function View(): Repo
      reads this
    {
      Repo(heads, active, worktrees)
    }

    /** `__init__`: the worktrees directory is created when missing, and
        only then is the entry added to an existing `.gitignore`. `repoPath`
        is taken as already absolute. */
    constructor (repoPath: string, repo: Repo, dirExists: bool, gitignore: Option<string>)
      ensures this.repoPath == repoPath && worktreesDir == JoinPath(repoPath, ".worktrees")
      ensures View() == repo && worktreesDirExists
      ensures this.gitignore ==
              if dirExists || gitignore.None? then gitignore else Some(IgnoreWorktrees(gitignore.value))
    {
      this.repoPath := repoPath;
      worktreesDir := JoinPath(repoPath, ".worktrees");
      heads := repo.heads;
      active := repo.active;
      worktrees := repo.worktrees;
      worktreesDirExists := true;
      this.gitignore := gitignore;
      if !dirExists && gitignore.Some? {
        if !Contains(gitignore.value, IgnoreEntry) {
          this.gitignore := Some(gitignore.value + "\n" + IgnoreEntry + "\n");
        }
      }
    }

    /** `list_branches`: exactly the names of the current heads, in the
        model's creation order. */
    function ListBranches(): (names: seq<string>)
      reads this
      ensures |names| == |heads| && forall n :: n in names <==> CommitOf(heads, n).Some?
      ensures forall i :: 0 <= i < |names| ==> names[i] == heads[i].name
    {
      Names(heads)
    }

    method CreateBranch(name: string, base: string) returns (res: Result<string, GitError>)
      modifies this
      ensures Outcome(res, View()) == BranchStep(old(View()), name, base)
      ensures worktreesDirExists == old(worktreesDirExists) && gitignore == old(gitignore)
    {
      if active.None? {
        return Failure(DetachedHead);
      }
      if name in Names(heads) {
        return Success(name);
      }
      var commit := CommitOf(heads, base);
      if commit.None? {
        return Failure(BadRevision(base));
      }
      heads := heads + [Head(name, commit.value)];
      return Success(name);
    }

    method CreateWorktree(branch: string) returns (res: Result<string, GitError>)
      modifies this
      ensures Outcome(res, View()) == WorktreeStep(worktreesDir, old(View()), branch)
      ensures worktreesDirExists == old(worktreesDirExists) && gitignore == old(gitignore)
    {
      var path := JoinPath(worktreesDir, branch);
      if path in worktrees {
        return Success(path);
      }
      if branch !in Names(heads) {
        var created := CreateBranch(branch, "main");
        if created.Failure? {
          return Failure(created.error);
        }
      }
      if active == Some(branch) || branch in worktrees.Values {
        return Failure(AlreadyCheckedOut(branch));
      }
      worktrees := worktrees[path := branch];
      return Success(path);
    }

    method RemoveWorktree(branch: string, removable: bool)
      modifies this
      ensures View() == RemoveStep(worktreesDir, old(View()), branch, removable)
      ensures worktreesDirExists == old(worktreesDirExists) && gitignore == old(gitignore)
    {
      var path := JoinPath(worktreesDir, branch);
      if path in worktrees && removable {
        worktrees := worktrees - {path};
      }
    }

    /** `merge_branch(source, target)` as written: True when the merge went
        through, False after a conflict, and an exception from the abort
        when the checkout failed or the merge refused to start (see
        MergeAsWrittenRaises; the intended behaviour is MergeStep). */
    method MergeBranch(source: string, target: string, attempt: MergeAttempt) returns (res: Result<bool, GitError>)
      modifies this
      ensures Outcome(res, View()) == MergeStepAsWritten(old(View()), source, target, attempt)
      ensures worktreesDirExists == old(worktreesDirExists) && gitignore == old(gitignore)
    {
      if !(target in Names(heads) && target !in worktrees.Values) {
        return Failure(NoMergeToAbort);
      }
      active := Some(target);
      match attempt
      case Merged(c) =>
        heads := SetCommit(heads, target, c);
        return Success(true);
      case Conflicted =>
        return Success(false);
      case Refused =>
        return Failure(NoMergeToAbort);
    }
  }
}
