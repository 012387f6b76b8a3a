/*
 * The git half of a workspace as an object: Git in src/mx/git.py and
 * src/mux/git.py, and the repository part of Workspace in mux.py (rev
 * Script). The object holds the root the repositories are checked out
 * under, the normalised repository list, and every message handed to the
 * logger, in order (the logger's colouring is modelled apart).
 */
module Git {
  import opened Common
  import opened Schema
  import opened Orchestration
  import opened GitRepos
  import opened GitFetch
  import opened GitStatus

  /** The rows of the status table, one per set of cells, in order. */
  function Rows(cells: seq<Cells>): (r: seq<string>)
    ensures |r| == |cells|
    decreases |cells|
  {
    if cells == [] then [] else Rows(cells[..|cells| - 1]) + [Row(cells[|cells| - 1])]
  }

  /** Every row is the row of the cells at its place. */
  lemma {:induction false} RowsAt(cells: seq<Cells>, i: nat)
    requires i < |cells|
    ensures Rows(cells)[i] == Row(cells[i])
    decreases |cells|
  {
    if i < |cells| - 1 {
      RowsAt(cells[..|cells| - 1], i);
    }
  }

  /** The outcome of a loop that may stop at an error. */
  function Finished(failure: Option<Error>): Result<()> {
    match failure
    case None => Ok(())
    case Some(e) => Err(e)
  }

  class Git {
    const rev: Rev
    const host: Host
    /** The directory the repositories are checked out under. */
    const root: string
    var repos: seq<Repo>
    /** Every message handed to the logger, in order. */
    var echoed: seq<string>

    /**
     * The root is the configured dir, or the current directory; the later
     * revision expands `~` in it. The repository list starts empty (the
     * source shares one class-level list between instances).
     */
    constructor (rev: Rev, host: Host, cwd: string, dir: string)
      ensures this.rev == rev && this.host == host
      ensures rev == Mx ==> root == ExpandUser(if dir != "" then dir else cwd, host)
      ensures rev != Mx ==> root == if dir != "" then dir else cwd
      ensures repos == [] && echoed == []
    {
      this.rev := rev;
      this.host := host;
      var root := if dir != "" then dir else cwd;
      if rev == Mx {
        root := ExpandUser(root, host);
      }
      this.root := root;
      repos := [];
      echoed := [];
    }

    /**
     * The collecting loop of the constructor: every configured entry in
     * order, normalised and appended, until one fails.
     */
    method CollectRepos(specs: seq<RepoSpec>) returns (r: Result<()>)
      modifies this`repos
      ensures var c := Collect(rev, old(repos), specs);
        repos == c.repos && r == Finished(c.failure)
    {
      ghost var all := Collect(rev, repos, specs);
      var rest := specs;
      while rest != []
        invariant Collect(rev, repos, rest) == all
        decreases |rest|
      {
        var repo := NormalizeRepo(rev, rest[0]);
        if repo.Err? {
          return Err(repo.error);
        }
        repos := repos + [repo.value];
        rest := rest[1..];
      }
      r := Ok(());
    }

    /**
     * _parse_git_fetch: the reference lines are sorted into the bucket
     * lists, then a message is echoed for created and for updated
     * references when there are any, and one for deletions.
     */
    method ParseFetch(lines: seq<FetchLine>)
      modifies this`echoed
      ensures echoed == old(echoed) + Report(ClassifyAll(NoChanges, lines), BranchColour(rev))
    {
      var branches := Changes([], []);
      var tags := Changes([], []);
      var deleted: seq<string> := [];
      var rest := lines;
      while rest != []
        invariant ClassifyAll(FetchSummary(branches, tags, deleted), rest) == ClassifyAll(NoChanges, lines)
        decreases |rest|
      {
        var line := rest[0];
        var action := ActionOf(line.descriptor);
        if line.descriptor == "deleted" {
          deleted := deleted + [line.remote];
        }
        if Contains(line.descriptor, "tag") {
          tags := Append(tags, action, line.remote);
        } else {
          branches := Append(branches, action, line.remote);
        }
        rest := rest[1..];
      }
      assert FetchSummary(branches, tags, deleted) == ClassifyAll(NoChanges, lines);
      var colour := BranchColour(rev);
      var messages: seq<string> := [];
      if tags.created != [] || branches.created != [] {
        messages := messages + [ActionLine(Created, tags.created, branches.created, colour)];
      }
      if tags.updated != [] || branches.updated != [] {
        messages := messages + [ActionLine(Updated, tags.updated, branches.updated, colour)];
      }
      if deleted != [] {
        messages := messages + [DeletedLine(deleted)];
      }
      echoed := echoed + messages;
    }

    /**
     * The body of the status loop for one repository: the branch state,
     * the three cells read from git, the position (reassigning the
     * upstream held), then the name shown.
     */
    method RepoStatus(repo: Repo, held: Option<string>) returns (cells: Result<Cells>, upstream: Option<string>)
      ensures (cells, upstream) == StatusRow(rev, host, root, repo, held)
    {
      upstream := held;
      if !host.isDir(root) {
        return Err(OSError), upstream;
      }
      if "dir" !in repo {
        return Err(KeyError("dir")), upstream;
      }
      var path := PathJoin(root, repo["dir"]);
      if !host.isDir(path) {
        return Err(OSError), upstream;
      }
      var detached := host.git(path, SymbolicRef).code != 0;
      var output := host.git(path, ShortStat);
      if output.code != 0 {
        return Err(ProcessError(output.code, output.output)), upstream;
      }
      var modified := ModifiedCellAsWritten(output.output);
      output := host.git(path, OtherFiles);
      if output.code != 0 {
        return Err(ProcessError(output.code, output.output)), upstream;
      }
      var untracked := UntrackedCell(output.output);
      output := host.git(path, LastCommit);
      if output.code != 0 {
        return Err(ProcessError(output.code, output.output)), upstream;
      }
      var current := Strip(output.output);
      var position := "detach";
      if !detached {
        output := host.git(path, HeadBranch);
        if output.code != 0 {
          return Err(ProcessError(output.code, output.output)), upstream;
        }
        var branch := Strip(output.output);
        var u := Upstream(rev, branch, host.git(path, UpstreamBranch), upstream);
        if u.Err? {
          return Err(u.error), upstream;
        }
        upstream := Some(u.value);
        output := host.git(path, RevList(branch, u.value));
        if output.code == 0 {
          position := PositionCell(CountChar(output.output, '<'), CountChar(output.output, '>'));
        } else if rev == Mx {
          position := "n/a";
        } else {
          return Err(ProcessError(output.code, output.output)), upstream;
        }
      }
      var name := DisplayName(rev, repo);
      if name.Err? {
        return Err(name.error), upstream;
      }
      cells := Ok(Cells(name.value, modified, untracked, position, current));
    }

    /**
     * The repository loop of status: the cells of each repository in
     * order, the upstream of one carried to the next, until one fails.
     */
    method TableRows() returns (rows: seq<Cells>, r: Result<()>)
      ensures var run := StatusLoop(StatusStep(rev, host, root), [], None, repos);
        rows == run.rows && r == Finished(run.failure)
    {
      ghost var step := StatusStep(rev, host, root);
      ghost var all := StatusLoop(step, [], None, repos);
      rows := [];
      var upstream: Option<string> := None;
      var rest := repos;
      while rest != []
        invariant StatusLoop(step, rows, upstream, rest) == all
        decreases |rest|
      {
        var cells, held := RepoStatus(rest[0], upstream);
        StatusStepApply(rev, host, root, rest[0], upstream);
        match cells
        case Err(e) =>
          StatusLoopStop(step, rows, upstream, rest, e, held);
          return rows, Err(e);
        case Ok(c) =>
          StatusLoopStep(step, rows, upstream, rest, c, held);
          rows := rows + [c];
          upstream := held;
          rest := rest[1..];
      }
      r := Ok(());
    }

    /**
     * status: the session line, then one row per repository until one
     * fails. `on` is the answer of has_session for the session's name.
     */
    method Status(sessionName: string, on: bool) returns (r: Result<()>)
      modifies this`echoed
      ensures var run := StatusLoop(StatusStep(rev, host, root), [], None, repos);
        echoed == old(echoed) + [SessionLine(sessionName, on)] + Rows(run.rows) && r == Finished(run.failure)
    {
      var rows;
      rows, r := TableRows();
      echoed := echoed + [SessionLine(sessionName, on)] + Rows(rows);
    }
  }

  /**
   * In the two packages the table holds, for each repository in order,
   * the row of that repository on its own, up to the first one that
   * fails; mux.py carries the upstream from one repository to the next.
   */
  lemma StatusTable(rev: Rev, host: Host, root: string, repos: seq<Repo>, i: nat)
    requires rev != Script
    requires i < |StatusLoop(StatusStep(rev, host, root), [], None, repos).rows|
    ensures var run := StatusLoop(StatusStep(rev, host, root), [], None, repos);
      i < |repos| && StatusRow(rev, host, root, repos[i], None).0.Ok?
      && Rows(run.rows)[i] == Row(StatusRow(rev, host, root, repos[i], None).0.value)
  {
    var step := StatusStep(rev, host, root);
    StatusStepMemoryless(rev, host, root);
    StatusLoopRows(step, [], None, repos);
    RowsAt(StatusLoop(step, [], None, repos).rows, i);
  }
}
