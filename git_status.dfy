/*
 * The status table (Git.status in src/mx/git.py and src/mux/git.py, and
 * Workspace.status in mux.py): one row per repository with its name, the
 * number of changed files, the number of untracked files, how far the
 * branch is ahead of and behind its upstream, and the last commit.
 *
 * git is the `git` field of the host: an argument list run in a directory
 * gives an exit status and an output. The regular expressions of the
 * source are written out as the string functions they amount to.
 */
module GitStatus {
  import opened Common
  import opened Schema
  import opened Orchestration
  import opened GitRepos

  // ---------------------------------------------------------------------
  // The git commands a row is built from

  const SymbolicRef: seq<string> := ["git", "symbolic-ref", "-q", "HEAD"]
  const ShortStat: seq<string> := ["git", "diff", "--shortstat"]
  const OtherFiles: seq<string> := ["git", "ls-files", "--others", "--exclude-standard"]
  const LastCommit: seq<string> := ["git", "log", "-1", "--color=always", "--format=%C(auto)%D %C(black bold)(%aN %ar)%Creset"]
  const HeadBranch: seq<string> := ["git", "rev-parse", "--abbrev-ref", "HEAD"]
  const UpstreamBranch: seq<string> := ["git", "rev-parse", "--abbrev-ref", "@{upstream}"]

  function RevList(branch: string, upstream: string): seq<string> {
    ["git", "rev-list", "--left-right", branch, "...", upstream]
  }

  // ---------------------------------------------------------------------
  // The modified cell

  /** The run of decimal digits a text starts with. */
  function LeadingDigits(s: string): (d: string)
    ensures StartsWith(s, d)
    ensures forall i :: 0 <= i < |d| ==> IsDigit(d[i])
    ensures |d| < |s| ==> !IsDigit(s[|d|])
    decreases |s|
  {
    if s != [] && IsDigit(s[0]) then [s[0]] + LeadingDigits(s[1..]) else []
  }

  /** Digits followed by a non-digit are read up to the non-digit. */
  lemma {:induction false} LeadingDigitsOf(d: string, rest: string)
    requires forall i :: 0 <= i < |d| ==> IsDigit(d[i])
    requires rest == [] || !IsDigit(rest[0])
    ensures LeadingDigits(d + rest) == d
    decreases |d|
  {
    if d != [] {
      assert (d + rest)[1..] == d[1..] + rest;
      LeadingDigitsOf(d[1..], rest);
    }
  }

  /**
   * `re.match(r'^\s*(\d)', shortstat)` as written: ≠ and the one digit after
   * the leading whitespace; the cell the status table shows, which always
   * fits its three-place column.
   */
  function ModifiedCellAsWritten(shortstat: string): (r: string)
    ensures r == "" || (|r| == 2 && r[0] == '\U{2260}' && IsDigit(r[1]) && r[1] in shortstat)
    ensures r == "" <==> (LStrip(shortstat) == [] || !IsDigit(LStrip(shortstat)[0]))
  {
    var t := LStrip(shortstat);
    LStripSpec(shortstat);
    assert t != [] ==> t[0] == shortstat[|shortstat| - |t|];
    if t != [] && IsDigit(t[0]) then "\U{2260}" + [t[0]] else ""
  }

  /** The cell as evidently intended: ≠ and the whole number of changed files. */
  function ModifiedCell(shortstat: string): string {
    var d := LeadingDigits(LStrip(shortstat));
    if d != [] then "\U{2260}" + d else ""
  }

  /** Leading blanks are dropped by lstrip and nothing after them. */
  lemma {:induction false} LStripSpaces(k: nat, t: string)
    requires t == [] || !IsSpace(t[0])
    ensures LStrip(Spaces(k) + t) == t
    decreases k
  {
    if k > 0 {
      assert (Spaces(k) + t)[1..] == Spaces(k - 1) + t;
      LStripSpaces(k - 1, t);
    }
  }

  /** git's `N files changed, ...` line gives the cell ≠N, whatever the number of files. */
  lemma ModifiedCellCounts(k: nat, n: nat, rest: string)
    requires rest == [] || !IsDigit(rest[0])
    ensures ModifiedCell(Spaces(k) + NatToString(n) + rest) == "\U{2260}" + NatToString(n)
  {
    var d := NatToString(n);
    assert Spaces(k) + d + rest == Spaces(k) + (d + rest);
    assert IsDigit(d[0]) && (d + rest)[0] == d[0];
    LStripSpaces(k, d + rest);
    LeadingDigitsOf(d, rest);
  }

  /** The pattern as written keeps only the first digit of the number. */
  lemma ModifiedCellAsWrittenFirstDigit(k: nat, n: nat, rest: string)
    ensures ModifiedCellAsWritten(Spaces(k) + NatToString(n) + rest) == "\U{2260}" + [NatToString(n)[0]]
  {
    var d := NatToString(n);
    assert Spaces(k) + d + rest == Spaces(k) + (d + rest);
    LStripSpaces(k, d + rest);
  }

  /** With twelve changed files the table shows ≠1 where ≠12 was meant. */
  lemma ModifiedCellAsWrittenTwelve(shortstat: string)
    requires shortstat == " 12 files changed"
    ensures ModifiedCellAsWritten(shortstat) == "\U{2260}1"
    ensures ModifiedCell(shortstat) == "\U{2260}12"
  {
    var rest := TwelveParts(shortstat);
    ModifiedCellAsWrittenFirstDigit(1, 12, rest);
    ModifiedCellCounts(1, 12, rest);
  }

  /** ` 12 files changed` is one blank, the number 12, then text that starts with a blank. */
  lemma TwelveParts(shortstat: string) returns (rest: string)
    requires shortstat == " 12 files changed"
    ensures shortstat == Spaces(1) + NatToString(12) + rest && rest[0] == ' '
    ensures NatToString(12) == "12"
  {
    rest := shortstat[3..];
    assert NatToString(12) == "12" by {
      assert NatToString(1) == "1";
    }
    assert shortstat == Spaces(1) + NatToString(12) + rest;
  }

  /** Below ten files the two readings agree; from ten on they always differ. */
  lemma ModifiedCellAgreement(k: nat, n: nat, rest: string)
    requires rest == [] || !IsDigit(rest[0])
    ensures var s := Spaces(k) + NatToString(n) + rest;
      ModifiedCellAsWritten(s) == ModifiedCell(s) <==> n < 10
  {
    ModifiedCellAsWrittenFirstDigit(k, n, rest);
    ModifiedCellCounts(k, n, rest);
    if n >= 10 {
      assert |NatToString(n)| >= 2 by {
        assert NatToString(n) == NatToString(n / 10) + [DigitChar(n % 10)];
      }
      assert |"\U{2260}" + [NatToString(n)[0]]| != |"\U{2260}" + NatToString(n)|;
    }
  }

  /** Both readings show a cell for exactly the same outputs. */
  lemma ModifiedCellShown(shortstat: string)
    ensures ModifiedCell(shortstat) == "" <==> ModifiedCellAsWritten(shortstat) == ""
  {
  }

  // ---------------------------------------------------------------------
  // The untracked cell

  /** `len(listing.split('\n')) - 1`, shown as ?N when positive. */
  function UntrackedCell(listing: string): string {
    var n := |Split(listing, '\n')| - 1;
    if n > 0 then "?" + NatToString(n) else ""
  }

  /** The number shown is the number of line breaks in the listing. */
  lemma UntrackedCellCounts(listing: string)
    ensures var n := CountChar(listing, '\n');
      UntrackedCell(listing) == if n > 0 then "?" + NatToString(n) else ""
  {
    SplitLength(listing, '\n');
  }

  /** git's listing of N untracked files, one per line, shows ?N; no files show nothing. */
  lemma UntrackedCellFiles(names: seq<string>)
    requires forall i :: 0 <= i < |names| ==> '\n' !in names[i] && names[i] != ""
    ensures UntrackedCell(if names == [] then "" else Join(names, "\n") + "\n")
         == if names == [] then "" else "?" + NatToString(|names|)
  {
    if names != [] {
      var parts := names + [""];
      JoinSnoc(names, "", "\n");
      assert Join(parts, "\n") == Join(names, "\n") + "\n";
      SplitJoin(parts, '\n');
    }
  }

  // ---------------------------------------------------------------------
  // The position cell

  /** A count behind its mark, or nothing when the count is zero. */
  function Marked(mark: char, n: nat): string {
    if n > 0 then [mark] + NatToString(n) else ""
  }

  /** ▲ahead▼behind, each part left out when it is zero. */
  function PositionCell(ahead: nat, behind: nat): string {
    Marked('\U{25B2}', ahead) + Marked('\U{25BC}', behind)
  }

  /** Reading one marked count off the front of a text: the count (zero when the mark is absent) and what follows. */
  function ReadMarked(mark: char, p: string): (nat, string) {
    if p != [] && p[0] == mark then
      var d := LeadingDigits(p[1..]);
      (ParseDigits(d), p[1 + |d|..])
    else (0, p)
  }

  /** The reading of a position cell: the number after ▲ and the number after ▼, zero where absent. */
  function ReadPosition(p: string): (nat, nat) {
    var (ahead, rest) := ReadMarked('\U{25B2}', p);
    (ahead, ReadMarked('\U{25BC}', rest).0)
  }

  /** A marked count reads back, leaving the text after it, when that text does not start with a digit or the mark. */
  lemma ReadMarkedCount(mark: char, n: nat, rest: string)
    requires !IsDigit(mark)
    requires rest == [] || (!IsDigit(rest[0]) && rest[0] != mark)
    ensures ReadMarked(mark, Marked(mark, n) + rest) == (n, rest)
  {
    if n > 0 {
      var d := NatToString(n);
      var p := [mark] + d + rest;
      assert p[1..] == d + rest;
      LeadingDigitsOf(d, rest);
      ParseNatToString(n);
      assert p[1 + |d|..] == rest;
    } else {
      assert Marked(mark, n) + rest == rest;
    }
  }

  /** The cell loses nothing: both counts can be read back from it. */
  lemma ReadPositionCell(ahead: nat, behind: nat)
    ensures ReadPosition(PositionCell(ahead, behind)) == (ahead, behind)
  {
    var right := Marked('\U{25BC}', behind);
    ReadMarkedCount('\U{25B2}', ahead, right);
    ReadMarkedCount('\U{25BC}', behind, "");
    assert right + "" == right;
  }

  /** An empty cell means level with the upstream. */
  lemma PositionCellLevel(ahead: nat, behind: nat)
    ensures PositionCell(ahead, behind) == "" <==> ahead == 0 && behind == 0
  {
  }

  // ---------------------------------------------------------------------
  // Tracking: the upstream and the position of a branch that is checked out

  /**
   * The upstream the branch is compared with. The later revision takes
   * the query's answer, or `origin/<branch>` when the query fails. The
   * earlier package also falls back when the answer is empty. mux.py
   * falls back only on an empty value; when the query fails it uses the
   * value held over from an earlier repository, and has none to use for
   * the first.
   */
  function Upstream(rev: Rev, branch: string, query: ProcReply, previous: Option<string>): (r: Result<string>)
    ensures r.Err? <==> rev == Script && query.code != 0 && previous.None?
  {
    var fallback := "origin/" + branch;
    match rev
    case Mx => Ok(if query.code == 0 then Strip(query.output) else fallback)
    case Mux => Ok(if query.code == 0 && Strip(query.output) != "" then Strip(query.output) else fallback)
    case Script =>
      var held := if query.code == 0 then Some(Strip(query.output)) else previous;
      match held
      case None => Err(UnboundLocal("upstream"))
      case Some(u) => Ok(if u != "" then u else fallback)
  }

  /** Without an upstream configured, both packages compare with `origin/<branch>`. */
  lemma UpstreamFallback(rev: Rev, branch: string, query: ProcReply, previous: Option<string>)
    requires rev != Script && query.code != 0
    ensures Upstream(rev, branch, query, previous) == Ok("origin/" + branch)
  {
  }

  /** mux.py compares a repository without an upstream with the upstream of the one before it. */
  lemma UpstreamHeldOver(branch: string, query: ProcReply, u: string)
    requires query.code != 0 && u != ""
    ensures Upstream(Script, branch, query, Some(u)) == Ok(u)
  {
  }

  /**
   * The position of a checked-out branch and the upstream held afterwards:
   * the branch name, its upstream, then the left/right commit listing,
   * whose `<` and `>` count the commits ahead and behind. A failing listing
   * shows `n/a` in the later revision and escapes in the earlier ones.
   */
  function Tracking(rev: Rev, host: Host, path: string, previous: Option<string>): (r: (Result<string>, Option<string>))
  {
    var head := host.git(path, HeadBranch);
    if head.code != 0 then (Err(ProcessError(head.code, head.output)), previous)
    else
      var branch := Strip(head.output);
      var upstream := Upstream(rev, branch, host.git(path, UpstreamBranch), previous);
      if upstream.Err? then (Err(upstream.error), previous)
      else
        var list := host.git(path, RevList(branch, upstream.value));
        var position :=
          if list.code == 0 then Ok(PositionCell(CountChar(list.output, '<'), CountChar(list.output, '>')))
          else if rev == Mx then Ok("n/a")
          else Err(ProcessError(list.code, list.output));
        (position, Some(upstream.value))
  }

  // ---------------------------------------------------------------------
  // A row of the table

  /** The name shown: the repository's name, or in the later revision its directory when that is not the name's second segment. */
  function DisplayName(rev: Rev, repo: Repo): (r: Result<string>)
    requires "dir" in repo
    ensures r.Ok? ==> "name" in repo && (r.value == repo["name"] || r.value == repo["dir"])
    ensures r.Err? <==> "name" !in repo || (rev == Mx && Field(repo["name"], '/', 1).None?)
  {
    if "name" !in repo then Err(KeyError("name"))
    else if rev != Mx then Ok(repo["name"])
    else match Field(repo["name"], '/', 1)
      case None => Err(IndexError)
      case Some(second) => Ok(if second != repo["dir"] then repo["dir"] else repo["name"])
  }

  /** A repository configured as an `owner/repo` string is shown under that string. */
  lemma DisplayNameOfNamed(rev: Rev, name: string)
    requires NormalizeRepo(rev, Named(name)).Ok?
    ensures var repo := NormalizeRepo(rev, Named(name)).value;
      "dir" in repo && DisplayName(rev, repo) == Ok(name)
  {
  }

  /** A mapping checked out under another directory is shown under that directory. */
  lemma DisplayNameOfCheckout(repo: Repo)
    requires "dir" in repo && "name" in repo
    requires Field(repo["name"], '/', 1).Some? && Field(repo["name"], '/', 1).value != repo["dir"]
    ensures DisplayName(Mx, repo) == Ok(repo["dir"])
  {
  }

  /** The five cells of a row. */
  datatype Cells = Cells(name: string, modified: string, untracked: string, position: string, current: string)

  /** The white, right-aligned name column. */
  function NameColumn(name: string): string {
    "   [white]" + PadLeft(name, 30)
  }

  /** The three coloured count columns, each padded to its width. */
  function CountColumns(modified: string, untracked: string, position: string): string {
    " " + " [boldred]" + PadRight(modified, 3) + " [boldblue]" + PadRight(untracked, 3)
    + " [boldmagenta]" + PadRight(position, 7) + " [reset]"
  }

  /** The row echoed for one repository. */
  function Row(c: Cells): string {
    NameColumn(c.name) + CountColumns(c.modified, c.untracked, c.position) + c.current
  }

  /** The name column is 40 places wide and ends with the name. */
  lemma NameColumnWidth(name: string)
    requires |name| <= 30
    ensures |NameColumn(name)| == 40 && NameColumn(name)[40 - |name|..] == name
  {
    var pad := PadLeft(name, 30);
    assert |"   [white]"| == 10;
    assert NameColumn(name)[10..] == pad;
    assert pad[30 - |name|..] == name;
  }

  /** Counts that fit their columns make the middle of the row 57 places wide. */
  lemma CountColumnsWidth(modified: string, untracked: string, position: string)
    requires |modified| <= 3 && |untracked| <= 3 && |position| <= 7
    ensures |CountColumns(modified, untracked, position)| == 57
  {
    assert |" [boldred]"| == 10 && |" [boldblue]"| == 11 && |" [boldmagenta]"| == 14 && |" [reset]"| == 8;
    assert |PadRight(modified, 3)| == 3 && |PadRight(untracked, 3)| == 3 && |PadRight(position, 7)| == 7;
  }

  /** Three columns of widths 40, 57 and any, the first ending with a name. */
  lemma Columns(n: string, m: string, current: string, name: string)
    requires |n| == 40 && |m| == 57 && |name| <= 30 && n[40 - |name|..] == name
    ensures |n + m + current| == 97 + |current|
    ensures (n + m + current)[40 - |name|..40] == name
    ensures (n + m + current)[97..] == current
  {
    assert (n + m + current)[40 - |name|..40] == n[40 - |name|..];
  }

  /** Cells that fit their columns give rows of one width, the name right-aligned in the first 40 places. */
  lemma RowAligned(c: Cells)
    requires |c.name| <= 30 && |c.modified| <= 3 && |c.untracked| <= 3 && |c.position| <= 7
    ensures |Row(c)| == 97 + |c.current|
    ensures Row(c)[40 - |c.name|..40] == c.name
    ensures Row(c)[97..] == c.current
  {
    NameColumnWidth(c.name);
    CountColumnsWidth(c.modified, c.untracked, c.position);
    Columns(NameColumn(c.name), CountColumns(c.modified, c.untracked, c.position), c.current, c.name);
  }

  /** What is read from a checkout before its position: whether HEAD is detached, the diff summary, the untracked files and the last commit. */
  datatype Readings = Readings(path: string, detached: bool, stat: string, files: string, log: string)

  /**
   * The reads that come first for one repository: the root and the
   * checkout must be directories, then the branch state is asked (its
   * failure means detached) and the three outputs are read, a failing one
   * escaping. Nothing here depends on an earlier repository.
   */
  function Read(host: Host, root: string, repo: Repo): (r: Result<Readings>)
    ensures r.Ok? ==> "dir" in repo && r.value.path == PathJoin(root, repo["dir"])
  {
    if !host.isDir(root) then Err(OSError)
    else if "dir" !in repo then Err(KeyError("dir"))
    else
      var path := PathJoin(root, repo["dir"]);
      if !host.isDir(path) then Err(OSError)
      else
        var stat := host.git(path, ShortStat);
        var files := host.git(path, OtherFiles);
        var log := host.git(path, LastCommit);
        if stat.code != 0 then Err(ProcessError(stat.code, stat.output))
        else if files.code != 0 then Err(ProcessError(files.code, files.output))
        else if log.code != 0 then Err(ProcessError(log.code, log.output))
        else Ok(Readings(path, host.git(path, SymbolicRef).code != 0, stat.output, files.output, log.output))
  }

  /** The position cell of a checkout, `detach` when HEAD is detached, and the upstream held afterwards. */
  function Position(rev: Rev, host: Host, r: Readings, previous: Option<string>): (Result<string>, Option<string>) {
    if r.detached then (Ok("detach"), previous) else Tracking(rev, host, r.path, previous)
  }

  /** The cells once the position is known: the name shown, the counts (the modified cell as written) and the last commit stripped. */
  function Fill(rev: Rev, repo: Repo, r: Readings, position: Result<string>): Result<Cells>
    requires "dir" in repo
  {
    if position.Err? then Err(position.error)
    else
      var name := DisplayName(rev, repo);
      if name.Err? then Err(name.error)
      else Ok(Cells(name.value, ModifiedCellAsWritten(r.stat), UntrackedCell(r.files), position.value, Strip(r.log)))
  }

  /** One repository's cells, and the upstream held afterwards. */
  function StatusRow(rev: Rev, host: Host, root: string, repo: Repo, previous: Option<string>): (Result<Cells>, Option<string>)
  {
    match Read(host, root, repo)
    case Err(e) => (Err(e), previous)
    case Ok(r) =>
      var position := Position(rev, host, r, previous);
      (Fill(rev, repo, r, position.0), position.1)
  }

  /** A detached checkout shows `detach` and leaves the held upstream alone. */
  lemma DetachedRow(rev: Rev, host: Host, root: string, repo: Repo, previous: Option<string>)
    requires host.isDir(root) && "dir" in repo && host.isDir(PathJoin(root, repo["dir"]))
    requires host.git(PathJoin(root, repo["dir"]), SymbolicRef).code != 0
    ensures StatusRow(rev, host, root, repo, previous).1 == previous
    ensures StatusRow(rev, host, root, repo, previous).0.Ok? ==> StatusRow(rev, host, root, repo, previous).0.value.position == "detach"
  {
  }

  /** In the two packages the tracking part does not depend on any earlier repository. */
  lemma TrackingIndependent(rev: Rev, host: Host, path: string, p: Option<string>, q: Option<string>)
    requires rev != Script
    ensures Tracking(rev, host, path, p).0 == Tracking(rev, host, path, q).0
  {
  }

  /** In the two packages a row does not depend on any earlier repository. */
  lemma StatusRowIndependent(rev: Rev, host: Host, root: string, repo: Repo, p: Option<string>, q: Option<string>)
    requires rev != Script
    ensures StatusRow(rev, host, root, repo, p).0 == StatusRow(rev, host, root, repo, q).0
  {
    var r := Read(host, root, repo);
    if r.Ok? {
      TrackingIndependent(rev, host, r.value.path, p, q);
      assert Position(rev, host, r.value, p).0 == Position(rev, host, r.value, q).0;
    }
  }

  /** The later revision shows `n/a` where the commit listing fails; the earlier ones fail with it. */
  lemma ListingFailure(rev: Rev, host: Host, path: string, previous: Option<string>)
    requires host.git(path, HeadBranch).code == 0
    requires var branch := Strip(host.git(path, HeadBranch).output);
      var u := Upstream(rev, branch, host.git(path, UpstreamBranch), previous);
      u.Ok? && host.git(path, RevList(branch, u.value)).code != 0
    ensures rev == Mx ==> Tracking(rev, host, path, previous).0 == Ok("n/a")
    ensures rev != Mx ==> Tracking(rev, host, path, previous).0.Err?
  {
  }

  // ---------------------------------------------------------------------
  // The table

  /** The session line that heads the table. */
  function SessionLine(name: string, on: bool): string {
    " [blue]::[reset] Session [boldyellow]" + name + "[reset]: " + (if on then "[boldgreen]on" else "[boldred]off")
  }

  /** One repository's cells from the upstream held so far. */
  type RowStep = (Repo, Option<string>) -> (Result<Cells>, Option<string>)

  function StatusStep(rev: Rev, host: Host, root: string): RowStep {
    (repo: Repo, previous: Option<string>) => StatusRow(rev, host, root, repo, previous)
  }

  lemma StatusStepApply(rev: Rev, host: Host, root: string, repo: Repo, previous: Option<string>)
    ensures StatusStep(rev, host, root)(repo, previous) == StatusRow(rev, host, root, repo, previous)
  {
  }

  /** The rows made so far, the upstream held, and the error that ended the loop, if any. */
  datatype StatusRun = StatusRun(rows: seq<Cells>, upstream: Option<string>, failure: Option<Error>)

  /** The repository loop of status from the rows already echoed. */
  function StatusLoop(step: RowStep, rows: seq<Cells>, upstream: Option<string>, repos: seq<Repo>): StatusRun
    decreases |repos|
  {
    if repos == [] then StatusRun(rows, upstream, None)
    else
      var st := step(repos[0], upstream);
      if st.0.Err? then StatusRun(rows, st.1, Some(st.0.error))
      else StatusLoop(step, rows + [st.0.value], st.1, repos[1..])
  }

  /** One more repository whose row is made: the loop goes on from it. */
  lemma StatusLoopStep(step: RowStep, rows: seq<Cells>, upstream: Option<string>, repos: seq<Repo>, cells: Cells, held: Option<string>)
    requires repos != [] && step(repos[0], upstream) == (Ok(cells), held)
    ensures StatusLoop(step, rows, upstream, repos) == StatusLoop(step, rows + [cells], held, repos[1..])
  {
  }

  /** A repository that fails ends the loop with its error. */
  lemma StatusLoopStop(step: RowStep, rows: seq<Cells>, upstream: Option<string>, repos: seq<Repo>, e: Error, held: Option<string>)
    requires repos != [] && step(repos[0], upstream) == (Err(e), held)
    ensures StatusLoop(step, rows, upstream, repos) == StatusRun(rows, held, Some(e))
  {
  }

  /** A step whose cells do not depend on the upstream held. */
  ghost predicate Memoryless(step: RowStep) {
    forall repo, p, q :: step(repo, p).0 == step(repo, q).0
  }

  /** In the two packages the step of the loop is such a step. */
  lemma StatusStepMemoryless(rev: Rev, host: Host, root: string)
    requires rev != Script
    ensures Memoryless(StatusStep(rev, host, root))
  {
    forall repo, p, q {
      StatusRowIndependent(rev, host, root, repo, p, q);
    }
  }

  /**
   * With such a step the loop appends one row per repository, each the row
   * of that repository taken alone, and stops at the first repository that
   * fails, with its error.
   */
  lemma {:induction false} StatusLoopRows(step: RowStep, rows: seq<Cells>, upstream: Option<string>, repos: seq<Repo>)
    requires Memoryless(step)
    ensures var run := StatusLoop(step, rows, upstream, repos);
      && |rows| <= |run.rows| <= |rows| + |repos| && run.rows[..|rows|] == rows
      && (forall i :: |rows| <= i < |run.rows| ==>
            step(repos[i - |rows|], None).0 == Ok(run.rows[i]))
      && (run.failure.None? <==> |run.rows| == |rows| + |repos|)
      && (run.failure.Some? ==> step(repos[|run.rows| - |rows|], None).0 == Err(run.failure.value))
    decreases |repos|
  {
    if repos != [] {
      var st := step(repos[0], upstream);
      assert st.0 == step(repos[0], None).0;
      if st.0.Ok? {
        var more := rows + [st.0.value];
        StatusLoopRows(step, more, st.1, repos[1..]);
        var run := StatusLoop(step, more, st.1, repos[1..]);
        assert run.rows[..|rows|] == run.rows[..|more|][..|rows|];
        forall i | |rows| <= i < |run.rows|
          ensures step(repos[i - |rows|], None).0 == Ok(run.rows[i])
        {
          if i == |rows| {
            assert run.rows[i] == run.rows[..|more|][i];
          } else {
            assert repos[1..][i - |more|] == repos[i - |rows|];
          }
        }
        if run.failure.Some? {
          assert repos[1..][|run.rows| - |more|] == repos[|run.rows| - |rows|];
        }
      }
    }
  }
}
