/*
 * The workspace of the `mx` package (src/mx/workspace.py): reading the
 * configuration, starting a workspace (directory check, pre-flight
 * commands, one tmux window per configured window, then attach), stopping,
 * attaching and listing a session, and deriving a configuration from a
 * directory of git checkouts.
 *
 * Every method is proved to hand tmux exactly the commands the
 * orchestration functions describe, and to return what they return.
 */
module MxWorkspace {
  import opened Common
  import opened Tmux
  import opened Schema
  import opened Orchestration

  /** The parsed workspace file; "" stands for an absent name, dir or venv. */
  datatype Config = Config(name: string, dir: string, venv: string, commands: seq<string>, windows: Yaml)

  // ---------------------------------------------------------------------
  // Pre-flight commands

  /** The message of the WorkspaceException a failing pre-flight command raises. */
  function PreflightMessage(code: int, cmd: string): string {
    "Error " + IntToString(code) + " while running `" + cmd + "`"
  }

  /** The pre-flight commands, run in dir in order until one exits non-zero: the commands run, and the outcome. */
  function Preflight(shell: (string, string) -> ProcReply, dir: string, cmds: seq<string>): (r: (seq<string>, Result<()>))
    decreases |cmds|
  {
    if cmds == [] then ([], Ok(()))
    else
      var reply := shell(dir, cmds[0]);
      if reply.code != 0 then ([cmds[0]], Err(WorkspaceError(PreflightMessage(reply.code, cmds[0]), reply.output)))
      else
        var rest := Preflight(shell, dir, cmds[1..]);
        ([cmds[0]] + rest.0, rest.1)
  }

  /** The pre-flight gate opens exactly when every command exits 0, and then every command has run. */
  lemma {:induction false} PreflightPasses(shell: (string, string) -> ProcReply, dir: string, cmds: seq<string>)
    ensures Preflight(shell, dir, cmds).1.Ok? <==> forall i :: 0 <= i < |cmds| ==> shell(dir, cmds[i]).code == 0
    ensures Preflight(shell, dir, cmds).1.Ok? ==> Preflight(shell, dir, cmds).0 == cmds
    decreases |cmds|
  {
    if cmds != [] {
      PreflightPasses(shell, dir, cmds[1..]);
      assert forall i :: 1 <= i < |cmds| ==> cmds[i] == cmds[1..][i - 1];
      assert [cmds[0]] + cmds[1..] == cmds;
    }
  }

  /** Otherwise the first failing command is the last one run, and its status, text and output make the error. */
  lemma {:induction false} PreflightStops(shell: (string, string) -> ProcReply, dir: string, cmds: seq<string>) returns (k: nat)
    requires Preflight(shell, dir, cmds).1.Err?
    ensures k < |cmds| && Preflight(shell, dir, cmds).0 == cmds[..k + 1]
    ensures forall i :: 0 <= i < k ==> shell(dir, cmds[i]).code == 0
    ensures shell(dir, cmds[k]).code != 0
    ensures Preflight(shell, dir, cmds).1
         == Err(WorkspaceError(PreflightMessage(shell(dir, cmds[k]).code, cmds[k]), shell(dir, cmds[k]).output))
    decreases |cmds|
  {
    if shell(dir, cmds[0]).code != 0 {
      k := 0;
    } else {
      var j := PreflightStops(shell, dir, cmds[1..]);
      k := j + 1;
      assert cmds[..k + 1] == [cmds[0]] + cmds[1..][..j + 1];
      assert forall i :: 1 <= i < k ==> cmds[i] == cmds[1..][i - 1];
    }
  }

  /** Prefixes the commands already run to what the rest of the gate does. */
  function AfterCommands(ran: seq<string>, rest: (seq<string>, Result<()>)): (seq<string>, Result<()>) {
    (ran + rest.0, rest.1)
  }

  // ---------------------------------------------------------------------
  // Attaching and listing

  /** attach: nothing for an empty name, else the verb the gateway's written TMUX check picks. */
  function AttachRun(b: Backend, log: seq<Argv>, session: string): (r: (seq<Argv>, Result<()>))
    ensures session == "" <==> r.0 == []
  {
    if session == "" then ([], Ok(()))
    else
      var argv := AttachArgv(session, WithinSessionAsWritten(b.tmuxVar));
      ([argv], if Interpret(b, b.server(log, argv), false).Err? then Err(Interpret(b, b.server(log, argv), false).error) else Ok(()))
  }

  /** json.loads keeps the last of duplicate keys: the value of the last field named key. */
  function JsonGet(fields: seq<(string, string)>, key: string): (r: Option<string>)
    ensures r.Some? ==> exists i :: 0 <= i < |fields| && fields[i] == (key, r.value)
    decreases |fields|
  {
    if fields == [] then None
    else if fields[|fields| - 1].0 == key then Some(fields[|fields| - 1].1)
    else JsonGet(fields[..|fields| - 1], key)
  }

  /** What `for window in windows` iterates over: the listed records (nothing when tmux printed nothing). */
  function Listed(o: Output): Result<seq<Json>> {
    match o
    case NoOutput => Ok([])
    case Parsed(List(items)) => Ok(items)
    case Parsed(Record(fields)) => if fields == [] then Ok([]) else Err(TypeError)
    case Parsed(Text(t)) => if t == "" then Ok([]) else Err(TypeError)
  }

  /** `window['window_id']` */
  function WindowId(item: Json): Result<string> {
    match item
    case Record(fields) => if JsonGet(fields, "window_id").Some? then Ok(JsonGet(fields, "window_id").value) else Err(KeyError("window_id"))
    case _ => Err(TypeError)
  }

  /** One window of the list-panes loop of ls: its id, then its listing, which must come without errors. */
  function ListingStep(b: Backend, f: Formats, log: seq<Argv>, session: string, item: Json): (r: (seq<Argv>, Result<Output>))
    ensures r.1.Ok? ==> WindowId(item).Ok? && r.0 == [ListPanesArgv(f, session, WindowId(item).value)]
  {
    match WindowId(item)
    case Err(e) => ([], Err(e))
    case Ok(id) =>
      var argv := ListPanesArgv(f, session, id);
      match Interpret(b, b.server(log, argv), true)
      case Err(e) => ([argv], Err(e))
      case Ok((panes, errors)) =>
        ([argv], if errors != "" then Err(WorkspaceError("Unable to list panes", errors)) else Ok(panes))
  }

  /** The list-panes loop of ls: one listing per window, stopping at the first window without an id or listing with errors. */
  function PaneListings(b: Backend, f: Formats, log: seq<Argv>, session: string, items: seq<Json>): (r: (seq<Argv>, Result<seq<Output>>))
    ensures r.1.Ok? ==> |r.0| == |items| && |r.1.value| == |items|
    decreases |items|
  {
    if items == [] then ([], Ok([]))
    else
      var (d1, r1) := ListingStep(b, f, log, session, items[0]);
      if r1.Err? then (d1, Err(r1.error))
      else
        var rest := PaneListings(b, f, log + d1, session, items[1..]);
        (d1 + rest.0, if rest.1.Err? then rest.1 else Ok([r1.value] + rest.1.value))
  }

  /** A successful listing lists the panes of every window, by its id, in the order the windows were listed. */
  lemma {:induction false} PaneListingsTargets(b: Backend, f: Formats, log: seq<Argv>, session: string, items: seq<Json>)
    requires PaneListings(b, f, log, session, items).1.Ok?
    ensures forall i :: 0 <= i < |items| ==>
      (WindowId(items[i]).Ok? && PaneListings(b, f, log, session, items).0[i] == ListPanesArgv(f, session, WindowId(items[i]).value))
    decreases |items|
  {
    if items != [] {
      var d1 := ListingStep(b, f, log, session, items[0]).0;
      PaneListingsTargets(b, f, log + d1, session, items[1..]);
      assert forall i :: 1 <= i < |items| ==> items[i] == items[1..][i - 1];
    }
  }

  /** Prefixes the listings already made to what the rest of the loop does. */
  function AfterListings(done: seq<Argv>, acc: seq<Output>, rest: (seq<Argv>, Result<seq<Output>>)): (seq<Argv>, Result<seq<Output>>) {
    (done + rest.0, if rest.1.Err? then rest.1 else Ok(acc + rest.1.value))
  }

  /** One more window listed: the accumulation absorbs it. */
  lemma ListingsStep(b: Backend, f: Formats, log0: seq<Argv>, done: seq<Argv>, acc: seq<Output>, session: string,
                     items: seq<Json>, d1: seq<Argv>, out: Output)
    requires items != [] && ListingStep(b, f, log0 + done, session, items[0]) == (d1, Ok(out))
    ensures AfterListings(done, acc, PaneListings(b, f, log0 + done, session, items))
      == AfterListings(done + d1, acc + [out], PaneListings(b, f, log0 + (done + d1), session, items[1..]))
    ensures log0 + done + d1 == log0 + (done + d1)
  {
    AppendAssoc(log0, done, d1);
    var later := PaneListings(b, f, log0 + (done + d1), session, items[1..]);
    AppendAssoc(done, d1, later.0);
    if later.1.Ok? {
      AppendAssoc(acc, [out], later.1.value);
    }
  }

  /** A window whose panes cannot be listed ends the loop with that error. */
  lemma ListingsStop(b: Backend, f: Formats, log0: seq<Argv>, done: seq<Argv>, acc: seq<Output>, session: string,
                     items: seq<Json>, d1: seq<Argv>, e: Error)
    requires items != [] && ListingStep(b, f, log0 + done, session, items[0]) == (d1, Err(e))
    ensures AfterListings(done, acc, PaneListings(b, f, log0 + done, session, items)) == (done + d1, Err(e))
    ensures log0 + done + d1 == log0 + (done + d1)
  {
    AppendAssoc(log0, done, d1);
  }

  /** The list-windows half of ls: the windows of the session, which must come without errors. */
  function WindowListing(b: Backend, f: Formats, log: seq<Argv>, session: string): (r: Result<(Output, seq<Json>)>)
  {
    var argv := ListWindowsArgv(f, session);
    match Interpret(b, b.server(log, argv), true)
    case Err(e) => Err(e)
    case Ok((windows, errors)) =>
      if errors != "" then Err(WorkspaceError("Unable to list windows", errors))
      else match Listed(windows)
        case Err(e) => Err(e)
        case Ok(items) => Ok((windows, items))
  }

  /** ls as a whole: list-windows once, then list-panes per window until the first failure. */
  function LsRun(b: Backend, f: Formats, log: seq<Argv>, session: string): (r: (seq<Argv>, Result<(Output, seq<Output>)>))
    ensures |r.0| >= 1 && r.0[0] == ListWindowsArgv(f, session)
  {
    var first := [ListWindowsArgv(f, session)];
    match WindowListing(b, f, log, session)
    case Err(e) => (first, Err(e))
    case Ok((windows, items)) =>
      var run := PaneListings(b, f, log + first, session, items);
      (first + run.0, if run.1.Err? then Err(run.1.error) else Ok((windows, run.1.value)))
  }

  /** A successful ls lists the windows once and then the panes of each listed window, in order. */
  lemma LsTargets(b: Backend, f: Formats, log: seq<Argv>, session: string)
    requires LsRun(b, f, log, session).1.Ok?
    ensures var items := WindowListing(b, f, log, session).value.1;
      && |LsRun(b, f, log, session).0| == |items| + 1
      && |LsRun(b, f, log, session).1.value.1| == |items|
      && forall i :: 0 <= i < |items| ==>
           (WindowId(items[i]).Ok? && LsRun(b, f, log, session).0[i + 1] == ListPanesArgv(f, session, WindowId(items[i]).value))
  {
    var items := WindowListing(b, f, log, session).value.1;
    PaneListingsTargets(b, f, log + [ListWindowsArgv(f, session)], session, items);
  }

  /** The header ls echoes before the windows. */
  const WindowsHeader: string := " [blue]::[reset] Windows:"

  /** The header ls echoes before the panes of a window. */
  function PanesHeader(id: string): string {
    " [blue]::[reset] Window \"" + id + "\" panes:"
  }

  /** The two messages ls echoes for one window: its header and the repr of its panes. */
  function PaneLines(id: string, panes: string): seq<string> {
    [PanesHeader(id), panes]
  }

  /**
   * The messages the list-panes loop of ls hands to the logger, `show`
   * being Python's repr of a listing: two per window listed, none for the
   * window that fails.
   */
  function ListingEchoes(b: Backend, f: Formats, log: seq<Argv>, session: string, items: seq<Json>,
                         show: Output -> string): seq<string>
    decreases |items|
  {
    if items == [] then []
    else
      var step := ListingStep(b, f, log, session, items[0]);
      if step.1.Err? then []
      else PaneLines(WindowId(items[0]).value, show(step.1.value)) + ListingEchoes(b, f, log + step.0, session, items[1..], show)
  }

  /** The messages of ls: the header and repr of the windows once they are listed, then those of the list-panes loop. */
  function LsEchoes(b: Backend, f: Formats, log: seq<Argv>, session: string, show: Output -> string): seq<string> {
    var argv := ListWindowsArgv(f, session);
    match Interpret(b, b.server(log, argv), true)
    case Err(_) => []
    case Ok((windows, errors)) =>
      if errors != "" then []
      else
        var panes := match Listed(windows)
          case Err(_) => []
          case Ok(items) => ListingEchoes(b, f, log + [argv], session, items, show);
        [WindowsHeader, show(windows)] + panes
  }

  /** e holds, for each window in order, its header and the listing shown for it. */
  predicate EchoesPanes(e: seq<string>, items: seq<Json>, outs: seq<Output>, show: Output -> string) {
    && |e| == 2 * |items| && |outs| == |items|
    && forall i :: 0 <= i < |items| ==>
         WindowId(items[i]).Ok? && e[2 * i] == PanesHeader(WindowId(items[i]).value) && e[2 * i + 1] == show(outs[i])
  }

  /** The messages of one more window in front of those of the rest. */
  lemma EchoesPanesCons(e: seq<string>, later: seq<string>, items: seq<Json>, outs: seq<Output>, show: Output -> string)
    requires items != [] && outs != [] && WindowId(items[0]).Ok?
    requires e == PaneLines(WindowId(items[0]).value, show(outs[0])) + later
    requires EchoesPanes(later, items[1..], outs[1..], show)
    ensures EchoesPanes(e, items, outs, show)
  {
    forall i | 1 <= i < |items|
      ensures WindowId(items[i]).Ok? && e[2 * i] == PanesHeader(WindowId(items[i]).value) && e[2 * i + 1] == show(outs[i])
    {
      assert items[i] == items[1..][i - 1] && outs[i] == outs[1..][i - 1];
      assert e[2 * i] == later[2 * (i - 1)] && e[2 * i + 1] == later[2 * (i - 1) + 1];
    }
  }

  /** A successful list-panes loop echoes, for each window in order, its header and its listing. */
  lemma {:induction false} ListingEchoesShape(b: Backend, f: Formats, log: seq<Argv>, session: string, items: seq<Json>,
                                              show: Output -> string)
    requires PaneListings(b, f, log, session, items).1.Ok?
    ensures EchoesPanes(ListingEchoes(b, f, log, session, items, show), items, PaneListings(b, f, log, session, items).1.value, show)
    decreases |items|
  {
    if items != [] {
      var step := ListingStep(b, f, log, session, items[0]);
      ListingEchoesShape(b, f, log + step.0, session, items[1..], show);
      var e := ListingEchoes(b, f, log, session, items, show);
      var later := ListingEchoes(b, f, log + step.0, session, items[1..], show);
      var outs := PaneListings(b, f, log, session, items).1.value;
      assert e == PaneLines(WindowId(items[0]).value, show(step.1.value)) + later;
      assert outs == [step.1.value] + PaneListings(b, f, log + step.0, session, items[1..]).1.value;
      assert outs[1..] == PaneListings(b, f, log + step.0, session, items[1..]).1.value;
      EchoesPanesCons(e, later, items, outs, show);
    }
  }

  /**
   * A successful ls echoes the windows' header and listing, then for each
   * listed window in order its header and its panes' listing.
   */
  lemma LsEchoesShape(b: Backend, f: Formats, log: seq<Argv>, session: string, show: Output -> string)
    requires LsRun(b, f, log, session).1.Ok?
    ensures var items := WindowListing(b, f, log, session).value.1;
      var run := LsRun(b, f, log, session).1.value;
      var e := LsEchoes(b, f, log, session, show);
      && |e| == 2 + 2 * |items| && e[0] == WindowsHeader && e[1] == show(run.0)
      && forall i :: 0 <= i < |items| ==>
           WindowId(items[i]).Ok? && e[2 + 2 * i] == PanesHeader(WindowId(items[i]).value) && e[3 + 2 * i] == show(run.1[i])
  {
    var argv := ListWindowsArgv(f, session);
    var listing := WindowListing(b, f, log, session);
    var windows := listing.value.0;
    var items := listing.value.1;
    var reply := Interpret(b, b.server(log, argv), true);
    assert reply == Ok((windows, ""));
    assert Listed(windows) == Ok(items);
    var later := ListingEchoes(b, f, log + [argv], session, items, show);
    var outs := PaneListings(b, f, log + [argv], session, items).1.value;
    ListingEchoesShape(b, f, log + [argv], session, items, show);
    var e := LsEchoes(b, f, log, session, show);
    assert e == [WindowsHeader, show(windows)] + later;
    assert LsRun(b, f, log, session).1.value == (windows, outs);
  }

  // ---------------------------------------------------------------------
  // initialize: a configuration for a directory of git checkouts

  /** `re.sub('.git$', '', name)` as written: the unescaped dot lets any character stand before `git`. */
  function StripGitAsWritten(name: string): (r: string)
  {
    if |name| >= 4 && name[|name| - 3..] == "git" then name[..|name| - 4] else name
  }

  /** The intended suffix removal: a literal `.git` at the end. */
  function StripGit(name: string): (r: string)
  {
    if EndsWith(name, ".git") then name[..|name| - 4] else name
  }

  /** The pattern as written eats the last four characters of a name that merely ends in `git`. */
  lemma StripGitAsWrittenLegit()
    ensures StripGitAsWritten("me/legit") == "me/l"
    ensures StripGit("me/legit") == "me/legit"
  {
  }

  /** The corrected removal takes off exactly a trailing `.git` and nothing else. */
  lemma StripGitSuffix(name: string)
    ensures StripGit(name + ".git") == name
    ensures !EndsWith(name, ".git") ==> StripGit(name) == name
  {
    assert (name + ".git")[|name|..] == ".git";
    assert (name + ".git")[..|name|] == name;
  }

  /** The two spellings agree wherever the character before `git` is a dot. */
  lemma StripGitAgrees(name: string)
    requires EndsWith(name, ".git") || !EndsWith(name, "git")
    ensures StripGitAsWritten(name) == StripGit(name)
  {
    if |name| >= 4 && !EndsWith(name, ".git") {
      assert name[|name| - 3..] == name[|name| - 4..][1..];
    }
  }

  /**
   * `owner/repo` from a remote url: `:` becomes `/`, the written `.git$`
   * drops a trailing `git` with whatever character precedes it, and the
   * last two segments stay.
   */
  function RepoName(url: string): string {
    LastTwo(StripGitAsWritten(ReplaceChar(url, ':', '/')), '/')
  }

  /** The name keeps the last two `/`-segments of the url, `:` read as `/` and a trailing `<any character>git` dropped. */
  lemma RepoNameSegments(url: string)
    ensures var parts := Split(StripGitAsWritten(ReplaceChar(url, ':', '/')), '/');
      Split(RepoName(url), '/') == if |parts| >= 2 then parts[|parts| - 2..] else parts
  {
    LastTwoParts(StripGitAsWritten(ReplaceChar(url, ':', '/')), '/');
  }

  /** The repos entry of one checkout: the bare name when its repository is named like the directory, else {dir, name}. */
  function RepoEntry(url: string, directory: string): (r: Result<Yaml>)
    ensures r.Err? <==> Field(RepoName(url), '/', 1).None?
    ensures r.Ok? && Field(RepoName(url), '/', 1) == Some(directory) ==> r.value == Str(RepoName(url))
    ensures r.Ok? && Field(RepoName(url), '/', 1) != Some(directory) ==>
      r.value == Dict([("dir", Str(directory)), ("name", Str(RepoName(url)))])
  {
    var name := RepoName(url);
    match Field(name, '/', 1)
    case None => Err(IndexError)
    case Some(second) => Ok(if second == directory then Str(name) else Dict([("dir", Str(directory)), ("name", Str(name))]))
  }

  /**
   * A checkout named `<stem><c>git` (`legit`) whose remote reads `<pre>:<owner>/<stem><c>git`
   * (`git@host:me/legit`, or with `/` for `:`) is named `<owner>/<stem>` (`me/l`): the written pattern
   * takes the character before `git` too, and as the name then no longer
   * ends in the directory it is listed as {dir, name}.
   */
  lemma {:induction false} RepoEntryDropsGit(pre: string, sep: char, owner: string, stem: string, c: char)
    requires sep == ':' || sep == '/'
    requires ':' !in pre && '/' !in pre && ':' !in owner && '/' !in owner && ':' !in stem && '/' !in stem
    requires c != ':' && c != '/'
    ensures var url := pre + [sep] + (owner + "/" + stem + [c] + "git");
      && RepoName(url) == owner + "/" + stem
      && RepoEntry(url, stem + [c] + "git") == Ok(Dict([("dir", Str(stem + [c] + "git")), ("name", Str(owner + "/" + stem))]))
  {
    RepoNameDropsGit(pre, sep, owner, stem, c);
    var name := owner + "/" + stem;
    SplitNone(stem, '/');
    SplitCons(owner, '/', stem);
    assert owner + "/" + stem == owner + ['/'] + stem;
    assert Split(name, '/') == [owner, stem];
    assert Field(name, '/', 1) == Some(stem);
    assert |stem + [c] + "git"| > |stem|;
  }

  /** The name part of RepoEntryDropsGit. */
  lemma {:induction false} RepoNameDropsGit(pre: string, sep: char, owner: string, stem: string, c: char)
    requires sep == ':' || sep == '/'
    requires ':' !in pre && '/' !in pre && ':' !in owner && '/' !in owner && ':' !in stem && '/' !in stem
    requires c != ':' && c != '/'
    ensures RepoName(pre + [sep] + (owner + "/" + stem + [c] + "git")) == owner + "/" + stem
  {
    var name := owner + "/" + stem;
    var stripped := pre + "/" + name;
    SlashedDropsGit(pre, sep, owner, stem, c);
    SplitNone(stem, '/');
    SplitCons(owner, '/', stem);
    assert owner + "/" + stem == owner + ['/'] + stem;
    SplitCons(pre, '/', name);
    assert stripped == pre + ['/'] + name;
    assert Split(stripped, '/') == [pre, owner, stem];
    assert [owner, stem][1..] == [stem];
    assert Join([owner, stem], "/") == owner + "/" + stem;
    assert [pre, owner, stem][3 - 2..] == [owner, stem];
  }

  /** The `:` becomes `/` and the written pattern drops the character before `git` with it. */
  lemma SlashedDropsGit(pre: string, sep: char, owner: string, stem: string, c: char)
    requires sep == ':' || sep == '/'
    requires ':' !in pre && '/' !in pre && ':' !in owner && '/' !in owner && ':' !in stem && '/' !in stem
    requires c != ':' && c != '/'
    ensures StripGitAsWritten(ReplaceChar(pre + [sep] + (owner + "/" + stem + [c] + "git"), ':', '/'))
      == pre + "/" + (owner + "/" + stem)
  {
    var tail := owner + "/" + stem + [c] + "git";
    assert ':' !in tail;
    SlashedUrl(pre, sep, tail);
    StripGitAsWrittenOf(pre + "/", owner + "/" + stem, c);
  }

  /** A url whose only `:` is its separator reads with `/` there. */
  lemma SlashedUrl(pre: string, sep: char, tail: string)
    requires sep == ':' || sep == '/'
    requires ':' !in pre && ':' !in tail
    ensures ReplaceChar(pre + [sep] + tail, ':', '/') == pre + "/" + tail
  {
    var sepSlashed := ReplaceChar([sep], ':', '/');
    assert sepSlashed == [if sep == ':' then '/' else sep] + ReplaceChar([], ':', '/');
    assert sepSlashed == "/";
    ReplaceCharAbsent(pre, ':', '/');
    ReplaceCharAppend(pre, [sep], ':', '/');
    var front := ReplaceChar(pre + [sep], ':', '/');
    assert front == pre + "/";
    ReplaceCharAbsent(tail, ':', '/');
    ReplaceCharAppend(pre + [sep], tail, ':', '/');
  }

  /** The written pattern drops `git` and the character before it. */
  lemma StripGitAsWrittenOf(front: string, kept: string, c: char)
    ensures StripGitAsWritten(front + (kept + [c] + "git")) == front + kept
  {
    var name := front + (kept + [c] + "git");
    assert name[|name| - 3..] == "git";
    assert name[..|name| - 4] == front + kept;
  }

  /** `git rev-parse --is-inside-work-tree` and `git config --get remote.origin.url` */
  const InsideWorkTree: seq<string> := ["rev-parse", "--is-inside-work-tree"]
  const RemoteUrl: seq<string> := ["config", "--get", "remote.origin.url"]

  /** is_git_repo, asked inside the directory. */
  predicate IsCheckout(host: Host, rootDir: string, directory: string) {
    host.git(PathJoin(rootDir, directory), InsideWorkTree).code == 0
  }

  /** One directory of initialize: skipped unless it is a checkout, else its entry (get_remote_url's False has no replace). */
  function DirEntry(host: Host, rootDir: string, directory: string): (r: Result<Option<Yaml>>)
  {
    var path := PathJoin(rootDir, directory);
    if !IsCheckout(host, rootDir, directory) then Ok(None)
    else
      var reply := host.git(path, RemoteUrl);
      if reply.code != 0 then Err(AttributeError)
      else match RepoEntry(Strip(reply.output), directory)
        case Err(e) => Err(e)
        case Ok(entry) => Ok(Some(entry))
  }

  /** The repos list initialize builds: one entry per checkout, in directory order. */
  function InitRepos(host: Host, rootDir: string, dirs: seq<string>): (r: Result<seq<Yaml>>)
    ensures r.Ok? ==> |r.value| <= |dirs|
    decreases |dirs|
  {
    if dirs == [] then Ok([])
    else match DirEntry(host, rootDir, dirs[0])
      case Err(e) => Err(e)
      case Ok(entry) =>
        match InitRepos(host, rootDir, dirs[1..])
        case Err(e) => Err(e)
        case Ok(rest) => Ok((if entry.Some? then [entry.value] else []) + rest)
  }

  /** Prefixes the entries already made to what the rest of the loop makes. */
  function AfterRepos(acc: seq<Yaml>, rest: Result<seq<Yaml>>): Result<seq<Yaml>> {
    if rest.Err? then rest else Ok(acc + rest.value)
  }

  /** The message initialize echoes for each checkout it finds, before asking for its remote. */
  function FoundLine(directory: string): string {
    " [blue]::[reset] Found directory `[white]" + directory + "[reset]`"
  }

  /** The message initialize echoes once every directory is seen. */
  function SkippedLine(skipped: seq<string>): string {
    " [blue]::[yellow] Skipped[reset] non-git repositories: " + Join(skipped, ", ")
  }

  /** The Found messages of the loop: one per checkout, up to and including the first one without an entry. */
  function InitFound(host: Host, rootDir: string, dirs: seq<string>): seq<string>
    decreases |dirs|
  {
    if dirs == [] then []
    else
      (if IsCheckout(host, rootDir, dirs[0]) then [FoundLine(dirs[0])] else []) +
      (if DirEntry(host, rootDir, dirs[0]).Err? then [] else InitFound(host, rootDir, dirs[1..]))
  }

  /** The directories the loop skips, in order. */
  function InitSkipped(host: Host, rootDir: string, dirs: seq<string>): seq<string>
    decreases |dirs|
  {
    if dirs == [] then []
    else (if IsCheckout(host, rootDir, dirs[0]) then [] else [dirs[0]]) + InitSkipped(host, rootDir, dirs[1..])
  }

  /** What initialize echoes: the Found messages, then the Skipped one when the loop finishes. */
  function InitEchoes(host: Host, rootDir: string, dirs: seq<string>): seq<string> {
    InitFound(host, rootDir, dirs) +
    if InitRepos(host, rootDir, dirs).Ok? then [SkippedLine(InitSkipped(host, rootDir, dirs))] else []
  }

  /**
   * When initialize succeeds, every directory is either found (one message
   * and one entry) or skipped, and the skipped ones are exactly the
   * directories that are not checkouts.
   */
  lemma {:induction false} InitAccounts(host: Host, rootDir: string, dirs: seq<string>)
    requires InitRepos(host, rootDir, dirs).Ok?
    ensures |InitFound(host, rootDir, dirs)| == |InitRepos(host, rootDir, dirs).value|
    ensures |InitSkipped(host, rootDir, dirs)| + |InitRepos(host, rootDir, dirs).value| == |dirs|
    ensures forall d :: d in InitSkipped(host, rootDir, dirs) <==> d in dirs && !IsCheckout(host, rootDir, d)
    decreases |dirs|
  {
    if dirs != [] {
      InitAccounts(host, rootDir, dirs[1..]);
      assert dirs == [dirs[0]] + dirs[1..];
    }
  }

  /** The configuration initialize returns. */
  datatype InitConfig = InitConfig(name: string, dir: string, repos: seq<Yaml>)

  /** Workspace.initialize, given the subdirectories os.walk lists for rootDir; `echoed` is what it hands to the logger. */
  method Initialize(host: Host, rootDir: string, dirs: seq<string>) returns (r: Result<InitConfig>, echoed: seq<string>)
    ensures r.Ok? <==> InitRepos(host, rootDir, dirs).Ok?
    ensures r.Ok? ==> r.value == InitConfig(Basename(rootDir), rootDir, InitRepos(host, rootDir, dirs).value)
    ensures r.Err? ==> r.error == InitRepos(host, rootDir, dirs).error
    ensures echoed == InitEchoes(host, rootDir, dirs)
  {
    var repos: seq<Yaml> := [];
    var skipped: seq<string> := [];
    echoed := [];
    var rest := dirs;
    assert InitRepos(host, rootDir, dirs).Ok? ==> [] + InitRepos(host, rootDir, dirs).value == InitRepos(host, rootDir, dirs).value;
    while rest != []
      invariant AfterRepos(repos, InitRepos(host, rootDir, rest)) == InitRepos(host, rootDir, dirs)
      invariant echoed + InitFound(host, rootDir, rest) == InitFound(host, rootDir, dirs)
      invariant skipped + InitSkipped(host, rootDir, rest) == InitSkipped(host, rootDir, dirs)
      decreases |rest|
    {
      var path := PathJoin(rootDir, rest[0]);
      ghost var found := InitFound(host, rootDir, rest[1..]);
      ghost var left := InitSkipped(host, rootDir, rest[1..]);
      if host.git(path, InsideWorkTree).code == 0 {
        AppendAssoc(echoed, [FoundLine(rest[0])], found);
        echoed := echoed + [FoundLine(rest[0])];
        var reply := host.git(path, RemoteUrl);
        if reply.code != 0 {
          assert echoed + [] == echoed;
          return Err(AttributeError), echoed;
        }
        var entry := RepoEntry(Strip(reply.output), rest[0]);
        if entry.Err? {
          assert echoed + [] == echoed;
          return Err(entry.error), echoed;
        }
        ghost var later := InitRepos(host, rootDir, rest[1..]);
        AppendAssoc(repos, [entry.value], if later.Ok? then later.value else []);
        repos := repos + [entry.value];
        assert [] + left == left;
      } else {
        ghost var later := InitRepos(host, rootDir, rest[1..]);
        assert later.Ok? ==> [] + later.value == later.value;
        assert [] + found == found;
        AppendAssoc(skipped, [rest[0]], left);
        skipped := skipped + [rest[0]];
      }
      rest := rest[1..];
    }
    assert echoed + [] == echoed && skipped + [] == skipped;
    echoed := echoed + [SkippedLine(skipped)];
    r := Ok(InitConfig(Basename(rootDir), rootDir, repos));
  }

  /** The workspace root: the configured dir, or the current directory, with `~` expanded. */
  function ConfiguredRoot(config: Config, cwd: string, host: Host): string {
    ExpandUser(if config.dir != "" then config.dir else cwd, host)
  }

  // ---------------------------------------------------------------------
  // The workspace object

  class Workspace {
    const gateway: Gateway
    const host: Host
    /** The process's current directory (os.chdir / os.getcwd). */
    var cwd: string
    var config: Config
    var name: string
    var root: string
    /** The activation line typed first in every pane, if a virtualenv is configured. */
    var venv: seq<string>
    var session: Rec
    var windows: seq<WindowInfo>
    /** Every pre-flight command handed to the shell. */
    var shellLog: seq<string>
    /** Every message ls has handed to the logger, uncoloured. */
    var echoed: seq<string>

    /** A fresh workspace (the class-level defaults are given to each instance). */
    constructor (gateway: Gateway, host: Host, cwd: string, config: Config)
      ensures this.gateway == gateway && this.host == host && this.cwd == cwd && this.config == config
      ensures name == config.name && root == ConfiguredRoot(config, cwd, host)
      ensures venv == if config.venv != "" then [ActivationLine(ResolveVenv(config.venv, root, host))] else []
      ensures session == map[] && windows == [] && shellLog == [] && echoed == []
    {
      this.gateway := gateway;
      this.host := host;
      this.cwd := cwd;
      this.config := config;
      name := "";
      root := "";
      venv := [];
      session := map[];
      windows := [];
      shellLog := [];
      echoed := [];
      new;
      SetConfig(config);
    }

    /**
     * The root is the configured dir, or the current directory, with `~`
     * expanded; a configured venv becomes an activation line, resolved
     * against the root when it is relative. Without a venv the previous
     * line stays.
     */
    method SetConfig(config: Config)
      modifies this`config, this`name, this`root, this`venv
      ensures this.config == config && name == config.name
      ensures root == ConfiguredRoot(config, cwd, host)
      ensures config.venv != "" ==> venv == [ActivationLine(ResolveVenv(config.venv, root, host))]
      ensures config.venv == "" ==> venv == old(venv)
    {
      this.config := config;
      name := config.name;
      root := if config.dir != "" then config.dir else cwd;
      root := ExpandUser(root, host);
      if config.venv != "" {
        var v := ExpandUser(config.venv, host);
        if root != "" && !IsAbs(v) {
          v := PathJoin(root, v);
        }
        venv := [" source \"" + PathJoin(v, "bin/activate") + "\""];
      }
    }

    /** The command loop of one pane: each command typed into the pane, whose index is looked up every time. */
    method TypeCommands(sname: string, win: string, pane: Rec, items: seq<Yaml>) returns (r: Result<()>)
      modifies gateway
      ensures gateway.log == old(gateway.log) + SendAllRun(Mx, gateway.backend, old(gateway.log), sname, win, pane, items).0
      ensures r == SendAllRun(Mx, gateway.backend, old(gateway.log), sname, win, pane, items).1
    {
      ghost var log0 := gateway.log;
      ghost var done: seq<Argv> := [];
      var rest := items;
      assert log0 + done == log0;
      assert [] + SendAllRun(Mx, gateway.backend, log0, sname, win, pane, items).0 == SendAllRun(Mx, gateway.backend, log0, sname, win, pane, items).0;
      while rest != []
        invariant gateway.log == log0 + done
        invariant AfterKeys(done, SendAllRun(Mx, gateway.backend, log0 + done, sname, win, pane, rest))
               == SendAllRun(Mx, gateway.backend, log0, sname, win, pane, items)
        decreases |rest|
      {
        if "index" !in pane {
          return Err(KeyError("index"));
        }
        var text := CmdText(rest[0], Invalid(Mx));
        if text.Err? {
          return Err(text.error);
        }
        var sent := gateway.SendKeys(sname, win, pane["index"], text.value, true);
        if sent.Err? {
          return Err(sent.error);
        }
        SendAllStep(Mx, gateway.backend, log0, done, sname, win, pane, rest);
        done := done + SendRun(Mx, gateway.backend, log0 + done, sname, win, pane["index"], rest[0]).0;
        rest := rest[1..];
      }
      r := Ok(());
    }

    /** One iteration of the pane loop: the window's own pane first, a split of the previous pane afterwards, then its commands. */
    method AddPane(sname: string, win: string, prev: Rec, first: bool, schema: Yaml, post: Result<seq<Yaml>>)
      returns (r: Result<Rec>)
      modifies gateway
      ensures gateway.log == old(gateway.log) + PaneRun(Mx, gateway.backend, gateway.formats, old(gateway.log), sname, win, prev, first, schema, venv, post).0
      ensures r == PaneRun(Mx, gateway.backend, gateway.formats, old(gateway.log), sname, win, prev, first, schema, venv, post).1
    {
      ghost var log0 := gateway.log;
      ghost var opening := OpenPane(Mx, gateway.backend, gateway.formats, log0, sname, win, prev, first);
      var pane := prev;
      if !first {
        if "index" !in prev {
          return Err(KeyError("index"));
        }
        var made := gateway.NewPane(sname, win, prev["index"]);
        if made.Err? {
          return Err(made.error);
        }
        pane := made.value;
      }
      assert gateway.log == log0 + opening.0 && opening.1 == Ok(pane);
      var keys := PaneKeys(venv, schema, post);
      if keys.Err? {
        return Err(keys.error);
      }
      ghost var sending := SendAllRun(Mx, gateway.backend, log0 + opening.0, sname, win, pane, keys.value);
      var sent := TypeCommands(sname, win, pane, keys.value);
      AppendAssoc(log0, opening.0, sending.0);
      if sent.Err? {
        return Err(sent.error);
      }
      r := Ok(pane);
    }

    /** The creating half of create_window: the session for the first window, a window in it afterwards. */
    method CreateFirst(win: string) returns (r: Result<(Rec, Rec)>)
      modifies this`session, gateway
      ensures var c := Create(Mx, gateway.backend, gateway.formats, old(gateway.log), name, old(session), |windows|, win);
        gateway.log == old(gateway.log) + c.delta && session == c.session && r == c.result
    {
      if |windows| > 0 {
        r := gateway.NewWindow(name, win);
      } else {
        var made := gateway.NewSession(name, win);
        if made.Err? {
          return Err(made.error);
        }
        session := made.value.0;
        r := if session == map[] then Err(SystemExit(1)) else Ok((made.value.1, made.value.2));
      }
    }

    /** The pane loop of create_window: every pane schema in order, each split from the pane made before it. */
    method AddPanes(sname: string, win: string, pane: Rec, schemas: seq<Yaml>, post: Result<seq<Yaml>>)
      returns (r: Result<seq<Rec>>)
      modifies gateway
      ensures var run := PanesRun(Mx, gateway.backend, gateway.formats, old(gateway.log), sname, win, pane, true, schemas, venv, post);
        gateway.log == old(gateway.log) + run.0 && r == run.1
    {
      ghost var log1 := gateway.log;
      ghost var done: seq<Argv> := [];
      var ps: seq<Rec> := [];
      var prev := pane;
      var first := true;
      var rest := schemas;
      ghost var all := PanesRun(Mx, gateway.backend, gateway.formats, log1, sname, win, pane, true, schemas, venv, post);
      assert log1 + done == log1 && done + all.0 == all.0 && (all.1.Ok? ==> ps + all.1.value == all.1.value);
      while rest != []
        invariant gateway.log == log1 + done
        invariant After(done, ps, PanesRun(Mx, gateway.backend, gateway.formats, log1 + done, sname, win, prev, first, rest, venv, post)) == all
        decreases |rest|
      {
        ghost var d1 := PaneRun(Mx, gateway.backend, gateway.formats, log1 + done, sname, win, prev, first, rest[0], venv, post).0;
        var made := AddPane(sname, win, prev, first, rest[0], post);
        if made.Err? {
          PanesRunStop(Mx, gateway.backend, gateway.formats, log1, done, ps, sname, win, prev, first, rest, venv, post);
          return Err(made.error);
        }
        PanesRunStep(Mx, gateway.backend, gateway.formats, log1, done, ps, sname, win, prev, first, rest, venv, post, d1, made.value);
        AppendAssoc(log1, done, d1);
        done := done + d1;
        ps := ps + [made.value];
        prev := made.value;
        first := false;
        rest := rest[1..];
      }
      assert done + [] == done && ps + [] == ps;
      r := Ok(ps);
    }

    /** The rest of create_window once the window exists: the panes, then the layout. */
    method FillWindow(sname: string, window: Rec, pane: Rec, w: WindowSpec) returns (r: Result<WindowInfo>)
      modifies gateway
      ensures var run := Fill(Mx, gateway.backend, gateway.formats, old(gateway.log), sname, w.name, window, pane, w, venv);
        gateway.log == old(gateway.log) + run.0 && r == run.1
    {
      var schemas := Iterate(w.panes);
      if schemas.Err? {
        return Err(schemas.error);
      }
      ghost var log1 := gateway.log;
      var ps := AddPanes(sname, w.name, pane, schemas.value, w.post);
      if ps.Err? {
        return Err(ps.error);
      }
      var text := LayoutText(w.layout, Invalid(Mx));
      if text.Err? {
        return Err(text.error);
      }
      ghost var d := gateway.log[|log1|..];
      assert gateway.log == log1 + d;
      var out := gateway.SetLayout(sname, w.name, text.value);
      AppendAssoc(log1, d, [SetLayoutArgv(sname, w.name, text.value)]);
      if out.Err? {
        return Err(out.error);
      }
      r := Ok(WindowInfo(window - {"panes"}, ps.value));
    }

    /** create_window: create, run the panes, then set the layout. */
    method CreateWindow(w: WindowSpec) returns (r: Result<WindowInfo>)
      modifies this`session, gateway
      ensures var st := WindowRun(Mx, gateway.backend, gateway.formats, old(gateway.log), name, old(session), |windows|, w, venv);
        gateway.log == old(gateway.log) + st.delta && session == st.session && r == st.result
    {
      ghost var log0 := gateway.log;
      var made := CreateFirst(w.name);
      if made.Err? {
        return Err(made.error);
      }
      if "name" !in session {
        return Err(KeyError("name"));
      }
      ghost var log1 := gateway.log;
      r := FillWindow(session["name"], made.value.0, made.value.1, w);
      AppendAssoc(log0, log1[|log0|..], gateway.log[|log1|..]);
    }

    /** The pre-flight loop of start. */
    method RunCommands() returns (r: Result<()>)
      modifies this`shellLog
      ensures shellLog == old(shellLog) + Preflight(host.shell, cwd, config.commands).0
      ensures r == Preflight(host.shell, cwd, config.commands).1
    {
      var cmds := config.commands;
      ghost var ran: seq<string> := [];
      var rest := cmds;
      assert AfterCommands(ran, Preflight(host.shell, cwd, cmds)).0 == Preflight(host.shell, cwd, cmds).0;
      while rest != []
        invariant shellLog == old(shellLog) + ran
        invariant AfterCommands(ran, Preflight(host.shell, cwd, rest)) == Preflight(host.shell, cwd, cmds)
        decreases |rest|
      {
        var reply := host.shell(cwd, rest[0]);
        shellLog := shellLog + [rest[0]];
        if reply.code != 0 {
          return Err(WorkspaceError(PreflightMessage(reply.code, rest[0]), reply.output));
        }
        AppendAssoc(ran, [rest[0]], Preflight(host.shell, cwd, rest[1..]).0);
        ran := ran + [rest[0]];
        rest := rest[1..];
      }
      r := Ok(());
    }

    /** Whether start gets past its directory check. */
    predicate RootUsable()
      reads this
    {
      root == "" || host.isDir(root)
    }

    /**
     * start: check the root and change into it, run the pre-flight
     * commands, create every configured window in order (the first failure
     * ending the loop), then attach, even when there were no windows.
     * Returns every window the workspace has created.
     */
    method Start() returns (r: Result<seq<WindowInfo>>)
      modifies this`cwd, this`shellLog, this`session, this`windows, gateway
      ensures !old(RootUsable()) ==>
        (r == Err(WorkspaceError("Directory does not exist", root))
         && cwd == old(cwd) && shellLog == old(shellLog) && gateway.log == old(gateway.log)
         && session == old(session) && windows == old(windows))
      ensures old(RootUsable()) ==>
        (cwd == (if root != "" then root else old(cwd))
         && shellLog == old(shellLog) + Preflight(host.shell, cwd, config.commands).0)
      ensures old(RootUsable()) && Preflight(host.shell, cwd, config.commands).1.Err? ==>
        (r == Err(Preflight(host.shell, cwd, config.commands).1.error)
         && gateway.log == old(gateway.log) && session == old(session) && windows == old(windows))
      ensures old(RootUsable()) && Preflight(host.shell, cwd, config.commands).1.Ok? && config.windows.Null? ==>
        (r == Err(TypeError) && gateway.log == old(gateway.log) && session == old(session) && windows == old(windows))
      ensures old(RootUsable()) && Preflight(host.shell, cwd, config.commands).1.Ok? && !config.windows.Null? ==>
        var ws := Iterate(config.windows).value;
        var run := WindowsRun(Mx, gateway.backend, gateway.formats, old(gateway.log), name, old(session), old(windows), ws, venv);
        && session == run.session && windows == run.made
        && (run.failure.Some? ==> r == Err(run.failure.value) && gateway.log == run.log)
        && (run.failure.None? ==>
              var att := AttachRun(gateway.backend, run.log, name);
              && gateway.log == run.log + att.0
              && r == if att.1.Err? then Err(att.1.error) else Ok(windows))
    {
      if root != "" {
        if !host.isDir(root) {
          return Err(WorkspaceError("Directory does not exist", root));
        }
        cwd := root;
      }
      var pre := RunCommands();
      if pre.Err? {
        return Err(pre.error);
      }
      var ws := Iterate(config.windows);
      if ws.Err? {
        return Err(ws.error);
      }
      r := StartWindows(ws.value);
    }

    /** One entry of the window loop: normalise it, then create_window. */
    method EnterWindow(w: Yaml) returns (r: Result<WindowInfo>)
      modifies this`session, gateway
      ensures var st := WindowEntry(Mx, gateway.backend, gateway.formats, old(gateway.log), name, old(session), |windows|, w, venv);
        gateway.log == old(gateway.log) + st.delta && session == st.session && r == st.result
    {
      var spec := NormalizeWindow(w);
      if spec.Err? {
        assert gateway.log == gateway.log + [];
        return Err(spec.error);
      }
      r := CreateWindow(spec.value);
    }

    /** The window loop of start: every entry in order until one fails. */
    method MakeWindows(ws: seq<Yaml>) returns (r: Result<seq<WindowInfo>>)
      modifies this`session, this`windows, gateway
      ensures var run := WindowsRun(Mx, gateway.backend, gateway.formats, old(gateway.log), name, old(session), old(windows), ws, venv);
        gateway.log == run.log && session == run.session && windows == run.made && r == Outcome(run)
    {
      ghost var step := WindowStep(Mx, gateway.backend, gateway.formats, name, venv);
      ghost var all := Loop(step, gateway.log, session, windows, ws);
      var rest := ws;
      while rest != []
        invariant Loop(step, gateway.log, session, windows, rest) == all
        decreases |rest|
      {
        WindowStepApply(Mx, gateway.backend, gateway.formats, name, venv, gateway.log, session, |windows|, rest[0]);
        var entered := EnterWindow(rest[0]);
        if entered.Err? {
          return Err(entered.error);
        }
        windows := windows + [entered.value];
        rest := rest[1..];
      }
      r := Ok(windows);
    }

    /** The window loop of start, and the attach that follows it. */
    method StartWindows(ws: seq<Yaml>) returns (r: Result<seq<WindowInfo>>)
      modifies this`session, this`windows, gateway
      ensures
        var run := WindowsRun(Mx, gateway.backend, gateway.formats, old(gateway.log), name, old(session), old(windows), ws, venv);
        && session == run.session && windows == run.made
        && (run.failure.Some? ==> r == Err(run.failure.value) && gateway.log == run.log)
        && (run.failure.None? ==>
              var att := AttachRun(gateway.backend, run.log, name);
              && gateway.log == run.log + att.0
              && r == if att.1.Err? then Err(att.1.error) else Ok(windows))
    {
      var made := MakeWindows(ws);
      if made.Err? {
        return Err(made.error);
      }
      var att := Attach("");
      r := if att.Err? then Err(att.error) else Ok(windows);
    }

    /** stop: kill the named session, or the workspace's own. */
    method Stop(session: string) returns (r: Result<(Output, string)>)
      modifies gateway
      ensures var target := if session != "" then session else name;
        gateway.log == old(gateway.log) + [KillSessionArgv(target)]
        && r == Interpret(gateway.backend, gateway.backend.server(old(gateway.log), KillSessionArgv(target)), false)
    {
      r := gateway.KillSession(if session != "" then session else name);
    }

    /** attach: attach to the named session, or the workspace's own. */
    method Attach(session: string) returns (r: Result<()>)
      modifies gateway
      ensures var att := AttachRun(gateway.backend, old(gateway.log), if session != "" then session else name);
        gateway.log == old(gateway.log) + att.0 && r == att.1
    {
      var out := gateway.Attach(if session != "" then session else name);
      r := if out.Err? then Err(out.error) else Ok(());
    }

    /** The list-panes step of ls for one listed window. */
    method ListPanes(item: Json) returns (r: Result<Output>)
      modifies gateway
      ensures var step := ListingStep(gateway.backend, gateway.formats, old(gateway.log), name, item);
        gateway.log == old(gateway.log) + step.0 && r == step.1
    {
      var id := WindowId(item);
      if id.Err? {
        return Err(id.error);
      }
      var panes := gateway.GetPanes(name, id.value);
      if panes.Err? {
        return Err(panes.error);
      }
      r := if panes.value.1 != "" then Err(WorkspaceError("Unable to list panes", panes.value.1)) else Ok(panes.value.0);
    }

    /** The list-panes loop of ls, over the listed windows in order, with the messages it echoes (`show` is repr). */
    method ListAllPanes(items: seq<Json>, show: Output -> string) returns (r: Result<seq<Output>>, lines: seq<string>)
      modifies gateway
      ensures var run := PaneListings(gateway.backend, gateway.formats, old(gateway.log), name, items);
        gateway.log == old(gateway.log) + run.0 && r == run.1
      ensures lines == ListingEchoes(gateway.backend, gateway.formats, old(gateway.log), name, items, show)
    {
      ghost var log0 := gateway.log;
      ghost var all := PaneListings(gateway.backend, gateway.formats, log0, name, items);
      ghost var allLines := ListingEchoes(gateway.backend, gateway.formats, log0, name, items, show);
      ghost var done: seq<Argv> := [];
      var acc: seq<Output> := [];
      lines := [];
      var rest := items;
      assert done + all.0 == all.0 && (all.1.Ok? ==> acc + all.1.value == all.1.value);
      assert log0 + done == log0;
      while rest != []
        invariant gateway.log == log0 + done
        invariant AfterListings(done, acc, PaneListings(gateway.backend, gateway.formats, log0 + done, name, rest)) == all
        invariant lines + ListingEchoes(gateway.backend, gateway.formats, log0 + done, name, rest, show) == allLines
        decreases |rest|
      {
        ghost var step := ListingStep(gateway.backend, gateway.formats, log0 + done, name, rest[0]);
        var panes := ListPanes(rest[0]);
        if panes.Err? {
          ListingsStop(gateway.backend, gateway.formats, log0, done, acc, name, rest, step.0, panes.error);
          assert lines + [] == lines;
          return Err(panes.error), lines;
        }
        ListingsStep(gateway.backend, gateway.formats, log0, done, acc, name, rest, step.0, panes.value);
        var id := WindowId(rest[0]).value;
        AppendAssoc(lines, PaneLines(id, show(panes.value)),
          ListingEchoes(gateway.backend, gateway.formats, log0 + (done + step.0), name, rest[1..], show));
        lines := lines + PaneLines(id, show(panes.value));
        done := done + step.0;
        acc := acc + [panes.value];
        rest := rest[1..];
      }
      assert done + [] == done && acc + [] == acc && lines + [] == lines;
      r := Ok(acc);
    }

    /**
     * ls: the session's windows, then the panes of each; every message it
     * echoes is appended to `echoed`, with `show` standing for repr.
     */
    method Ls(show: Output -> string) returns (r: Result<(Output, seq<Output>)>)
      modifies gateway, this`echoed
      ensures var run := LsRun(gateway.backend, gateway.formats, old(gateway.log), name);
        gateway.log == old(gateway.log) + run.0 && r == run.1
      ensures echoed == old(echoed) + LsEchoes(gateway.backend, gateway.formats, old(gateway.log), name, show)
    {
      var listed := gateway.GetWindows(name);
      if listed.Err? {
        return Err(listed.error);
      }
      var (windowsOut, errors) := listed.value;
      if errors != "" {
        return Err(WorkspaceError("Unable to list windows", errors));
      }
      var header := [WindowsHeader, show(windowsOut)];
      var items := Listed(windowsOut);
      if items.Err? {
        echoed := echoed + header;
        return Err(items.error);
      }
      ghost var log1 := gateway.log;
      var panes, lines := ListAllPanes(items.value, show);
      AppendAssoc(old(gateway.log), [ListWindowsArgv(gateway.formats, name)], gateway.log[|log1|..]);
      echoed := echoed + (header + lines);
      if panes.Err? {
        return Err(panes.error);
      }
      r := Ok((windowsOut, panes.value));
    }
  }
}
