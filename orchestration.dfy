/*
 * The orchestration shared by the three revisions of the workspace (the
 * `mx` package, the earlier `mux` package and the single-file mux.py): how
 * normalised windows become an ordered sequence of tmux operations.
 *
 * Each function below says, for a given state of the tmux process (the log
 * of every argv already handed to it), which argvs the orchestrator hands it
 * next (the `delta`) and what it returns or raises. The Workspace classes
 * are proved to issue exactly these operations; the lemmas at the end state
 * what the operation sequence looks like when a run succeeds.
 */
module Orchestration {
  import opened Common
  import opened Tmux
  import opened Schema
  import opened ScriptTmux

  /** The three revisions: src/mx, src/mux and mux.py. */
  datatype Rev = Mx | Mux | Script

  /** What create_window returns: the window record, whose "panes" entry is replaced by the list of pane records. */
  datatype WindowInfo = WindowInfo(record: Rec, panes: seq<Rec>)

  /** The operations issued by a step, the session record afterwards, and the outcome. */
  datatype Step<T> = Step(delta: seq<Argv>, session: Rec, result: Result<T>)

  /**
   * What one tmux command answers in a revision, given every command handed
   * to tmux before it: (stdout, stderr), where mux.py has no stderr and
   * never raises on bad output.
   */
  function Answer(rev: Rev, b: Backend, log: seq<Argv>, argv: Argv): (r: Result<(Output, string)>)
    ensures rev == Script && r.Ok? ==> r.value.1 == ""
  {
    if rev == Script then
      match ScriptInterpret(b, b.server(log, argv), false)
      case Ok(o) => Ok((o, ""))
      case Err(e) => Err(e)
    else Interpret(b, b.server(log, argv), false)
  }

  /** The error a non-string, non-empty command raises: caught and reported as a tmux failure, except in mux.py. */
  function Invalid(rev: Rev): Error {
    if rev == Script then TypeError else TmuxError(ExecuteFailure)
  }

  function SplitArgv(rev: Rev, f: Formats, session: string, win: string, pane: string): Argv {
    if rev == Script then ScriptNewPaneArgv(f, session, win, pane) else NewPaneArgv(f, session, win, pane)
  }

  function SessionFrom(rev: Rev, out: (Output, string)): Result<(Rec, Rec, Rec)> {
    if rev == Script then ScriptSessionRecords(out.0) else SessionRecords(out)
  }

  function WindowFrom(rev: Rev, out: (Output, string)): Result<(Rec, Rec)> {
    if rev == Script then ScriptWindowRecords(out.0) else WindowRecords(out)
  }

  function PaneFrom(rev: Rev, out: (Output, string)): Result<Rec> {
    if rev == Script then ScriptPaneRecord(out.0) else PaneRecord(out)
  }

  // ---------------------------------------------------------------------
  // Panes

  /** One send_keys: a falsy command issues nothing, a non-string one raises, a string is typed followed by C-m. */
  function SendRun(rev: Rev, b: Backend, log: seq<Argv>, session: string, win: string, pane: string, item: Yaml)
    : (r: (seq<Argv>, Result<()>))
  {
    match CmdText(item, Invalid(rev))
    case Err(e) => ([], Err(e))
    case Ok(text) =>
      if text == "" then ([], Ok(()))
      else
        var argv := SendKeysArgv(session, win, pane, text, true);
        var out := Answer(rev, b, log, argv);
        ([argv], if out.Err? then Err(out.error) else Ok(()))
  }

  /** `for cmd in cmds: send_keys(session, win, pane['index'], cmd)`: the index is looked up for every command. */
  function SendAllRun(rev: Rev, b: Backend, log: seq<Argv>, session: string, win: string, pane: Rec, items: seq<Yaml>)
    : (r: (seq<Argv>, Result<()>))
    decreases |items|
  {
    if items == [] then ([], Ok(()))
    else if "index" !in pane then ([], Err(KeyError("index")))
    else
      var (d1, r1) := SendRun(rev, b, log, session, win, pane["index"], items[0]);
      if r1.Err? then (d1, r1)
      else
        var (d2, r2) := SendAllRun(rev, b, log + d1, session, win, pane, items[1..]);
        (d1 + d2, r2)
  }

  /** Prefixes what was already typed to what is still to type. */
  function AfterKeys(done: seq<Argv>, rest: (seq<Argv>, Result<()>)): (seq<Argv>, Result<()>) {
    (done + rest.0, rest.1)
  }

  /** One more command typed: the accumulation absorbs it. */
  lemma SendAllStep(rev: Rev, b: Backend, log0: seq<Argv>, done: seq<Argv>, session: string, win: string,
                    pane: Rec, items: seq<Yaml>)
    requires items != [] && "index" in pane
    requires SendRun(rev, b, log0 + done, session, win, pane["index"], items[0]).1.Ok?
    ensures var d1 := SendRun(rev, b, log0 + done, session, win, pane["index"], items[0]).0;
      AfterKeys(done, SendAllRun(rev, b, log0 + done, session, win, pane, items))
      == AfterKeys(done + d1, SendAllRun(rev, b, log0 + (done + d1), session, win, pane, items[1..]))
  {
    var d1 := SendRun(rev, b, log0 + done, session, win, pane["index"], items[0]).0;
    AppendAssoc(log0, done, d1);
    AppendAssoc(done, d1, SendAllRun(rev, b, log0 + (done + d1), session, win, pane, items[1..]).0);
  }

  /** The pane a pane schema runs in: the window's own pane first, then a split of the previous pane. */
  function OpenPane(rev: Rev, b: Backend, f: Formats, log: seq<Argv>, session: string, win: string, prev: Rec, first: bool)
    : (r: (seq<Argv>, Result<Rec>))
  {
    if first then ([], Ok(prev))
    else if "index" !in prev then ([], Err(KeyError("index")))
    else
      var argv := SplitArgv(rev, f, session, win, prev["index"]);
      ([argv], match Answer(rev, b, log, argv)
               case Err(e) => Err(e)
               case Ok(o) => PaneFrom(rev, o))
  }

  /** One iteration of the pane loop. */
  function PaneRun(rev: Rev, b: Backend, f: Formats, log: seq<Argv>, session: string, win: string, prev: Rec, first: bool,
                   schema: Yaml, venv: seq<string>, post: Result<seq<Yaml>>): (r: (seq<Argv>, Result<Rec>))
  {
    var (d1, made) := OpenPane(rev, b, f, log, session, win, prev, first);
    if made.Err? then (d1, made)
    else match PaneKeys(venv, schema, post)
      case Err(e) => (d1, Err(e))
      case Ok(items) =>
        var (d2, sent) := SendAllRun(rev, b, log + d1, session, win, made.value, items);
        (d1 + d2, if sent.Err? then Err(sent.error) else made)
  }

  /** The pane loop of create_window, returning the pane records in creation order. */
  function PanesRun(rev: Rev, b: Backend, f: Formats, log: seq<Argv>, session: string, win: string, prev: Rec, first: bool,
                    schemas: seq<Yaml>, venv: seq<string>, post: Result<seq<Yaml>>): (r: (seq<Argv>, Result<seq<Rec>>))
    ensures r.1.Ok? ==> |r.1.value| == |schemas|
    decreases |schemas|
  {
    if schemas == [] then ([], Ok([]))
    else
      var (d1, r1) := PaneRun(rev, b, f, log, session, win, prev, first, schemas[0], venv, post);
      if r1.Err? then (d1, Err(r1.error))
      else
        var (d2, r2) := PanesRun(rev, b, f, log + d1, session, win, r1.value, false, schemas[1..], venv, post);
        (d1 + d2, if r2.Err? then r2 else Ok([r1.value] + r2.value))
  }

  /** Prefixes what was already done to what is still to run, as the loops accumulate it. */
  function After<T>(done: seq<Argv>, acc: seq<T>, rest: (seq<Argv>, Result<seq<T>>)): (seq<Argv>, Result<seq<T>>) {
    (done + rest.0, if rest.1.Err? then Err(rest.1.error) else Ok(acc + rest.1.value))
  }

  /** The pane loop, one iteration unfolded. */
  lemma PanesRunUnfold(rev: Rev, b: Backend, f: Formats, log: seq<Argv>, session: string, win: string,
                       prev: Rec, first: bool, schemas: seq<Yaml>, venv: seq<string>, post: Result<seq<Yaml>>)
    requires schemas != []
    requires PaneRun(rev, b, f, log, session, win, prev, first, schemas[0], venv, post).1.Ok?
    ensures var (d1, r1) := PaneRun(rev, b, f, log, session, win, prev, first, schemas[0], venv, post);
      var rest := PanesRun(rev, b, f, log + d1, session, win, r1.value, false, schemas[1..], venv, post);
      && PanesRun(rev, b, f, log, session, win, prev, first, schemas, venv, post).0 == d1 + rest.0
      && PanesRun(rev, b, f, log, session, win, prev, first, schemas, venv, post).1
         == if rest.1.Err? then rest.1 else Ok([r1.value] + rest.1.value)
  {
  }

  /** One more pane done: the accumulation absorbs it. */
  lemma PanesRunStep(rev: Rev, b: Backend, f: Formats, log0: seq<Argv>, done: seq<Argv>, acc: seq<Rec>, session: string, win: string,
                     prev: Rec, first: bool, schemas: seq<Yaml>, venv: seq<string>, post: Result<seq<Yaml>>,
                     d1: seq<Argv>, pane: Rec)
    requires schemas != []
    requires PaneRun(rev, b, f, log0 + done, session, win, prev, first, schemas[0], venv, post) == (d1, Ok(pane))
    ensures After(done, acc, PanesRun(rev, b, f, log0 + done, session, win, prev, first, schemas, venv, post))
      == After(done + d1, acc + [pane], PanesRun(rev, b, f, log0 + (done + d1), session, win, pane, false, schemas[1..], venv, post))
  {
    PanesRunUnfold(rev, b, f, log0 + done, session, win, prev, first, schemas, venv, post);
    AppendAssoc(log0, done, d1);
    var rest := PanesRun(rev, b, f, log0 + (done + d1), session, win, pane, false, schemas[1..], venv, post);
    AppendAssoc(done, d1, rest.0);
    if rest.1.Ok? {
      AppendAssoc(acc, [pane], rest.1.value);
    }
  }

  /** A pane that fails ends the loop with its own error, after what it sent. */
  lemma PanesRunStop(rev: Rev, b: Backend, f: Formats, log0: seq<Argv>, done: seq<Argv>, acc: seq<Rec>, session: string, win: string,
                     prev: Rec, first: bool, schemas: seq<Yaml>, venv: seq<string>, post: Result<seq<Yaml>>)
    requires schemas != []
    requires PaneRun(rev, b, f, log0 + done, session, win, prev, first, schemas[0], venv, post).1.Err?
    ensures var (d1, r1) := PaneRun(rev, b, f, log0 + done, session, win, prev, first, schemas[0], venv, post);
      && After(done, acc, PanesRun(rev, b, f, log0 + done, session, win, prev, first, schemas, venv, post)).0 == done + d1
      && After(done, acc, PanesRun(rev, b, f, log0 + done, session, win, prev, first, schemas, venv, post)).1 == Err(r1.error)
      && log0 + done + d1 == log0 + (done + d1)
  {
    var (d1, r1) := PaneRun(rev, b, f, log0 + done, session, win, prev, first, schemas[0], venv, post);
    AppendAssoc(log0, done, d1);
  }

  // ---------------------------------------------------------------------
  // Windows

  /**
   * The first window creates the session, every later one a window in it
   * (named by the configured name in mx, by the created session's `name`
   * in the earlier revisions).
   */
  function Create(rev: Rev, b: Backend, f: Formats, log: seq<Argv>, name: string, session: Rec, count: nat, win: string)
    : (r: Step<(Rec, Rec)>)
  {
    if count > 0 && rev != Mx && "name" !in session then Step([], session, Err(KeyError("name")))
    else
      var argv := CreateArgv(rev, f, name, session, count, win);
      var (after, made) := Created(rev, Answer(rev, b, log, argv), session, count);
      Step([argv], after, made)
  }

  /** What creation makes of tmux's answer: the session record afterwards, and the window and pane records. */
  function Created(rev: Rev, out: Result<(Output, string)>, session: Rec, count: nat): (Rec, Result<(Rec, Rec)>) {
    if out.Err? then (session, Err(out.error))
    else if count > 0 then (session, WindowFrom(rev, out.value))
    else match SessionFrom(rev, out.value)
      case Err(e) => (session, Err(e))
      case Ok((s, w, p)) => if s == map[] then (s, Err(SystemExit(1))) else (s, Ok((w, p)))
  }

  /** What create_window creates: the session for the first window, a window in it afterwards. */
  function CreateArgv(rev: Rev, f: Formats, name: string, session: Rec, count: nat, win: string): Argv {
    if count == 0 then NewSessionArgv(f, name, win)
    else NewWindowArgv(f, if rev == Mx || "name" !in session then name else session["name"], win)
  }

  /** The second half of create_window, once the window exists: run the panes, then set the layout. */
  function Fill(rev: Rev, b: Backend, f: Formats, log: seq<Argv>, sname: string, win: string, window: Rec, pane: Rec,
                w: WindowSpec, venv: seq<string>): (r: (seq<Argv>, Result<WindowInfo>))
  {
    match Iterate(w.panes)
    case Err(e) => ([], Err(e))
    case Ok(schemas) =>
      var (d, ps) := PanesRun(rev, b, f, log, sname, win, pane, true, schemas, venv, w.post);
      if ps.Err? then (d, Err(ps.error))
      else match LayoutText(w.layout, Invalid(rev))
        case Err(e) => (d, Err(e))
        case Ok(layout) =>
          var argv := SetLayoutArgv(sname, win, layout);
          var out := Answer(rev, b, log + d, argv);
          (d + [argv], if out.Err? then Err(out.error) else Ok(WindowInfo(window - {"panes"}, ps.value)))
  }

  /** create_window: create, run the panes, set the layout. */
  function WindowRun(rev: Rev, b: Backend, f: Formats, log: seq<Argv>, name: string, session: Rec, count: nat,
                     w: WindowSpec, venv: seq<string>): (r: Step<WindowInfo>)
  {
    var c := Create(rev, b, f, log, name, session, count, w.name);
    if c.result.Err? then Step(c.delta, c.session, Err(c.result.error))
    else if "name" !in c.session then Step(c.delta, c.session, Err(KeyError("name")))
    else
      var (d, r) := Fill(rev, b, f, log + c.delta, c.session["name"], w.name, c.result.value.0, c.result.value.1, w, venv);
      Step(c.delta + d, c.session, r)
  }

  /** One entry of the window loop of start: normalise it, then create the window. */
  function WindowEntry(rev: Rev, b: Backend, f: Formats, log: seq<Argv>, name: string, session: Rec, count: nat,
                       w: Yaml, venv: seq<string>): Step<WindowInfo>
  {
    match NormalizeWindow(w)
    case Err(e) => Step([], session, Err(e))
    case Ok(spec) => WindowRun(rev, b, f, log, name, session, count, spec, venv)
  }

  /** The body of a window loop: given the log, the session record and the number of windows made so far, run one entry. */
  type EntryStep = (seq<Argv>, Rec, nat, Yaml) -> Step<WindowInfo>

  /** The body of the window loop of start, in a given revision and workspace. */
  function WindowStep(rev: Rev, b: Backend, f: Formats, name: string, venv: seq<string>): EntryStep {
    (l: seq<Argv>, s: Rec, c: nat, w: Yaml) => WindowEntry(rev, b, f, l, name, s, c, w, venv)
  }

  lemma WindowStepApply(rev: Rev, b: Backend, f: Formats, name: string, venv: seq<string>, l: seq<Argv>, s: Rec, c: nat, w: Yaml)
    ensures WindowStep(rev, b, f, name, venv)(l, s, c, w) == WindowEntry(rev, b, f, l, name, s, c, w, venv)
  {
  }

  /** The state of a window loop: the operation log, the session record, the windows made so far, and the failure that ended it, if any. */
  datatype Windows = Windows(log: seq<Argv>, session: Rec, made: seq<WindowInfo>, failure: Option<Error>)

  /**
   * The window loop resumed from a given state: each entry in order, the
   * number of windows made so far telling the entry whether it is the first;
   * the first failure ends the loop with the windows made before it.
   */
  function Loop(step: EntryStep, log: seq<Argv>, session: Rec, made: seq<WindowInfo>, ws: seq<Yaml>): Windows
    decreases |ws|
  {
    if ws == [] then Windows(log, session, made, None)
    else
      var st := step(log, session, |made|, ws[0]);
      if st.result.Err? then Windows(log + st.delta, st.session, made, Some(st.result.error))
      else Loop(step, log + st.delta, st.session, made + [st.result.value], ws[1..])
  }

  /** The window loop of start: every entry in order, the first failure ending it. */
  function WindowsRun(rev: Rev, b: Backend, f: Formats, log: seq<Argv>, name: string, session: Rec, made: seq<WindowInfo>,
                      ws: seq<Yaml>, venv: seq<string>): Windows
  {
    Loop(WindowStep(rev, b, f, name, venv), log, session, made, ws)
  }

  /** What start reports of a window loop: its failure, or every window made. */
  function Outcome(run: Windows): Result<seq<WindowInfo>> {
    if run.failure.Some? then Err(run.failure.value) else Ok(run.made)
  }

  /**
   * The loop only appends: to the log, and to the windows made; when no entry
   * fails it makes exactly one window per entry.
   */
  lemma {:induction false} LoopExtends(step: EntryStep, log: seq<Argv>, session: Rec, made: seq<WindowInfo>, ws: seq<Yaml>)
    ensures var r := Loop(step, log, session, made, ws);
      && |log| <= |r.log| && r.log[..|log|] == log
      && |made| <= |r.made| && r.made[..|made|] == made
      && (r.failure.None? ==> |r.made| == |made| + |ws|)
    decreases |ws|
  {
    if ws != [] {
      var st := step(log, session, |made|, ws[0]);
      if st.result.Ok? {
        LoopExtends(step, log + st.delta, st.session, made + [st.result.value], ws[1..]);
        var r := Loop(step, log, session, made, ws);
        assert r.log[..|log|] == (r.log[..|log + st.delta|])[..|log|];
        assert r.made[..|made|] == (r.made[..|made + [st.result.value]|])[..|made|];
      }
    }
  }

  // ---------------------------------------------------------------------
  // The operation sequence of a successful run

  /** A pane record's index (what a successful run has looked up). */
  function Index(pane: Rec): string {
    if "index" in pane then pane["index"] else ""
  }

  /** The send-keys of one pane: one per non-empty string command, in order, each followed by C-m. */
  function KeysTrace(session: string, win: string, pane: string, items: seq<Yaml>): (t: seq<Argv>)
    decreases |items|
  {
    if items == [] then []
    else
      (if items[0].Str? && items[0].s != "" then [SendKeysArgv(session, win, pane, items[0].s, true)] else [])
      + KeysTrace(session, win, pane, items[1..])
  }

  /** A pane's command list when it can be built (empty otherwise). */
  function KeysOf(venv: seq<string>, schema: Yaml, post: Result<seq<Yaml>>): seq<Yaml> {
    match PaneKeys(venv, schema, post)
    case Ok(items) => items
    case Err(_) => []
  }

  /** The command list of every pane, in order. */
  function KeyLists(schemas: seq<Yaml>, venv: seq<string>, post: Result<seq<Yaml>>): (r: seq<seq<Yaml>>)
    ensures |r| == |schemas|
    decreases |schemas|
  {
    if schemas == [] then [] else [KeysOf(venv, schemas[0], post)] + KeyLists(schemas[1..], venv, post)
  }

  /** The operations of one pane: a split of the previous pane (except for the window's own pane), then its keys. */
  function PaneOps(rev: Rev, f: Formats, session: string, win: string, prev: Rec, first: bool, pane: Rec, items: seq<Yaml>): seq<Argv> {
    (if first then [] else [SplitArgv(rev, f, session, win, Index(prev))]) + KeysTrace(session, win, Index(pane), items)
  }

  /**
   * The operations of the pane loop: pane i (after the first) is a split of
   * pane i-1, followed by the keys of pane i typed into pane i.
   */
  function PanesTrace(rev: Rev, f: Formats, session: string, win: string, prev: Rec, first: bool, ps: seq<Rec>,
                      keys: seq<seq<Yaml>>): seq<Argv>
    decreases |ps|
  {
    if ps == [] || keys == [] then []
    else
      PaneOps(rev, f, session, win, prev, first, ps[0], keys[0])
      + PanesTrace(rev, f, session, win, ps[0], false, ps[1..], keys[1..])
  }

  lemma PanesTraceUnfold(rev: Rev, f: Formats, session: string, win: string, prev: Rec, first: bool, ps: seq<Rec>, keys: seq<seq<Yaml>>)
    requires ps != [] && keys != []
    ensures PanesTrace(rev, f, session, win, prev, first, ps, keys)
         == PaneOps(rev, f, session, win, prev, first, ps[0], keys[0]) + PanesTrace(rev, f, session, win, ps[0], false, ps[1..], keys[1..])
  {
  }

  /** Where the window's own pane comes from does not matter to the trace. */
  lemma PanesTraceFirst(rev: Rev, f: Formats, session: string, win: string, prev: Rec, ps: seq<Rec>, keys: seq<seq<Yaml>>)
    ensures PanesTrace(rev, f, session, win, prev, true, ps, keys) == PanesTrace(rev, f, session, win, map[], true, ps, keys)
  {
    if ps != [] && keys != [] {
      PanesTraceUnfold(rev, f, session, win, prev, true, ps, keys);
      PanesTraceUnfold(rev, f, session, win, map[], true, ps, keys);
    }
  }

  /** A successful command loop types exactly the non-empty commands, in order, into the pane. */
  lemma {:induction false} SendAllTrace(rev: Rev, b: Backend, log: seq<Argv>, session: string, win: string,
                                         pane: Rec, items: seq<Yaml>)
    requires SendAllRun(rev, b, log, session, win, pane, items).1.Ok?
    ensures items != [] ==> "index" in pane
    ensures SendAllRun(rev, b, log, session, win, pane, items).0 == KeysTrace(session, win, Index(pane), items)
    ensures forall i :: 0 <= i < |items| ==> items[i].Str? || Falsy(items[i])
    decreases |items|
  {
    if items != [] {
      var (d1, r1) := SendRun(rev, b, log, session, win, pane["index"], items[0]);
      SendAllTrace(rev, b, log + d1, session, win, pane, items[1..]);
      assert forall i :: 1 <= i < |items| ==> items[i] == items[1..][i - 1];
    }
  }

  /** A successful pane: its operations, its command list, and the window's own pane reused first. */
  lemma PaneRunTrace(rev: Rev, b: Backend, f: Formats, log: seq<Argv>, session: string, win: string, prev: Rec, first: bool,
                     schema: Yaml, venv: seq<string>, post: Result<seq<Yaml>>)
    requires PaneRun(rev, b, f, log, session, win, prev, first, schema, venv, post).1.Ok?
    ensures var (d, r) := PaneRun(rev, b, f, log, session, win, prev, first, schema, venv, post);
      && PaneKeys(venv, schema, post).Ok?
      && d == PaneOps(rev, f, session, win, prev, first, r.value, PaneKeys(venv, schema, post).value)
      && (first ==> r.value == prev)
  {
    var (d0, made) := OpenPane(rev, b, f, log, session, win, prev, first);
    var items := PaneKeys(venv, schema, post).value;
    SendAllTrace(rev, b, log + d0, session, win, made.value, items);
  }

  /** The first pane of a successful pane loop: its command list was built, and the rest of the loop succeeded. */
  lemma PanesRunHead(rev: Rev, b: Backend, f: Formats, log: seq<Argv>, session: string, win: string, prev: Rec,
                     first: bool, schemas: seq<Yaml>, venv: seq<string>, post: Result<seq<Yaml>>)
    returns (done: seq<Argv>, pane: Rec)
    requires schemas != [] && PanesRun(rev, b, f, log, session, win, prev, first, schemas, venv, post).1.Ok?
    ensures PaneKeys(venv, schemas[0], post).Ok?
    ensures PanesRun(rev, b, f, log + done, session, win, pane, false, schemas[1..], venv, post).1.Ok?
  {
    var (d1, r1) := PaneRun(rev, b, f, log, session, win, prev, first, schemas[0], venv, post);
    PaneRunTrace(rev, b, f, log, session, win, prev, first, schemas[0], venv, post);
    done, pane := d1, r1.value;
  }

  /** Every pane's command list can be built (the venv line, its commands, the post commands). */
  predicate KeysBuilt(venv: seq<string>, schemas: seq<Yaml>, post: Result<seq<Yaml>>)
    decreases |schemas|
  {
    schemas == [] || (PaneKeys(venv, schemas[0], post).Ok? && KeysBuilt(venv, schemas[1..], post))
  }

  /** A successful pane loop could build every pane's command list. */
  lemma {:induction false} PanesRunKeys(rev: Rev, b: Backend, f: Formats, log: seq<Argv>, session: string, win: string, prev: Rec,
                                        first: bool, schemas: seq<Yaml>, venv: seq<string>, post: Result<seq<Yaml>>)
    requires PanesRun(rev, b, f, log, session, win, prev, first, schemas, venv, post).1.Ok?
    ensures KeysBuilt(venv, schemas, post)
    decreases |schemas|
  {
    if schemas != [] {
      var done, pane := PanesRunHead(rev, b, f, log, session, win, prev, first, schemas, venv, post);
      PanesRunKeys(rev, b, f, log + done, session, win, pane, false, schemas[1..], venv, post);
    }
  }

  /** A successful pane loop starts in the window's own pane. */
  lemma PanesRunFirst(rev: Rev, b: Backend, f: Formats, log: seq<Argv>, session: string, win: string, prev: Rec,
                      schemas: seq<Yaml>, venv: seq<string>, post: Result<seq<Yaml>>)
    requires schemas != [] && PanesRun(rev, b, f, log, session, win, prev, true, schemas, venv, post).1.Ok?
    ensures PanesRun(rev, b, f, log, session, win, prev, true, schemas, venv, post).1.value[0] == prev
  {
    PaneRunTrace(rev, b, f, log, session, win, prev, true, schemas[0], venv, post);
    PanesRunUnfold(rev, b, f, log, session, win, prev, true, schemas, venv, post);
  }

  /** A successful pane loop issues exactly the declarative trace of the panes it returns. */
  lemma {:induction false} PanesRunTrace(rev: Rev, b: Backend, f: Formats, log: seq<Argv>, session: string, win: string, prev: Rec,
                                         first: bool, schemas: seq<Yaml>, venv: seq<string>, post: Result<seq<Yaml>>)
    requires PanesRun(rev, b, f, log, session, win, prev, first, schemas, venv, post).1.Ok?
    ensures var run := PanesRun(rev, b, f, log, session, win, prev, first, schemas, venv, post);
      run.0 == PanesTrace(rev, f, session, win, prev, first, run.1.value, KeyLists(schemas, venv, post))
    decreases |schemas|
  {
    if schemas != [] {
      var (d1, r1) := PaneRun(rev, b, f, log, session, win, prev, first, schemas[0], venv, post);
      PaneRunTrace(rev, b, f, log, session, win, prev, first, schemas[0], venv, post);
      PanesRunUnfold(rev, b, f, log, session, win, prev, first, schemas, venv, post);
      PanesRunTrace(rev, b, f, log + d1, session, win, r1.value, false, schemas[1..], venv, post);
      var (d2, r2) := PanesRun(rev, b, f, log + d1, session, win, r1.value, false, schemas[1..], venv, post);
      var ps := [r1.value] + r2.value;
      assert ps[0] == r1.value && ps[1..] == r2.value;
      var keys := KeyLists(schemas, venv, post);
      assert keys[0] == KeysOf(venv, schemas[0], post) && keys[1..] == KeyLists(schemas[1..], venv, post);
      PanesTraceUnfold(rev, f, session, win, prev, first, ps, keys);
    }
  }

  /** A later window of mux or mux.py needs the created session's name. */
  lemma CreateNoName(rev: Rev, b: Backend, f: Formats, log: seq<Argv>, name: string, session: Rec, count: nat, win: string)
    requires count > 0 && rev != Mx && "name" !in session
    ensures Create(rev, b, f, log, name, session, count, win).result == Err(KeyError("name"))
  {
  }

  /** Otherwise creation issues exactly one command. */
  lemma CreateDelta(rev: Rev, b: Backend, f: Formats, log: seq<Argv>, name: string, session: Rec, count: nat, win: string)
    requires count == 0 || rev == Mx || "name" in session
    ensures Create(rev, b, f, log, name, session, count, win).delta == [CreateArgv(rev, f, name, session, count, win)]
  {
  }

  /** Only the first window replaces the session record. */
  lemma CreateKeepsSession(rev: Rev, b: Backend, f: Formats, log: seq<Argv>, name: string, session: Rec, count: nat, win: string)
    requires count > 0
    ensures Create(rev, b, f, log, name, session, count, win).session == session
  {
  }

  /** A successful creation issues exactly one command; a later window of mux or mux.py needs the session's name. */
  lemma CreateTrace(rev: Rev, b: Backend, f: Formats, log: seq<Argv>, name: string, session: Rec, count: nat, win: string)
    requires Create(rev, b, f, log, name, session, count, win).result.Ok?
    ensures var c := Create(rev, b, f, log, name, session, count, win);
      && c.delta == [CreateArgv(rev, f, name, session, count, win)]
      && (count > 0 ==> c.session == session && (rev != Mx ==> "name" in session))
  {
    if count > 0 && rev != Mx && "name" !in session {
      CreateNoName(rev, b, f, log, name, session, count, win);
    } else {
      CreateDelta(rev, b, f, log, name, session, count, win);
    }
    if count > 0 {
      CreateKeepsSession(rev, b, f, log, name, session, count, win);
    }
  }

  /** The pieces of a successful create_window. */
  lemma WindowRunUnfold(rev: Rev, b: Backend, f: Formats, log: seq<Argv>, name: string, session: Rec, count: nat,
                        w: WindowSpec, venv: seq<string>)
    requires WindowRun(rev, b, f, log, name, session, count, w, venv).result.Ok?
    ensures var c := Create(rev, b, f, log, name, session, count, w.name);
      var r := WindowRun(rev, b, f, log, name, session, count, w, venv);
      && c.result.Ok? && "name" in c.session && Iterate(w.panes).Ok? && LayoutText(w.layout, Invalid(rev)).Ok?
      && r.session == c.session
      && var run := PanesRun(rev, b, f, log + c.delta, c.session["name"], w.name, c.result.value.1, true, Iterate(w.panes).value, venv, w.post);
         && run.1.Ok?
         && r.result.value.panes == run.1.value
         && r.delta == c.delta + run.0 + [SetLayoutArgv(c.session["name"], w.name, LayoutText(w.layout, Invalid(rev)).value)]
  {
  }

  /**
   * A successful create_window: one creation, the pane loop (each extra pane
   * splitting the previous one), then one select-layout.
   */
  lemma WindowRunTrace(rev: Rev, b: Backend, f: Formats, log: seq<Argv>, name: string, session: Rec, count: nat,
                       w: WindowSpec, venv: seq<string>)
    requires WindowRun(rev, b, f, log, name, session, count, w, venv).result.Ok?
    ensures var r := WindowRun(rev, b, f, log, name, session, count, w, venv);
      && (count > 0 && rev != Mx ==> "name" in session)
      && "name" in r.session && Iterate(w.panes).Ok? && LayoutText(w.layout, Invalid(rev)).Ok?
      && |r.result.value.panes| == |Iterate(w.panes).value|
      && r.delta == [CreateArgv(rev, f, name, session, count, w.name)]
         + PanesTrace(rev, f, r.session["name"], w.name, map[], true, r.result.value.panes, KeyLists(Iterate(w.panes).value, venv, w.post))
         + [SetLayoutArgv(r.session["name"], w.name, LayoutText(w.layout, Invalid(rev)).value)]
      && KeysBuilt(venv, Iterate(w.panes).value, w.post)
  {
    var c := Create(rev, b, f, log, name, session, count, w.name);
    WindowRunUnfold(rev, b, f, log, name, session, count, w, venv);
    CreateTrace(rev, b, f, log, name, session, count, w.name);
    var schemas := Iterate(w.panes).value;
    var sname := c.session["name"];
    var pane := c.result.value.1;
    PanesRunTrace(rev, b, f, log + c.delta, sname, w.name, pane, true, schemas, venv, w.post);
    PanesRunKeys(rev, b, f, log + c.delta, sname, w.name, pane, true, schemas, venv, w.post);
    var ps := PanesRun(rev, b, f, log + c.delta, sname, w.name, pane, true, schemas, venv, w.post);
    PanesTraceFirst(rev, f, sname, w.name, pane, ps.1.value, KeyLists(schemas, venv, w.post));
  }

  // ---------------------------------------------------------------------
  // Counting operations

  /** The kinds of operation the orchestrator issues. */
  datatype Kind = SessionOp | WindowOp | SplitOp | LayoutOp | KeysOp | OtherOp

  function KindOf(argv: Argv): Kind {
    match Verb(argv)
    case "new-session" => SessionOp
    case "new-window" => WindowOp
    case "split-window" => SplitOp
    case "select-layout" => LayoutOp
    case "send-keys" => KeysOp
    case _ => OtherOp
  }

  /** How many operations of a sequence are of the given kind. */
  function Count(ops: seq<Argv>, k: Kind): nat
    decreases |ops|
  {
    if ops == [] then 0 else (if KindOf(ops[0]) == k then 1 else 0) + Count(ops[1..], k)
  }

  lemma {:induction false} CountAppend(a: seq<Argv>, b: seq<Argv>, k: Kind)
    ensures Count(a + b, k) == Count(a, k) + Count(b, k)
    decreases |a|
  {
    if a != [] {
      assert (a + b)[1..] == a[1..] + b;
      CountAppend(a[1..], b, k);
    } else {
      assert a + b == b;
    }
  }

  lemma CountJoin(whole: seq<Argv>, a: seq<Argv>, b: seq<Argv>, k: Kind, ca: nat, cb: nat, total: nat)
    requires whole == a + b && Count(a, k) == ca && Count(b, k) == cb && total == ca + cb
    ensures Count(whole, k) == total
  {
    CountAppend(a, b, k);
  }

  lemma CountSingle(argv: Argv, k: Kind)
    ensures Count([argv], k) == if KindOf(argv) == k then 1 else 0
  {
    assert [argv][1..] == [];
  }

  /** Every operation is of exactly one kind. */
  lemma {:induction false} CountPartition(ops: seq<Argv>)
    ensures |ops| == Count(ops, SessionOp) + Count(ops, WindowOp) + Count(ops, SplitOp) + Count(ops, LayoutOp)
                     + Count(ops, KeysOp) + Count(ops, OtherOp)
    decreases |ops|
  {
    if ops != [] {
      CountPartition(ops[1..]);
    }
  }

  /** The kind of an operation is read off its subcommand. */
  lemma KindOfVerb(argv: Argv)
    ensures Verb(argv) == "new-session" ==> KindOf(argv) == SessionOp
    ensures Verb(argv) == "new-window" ==> KindOf(argv) == WindowOp
    ensures Verb(argv) == "split-window" ==> KindOf(argv) == SplitOp
    ensures Verb(argv) == "select-layout" ==> KindOf(argv) == LayoutOp
    ensures Verb(argv) == "send-keys" ==> KindOf(argv) == KeysOp
  {
  }

  /** The subcommand of a command argv is its first word. */
  lemma CommandKind(cmd: Argv, formats: seq<string>)
    requires cmd != []
    ensures Verb(CommandArgv(cmd, formats)) == cmd[0]
  {
    var argv := CommandArgv(cmd, formats);
    assert argv[1..|cmd| + 1][0] == argv[1];
  }

  lemma SplitKind(rev: Rev, f: Formats, session: string, win: string, pane: string)
    ensures KindOf(SplitArgv(rev, f, session, win, pane)) == SplitOp
  {
    if rev == Script {
      assert Verb(ScriptNewPaneArgv(f, session, win, pane)) == "split-window";
    } else {
      CommandKind(["split-window", "-h", "-P", "-t", PaneTarget(session, win, pane)], PaneFormats);
    }
    KindOfVerb(SplitArgv(rev, f, session, win, pane));
  }

  lemma KeysKind(session: string, win: string, pane: string, cmd: string)
    ensures KindOf(SendKeysArgv(session, win, pane, cmd, true)) == KeysOp
  {
    CommandKind(["send-keys", "-Rt", PaneTarget(session, win, pane), cmd, "C-m"], []);
    KindOfVerb(SendKeysArgv(session, win, pane, cmd, true));
  }

  lemma LayoutKind(session: string, win: string, layout: string)
    ensures KindOf(SetLayoutArgv(session, win, layout)) == LayoutOp
  {
    CommandKind(["select-layout", "-t", session + ":" + win, LayoutName(layout)], []);
    KindOfVerb(SetLayoutArgv(session, win, layout));
  }

  lemma CreateKind(rev: Rev, f: Formats, name: string, session: Rec, count: nat, win: string)
    ensures KindOf(CreateArgv(rev, f, name, session, count, win)) == if count == 0 then SessionOp else WindowOp
  {
    if count == 0 {
      CommandKind(["new-session", "-Pd", "-s", name] + NameOption(win), SessionFormats);
    } else {
      var target := if rev == Mx || "name" !in session then name else session["name"];
      CommandKind(["new-window", "-Pd", "-t", target] + NameOption(win), WindowFormats);
    }
    KindOfVerb(CreateArgv(rev, f, name, session, count, win));
  }

  /** The keys of a pane are send-keys only, one per typed command. */
  lemma {:induction false} KeysTraceCount(session: string, win: string, pane: string, items: seq<Yaml>, k: Kind)
    ensures Count(KeysTrace(session, win, pane, items), k) == if k == KeysOp then TypedCount(items) else 0
    decreases |items|
  {
    if items != [] {
      var head := if items[0].Str? && items[0].s != "" then [SendKeysArgv(session, win, pane, items[0].s, true)] else [];
      KeysTraceCount(session, win, pane, items[1..], k);
      CountAppend(head, KeysTrace(session, win, pane, items[1..]), k);
      if head != [] {
        KeysKind(session, win, pane, items[0].s);
        CountSingle(head[0], k);
      }
    }
  }

  /** The commands typed across the panes. */
  function TypedTotal(keys: seq<seq<Yaml>>): nat
    decreases |keys|
  {
    if keys == [] then 0 else TypedCount(keys[0]) + TypedTotal(keys[1..])
  }

  /** What a kind costs when `splits` panes are split off and `keys` commands typed. */
  function PanesCost(k: Kind, splits: nat, keys: nat): nat {
    if k == SplitOp then splits else if k == KeysOp then keys else 0
  }

  /** Counts of consecutive pieces of pane work add up. */
  lemma CountStep(whole: seq<Argv>, head: seq<Argv>, tail: seq<Argv>, k: Kind, s1: nat, t1: nat, s2: nat, t2: nat, s: nat, t: nat)
    requires whole == head + tail && s == s1 + s2 && t == t1 + t2
    requires Count(head, k) == PanesCost(k, s1, t1) && Count(tail, k) == PanesCost(k, s2, t2)
    ensures Count(whole, k) == PanesCost(k, s, t)
  {
    CountAppend(head, tail, k);
  }

  /** One pane: a split unless it is the window's own pane, and one send-keys per typed command. */
  lemma PaneOpsCount(rev: Rev, f: Formats, session: string, win: string, prev: Rec, first: bool, pane: Rec, items: seq<Yaml>, k: Kind)
    ensures Count(PaneOps(rev, f, session, win, prev, first, pane, items), k) == PanesCost(k, if first then 0 else 1, TypedCount(items))
  {
    var split: seq<Argv> := if first then [] else [SplitArgv(rev, f, session, win, Index(prev))];
    KeysTraceCount(session, win, Index(pane), items, k);
    if !first {
      SplitKind(rev, f, session, win, Index(prev));
      CountSingle(split[0], k);
    }
    CountAppend(split, KeysTrace(session, win, Index(pane), items), k);
  }

  /** The pane loop: max(M-1, 0) splits for M panes of a new window, and the typed commands of every pane. */
  lemma {:induction false} PanesTraceCount(rev: Rev, f: Formats, session: string, win: string, prev: Rec, first: bool, ps: seq<Rec>,
                                            keys: seq<seq<Yaml>>, k: Kind)
    requires |ps| == |keys|
    ensures Count(PanesTrace(rev, f, session, win, prev, first, ps, keys), k)
         == PanesCost(k, if ps == [] then 0 else if first then |ps| - 1 else |ps|, TypedTotal(keys))
    decreases |ps|
  {
    if ps != [] {
      var head := PaneOps(rev, f, session, win, prev, first, ps[0], keys[0]);
      var tail := PanesTrace(rev, f, session, win, ps[0], false, ps[1..], keys[1..]);
      PaneOpsCount(rev, f, session, win, prev, first, ps[0], keys[0], k);
      PanesTraceCount(rev, f, session, win, ps[0], false, ps[1..], keys[1..], k);
      PanesTraceUnfold(rev, f, session, win, prev, first, ps, keys);
      CountStep(PanesTrace(rev, f, session, win, prev, first, ps, keys), head, tail, k,
                if first then 0 else 1, TypedCount(keys[0]), |ps| - 1, TypedTotal(keys[1..]),
                if first then |ps| - 1 else |ps|, TypedTotal(keys));
    } else {
      assert keys == [];
    }
  }

  /**
   * What a window schema should cost, read off the schema alone: one
   * creation (a session for the first window), one layout, max(M-1, 0)
   * splits and the typed commands of its panes.
   */
  function WindowCost(w: Yaml, venv: seq<string>, first: bool, k: Kind): nat {
    var fixed := if k == LayoutOp || k == (if first then SessionOp else WindowOp) then 1 else 0;
    match NormalizeWindow(w)
    case Err(_) => fixed
    case Ok(spec) =>
      match Iterate(spec.panes)
      case Err(_) => fixed
      case Ok(schemas) => fixed + PanesCost(k, if schemas == [] then 0 else |schemas| - 1, TypedTotal(KeyLists(schemas, venv, spec.post)))
  }

  /** The three parts of a successful create_window, counted. */
  lemma WindowParts(create: Argv, panes: seq<Argv>, layout: Argv, k: Kind)
    requires KindOf(layout) == LayoutOp && KindOf(create) != LayoutOp
    ensures Count([create] + panes + [layout], k) == (if k == LayoutOp || k == KindOf(create) then 1 else 0) + Count(panes, k)
  {
    CountSingle(create, k);
    CountSingle(layout, k);
    CountAppend([create] + panes, [layout], k);
    CountAppend([create], panes, k);
  }

  /** The cost of a window schema that normalises, and whose panes iterate. */
  lemma WindowCostOk(w: Yaml, venv: seq<string>, first: bool, k: Kind, spec: WindowSpec, schemas: seq<Yaml>)
    requires NormalizeWindow(w) == Ok(spec) && Iterate(spec.panes) == Ok(schemas)
    ensures WindowCost(w, venv, first, k)
         == (if k == LayoutOp || k == (if first then SessionOp else WindowOp) then 1 else 0)
            + PanesCost(k, if schemas == [] then 0 else |schemas| - 1, TypedTotal(KeyLists(schemas, venv, spec.post)))
  {
  }

  /** The operations of a successful create_window, counted against the schema. */
  lemma WindowTraceCount(rev: Rev, f: Formats, name: string, session: Rec, count: nat, w: Yaml, spec: WindowSpec, venv: seq<string>,
                         sname: string, ps: seq<Rec>, layout: string, k: Kind)
    requires NormalizeWindow(w) == Ok(spec) && Iterate(spec.panes).Ok? && |ps| == |Iterate(spec.panes).value|
    ensures Count([CreateArgv(rev, f, name, session, count, spec.name)]
                  + PanesTrace(rev, f, sname, spec.name, map[], true, ps, KeyLists(Iterate(spec.panes).value, venv, spec.post))
                  + [SetLayoutArgv(sname, spec.name, layout)], k)
         == WindowCost(w, venv, count == 0, k)
  {
    var schemas := Iterate(spec.panes).value;
    var keys := KeyLists(schemas, venv, spec.post);
    PanesTraceCount(rev, f, sname, spec.name, map[], true, ps, keys, k);
    LayoutKind(sname, spec.name, layout);
    CreateKind(rev, f, name, session, count, spec.name);
    WindowCostOk(w, venv, count == 0, k, spec, schemas);
    WindowParts(CreateArgv(rev, f, name, session, count, spec.name), PanesTrace(rev, f, sname, spec.name, map[], true, ps, keys),
                SetLayoutArgv(sname, spec.name, layout), k);
  }

  /** One window costs what its schema says. */
  lemma WindowRunCount(rev: Rev, b: Backend, f: Formats, log: seq<Argv>, name: string, session: Rec, count: nat,
                       spec: WindowSpec, venv: seq<string>, w: Yaml, k: Kind)
    requires NormalizeWindow(w) == Ok(spec)
    requires WindowRun(rev, b, f, log, name, session, count, spec, venv).result.Ok?
    ensures Count(WindowRun(rev, b, f, log, name, session, count, spec, venv).delta, k) == WindowCost(w, venv, count == 0, k)
  {
    var r := WindowRun(rev, b, f, log, name, session, count, spec, venv);
    WindowRunTrace(rev, b, f, log, name, session, count, spec, venv);
    WindowTraceCount(rev, f, name, session, count, w, spec, venv, r.session["name"], r.result.value.panes,
                     LayoutText(spec.layout, Invalid(rev)).value, k);
  }

  /** What an entry costs, for each position (first or not) it may take. */
  type EntryCost = (Yaml, bool) -> nat

  /** The cost of a list of entries, of which only the first may be first. */
  function CostSum(cost: EntryCost, ws: seq<Yaml>, first: bool): nat
    decreases |ws|
  {
    if ws == [] then 0 else cost(ws[0], first) + CostSum(cost, ws[1..], false)
  }

  /** What a log gained past a prefix is the first part of it, then the rest. */
  lemma SuffixSplit(log: seq<Argv>, d: seq<Argv>, whole: seq<Argv>)
    requires |log + d| <= |whole| && whole[..|log + d|] == log + d
    ensures |log| <= |whole| && whole[|log|..] == d + whole[|log + d|..]
  {
    assert whole == (log + d) + whole[|log + d|..];
    AppendAssoc(log, d, whole[|log + d|..]);
  }

  /** If every entry that succeeds issues what it costs, a loop that succeeds appends the sum to the log. */
  lemma {:induction false} LoopCount(step: EntryStep, cost: EntryCost, k: Kind, log: seq<Argv>, session: Rec, made: seq<WindowInfo>,
                                     ws: seq<Yaml>)
    requires forall l, s, c, w :: step(l, s, c, w).result.Ok? ==> Count(step(l, s, c, w).delta, k) == cost(w, c == 0)
    requires Loop(step, log, session, made, ws).failure.None?
    ensures var r := Loop(step, log, session, made, ws);
      |log| <= |r.log| && Count(r.log[|log|..], k) == CostSum(cost, ws, made == [])
    decreases |ws|
  {
    var r := Loop(step, log, session, made, ws);
    if ws == [] {
      assert r.log[|log|..] == [];
    } else {
      var st := step(log, session, |made|, ws[0]);
      var log' := log + st.delta;
      LoopCount(step, cost, k, log', st.session, made + [st.result.value], ws[1..]);
      LoopExtends(step, log', st.session, made + [st.result.value], ws[1..]);
      assert made + [st.result.value] != [];
      SuffixSplit(log, st.delta, r.log);
      CountAppend(st.delta, r.log[|log'|..], k);
    }
  }

  /** What a window schema costs, as an entry of the loop. */
  function WindowCosts(venv: seq<string>, k: Kind): EntryCost {
    (w: Yaml, first: bool) => WindowCost(w, venv, first, k)
  }

  /** What a window list should cost: the first window (of a fresh workspace) creates the session. */
  function SchemaCost(ws: seq<Yaml>, venv: seq<string>, first: bool, k: Kind): nat {
    CostSum(WindowCosts(venv, k), ws, first)
  }

  /**
   * A successful window loop issues, of each kind, what the schema says: in
   * a fresh workspace one new-session, N-1 new-window, the sum of
   * max(M_i - 1, 0) split-window, N select-layout and one send-keys per
   * non-empty string command.
   */
  lemma WindowsRunCount(rev: Rev, b: Backend, f: Formats, log: seq<Argv>, name: string, session: Rec, made: seq<WindowInfo>,
                        ws: seq<Yaml>, venv: seq<string>, k: Kind)
    requires WindowsRun(rev, b, f, log, name, session, made, ws, venv).failure.None?
    ensures var r := WindowsRun(rev, b, f, log, name, session, made, ws, venv);
      |log| <= |r.log| && Count(r.log[|log|..], k) == SchemaCost(ws, venv, made == [], k)
  {
    var step := WindowStep(rev, b, f, name, venv);
    var cost := WindowCosts(venv, k);
    forall l, s, c, w | step(l, s, c, w).result.Ok?
      ensures Count(step(l, s, c, w).delta, k) == cost(w, c == 0)
    {
      WindowRunCount(rev, b, f, l, name, s, c, NormalizeWindow(w).value, venv, w, k);
    }
    LoopCount(step, cost, k, log, session, made, ws);
  }

  /** The schema's cost in closed form: N windows give one session (when first), N-1 windows, N layouts and nothing else. */
  lemma {:induction false} SchemaCostWindows(ws: seq<Yaml>, venv: seq<string>, first: bool)
    ensures SchemaCost(ws, venv, first, LayoutOp) == |ws|
    ensures SchemaCost(ws, venv, first, SessionOp) == (if first && ws != [] then 1 else 0)
    ensures SchemaCost(ws, venv, first, WindowOp) == (if first && ws != [] then |ws| - 1 else |ws|)
    ensures SchemaCost(ws, venv, first, OtherOp) == 0
  {
    SchemaCostFixed(ws, venv, first, LayoutOp);
    SchemaCostFixed(ws, venv, first, SessionOp);
    SchemaCostFixed(ws, venv, first, WindowOp);
    SchemaCostFixed(ws, venv, first, OtherOp);
  }

  /** What a window list costs in a kind that does not depend on the panes. */
  function FixedCost(k: Kind, n: nat, first: bool): nat {
    if n == 0 then 0
    else if k == LayoutOp then n
    else if k == SessionOp then (if first then 1 else 0)
    else if k == WindowOp then (if first then n - 1 else n)
    else 0
  }

  /** One window, in a kind that does not depend on its panes. */
  lemma WindowCostFixed(w: Yaml, venv: seq<string>, first: bool, k: Kind)
    requires k != SplitOp && k != KeysOp
    ensures WindowCost(w, venv, first, k) == FixedCost(k, 1, first)
  {
  }

  lemma {:induction false} SchemaCostFixed(ws: seq<Yaml>, venv: seq<string>, first: bool, k: Kind)
    requires k != SplitOp && k != KeysOp
    ensures SchemaCost(ws, venv, first, k) == FixedCost(k, |ws|, first)
    decreases |ws|
  {
    if ws != [] {
      SchemaCostFixed(ws[1..], venv, false, k);
      WindowCostFixed(ws[0], venv, first, k);
      assert WindowCosts(venv, k)(ws[0], first) == WindowCost(ws[0], venv, first, k);
    }
  }
}
