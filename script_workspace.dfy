/*
 * The Workspace class of the single-file revision (mux.py): it builds the
 * tmux records itself (`_new_session`, `_new_window`, `_new_pane`), types
 * and lays out through its own `send_keys` and `set_layout`, and creates
 * the windows without checking the directory it changes into.
 *
 * Every method is proved to hand tmux exactly the commands the
 * orchestration functions describe (with the revision `Script`), and to
 * return what they return.
 */
module ScriptWorkspace {
  import opened Common
  import opened Tmux
  import opened ScriptTmux
  import opened Schema
  import opened Orchestration

  /** The parsed workspace file; "" stands for an absent name, dir or venv, an absent window list is empty. */
  datatype Config = Config(name: string, dir: string, venv: string, windows: Yaml)

  /** mux.py formats the activation line around the venv as written: nothing is joined or expanded. */
  function ScriptActivationLine(venv: string): (line: string)
    ensures StartsWith(line, " source \"") && EndsWith(line, "/bin/activate\"")
  {
    " source \"" + venv + "/bin/activate\""
  }

  /** For a venv written without a trailing `/`, the line is the one the later revisions type. */
  lemma ScriptActivationLineAgrees(venv: string)
    requires venv != "" && !EndsWith(venv, "/")
    ensures ScriptActivationLine(venv) == ActivationLine(venv)
  {
    ActivationLineShape(venv);
  }

  /** The activation lines of a configuration: one when a venv is configured, none otherwise. */
  function VenvLines(venv: string): (r: seq<string>)
    ensures venv == "" <==> r == []
    ensures venv != "" ==> r == [ScriptActivationLine(venv)]
  {
    if venv != "" then [ScriptActivationLine(venv)] else []
  }

  class Workspace {
    const tmux: ScriptGateway
    const host: Host
    const config: Config
    /** The activation line typed first in every pane, if a virtualenv is configured. */
    const venv: seq<string>
    /** The process's current directory (os.chdir). */
    var cwd: string
    var session: Rec
    var windows: seq<WindowInfo>

    /** A workspace over a parsed configuration (the class-level defaults are given to each instance). */
    constructor (tmux: ScriptGateway, host: Host, cwd: string, config: Config)
      ensures this.tmux == tmux && this.host == host && this.cwd == cwd && this.config == config
      ensures venv == VenvLines(config.venv) && session == map[] && windows == []
    {
      this.tmux := tmux;
      this.host := host;
      this.cwd := cwd;
      this.config := config;
      venv := VenvLines(config.venv);
      session := map[];
      windows := [];
    }

    /** _new_session: an empty answer raises, a record is bucketed by key prefix into session, window and pane. */
    method NewSession(sname: string, win: string) returns (r: Result<(Rec, Rec, Rec)>)
      modifies tmux
      ensures var argv := NewSessionArgv(tmux.formats, sname, win);
        tmux.log == old(tmux.log) + [argv]
        && r == (match Answer(Script, tmux.backend, old(tmux.log), argv)
                 case Err(e) => Err(e)
                 case Ok(o) => SessionFrom(Script, o))
    {
      var output := tmux.Command(["new-session", "-Pd", "-s", sname] + NameOption(win), tmux.formats.session, false);
      if output.Err? {
        return Err(output.error);
      }
      if OutputFalsy(output.value) {
        return Err(GenericError("Error creating session"));
      }
      if !(output.value.Parsed? && output.value.value.Record?) {
        return Err(AttributeError);
      }
      var bs := BucketFields(output.value.value.fields, ["window_", "pane_"]);
      if bs.Err? {
        return Err(bs.error);
      }
      r := Ok((bs.value[2], bs.value[0], bs.value[1]));
    }

    /** _new_window: an empty answer raises, a record is bucketed into window and pane. */
    method NewWindow(sname: string, win: string) returns (r: Result<(Rec, Rec)>)
      modifies tmux
      ensures var argv := NewWindowArgv(tmux.formats, sname, win);
        tmux.log == old(tmux.log) + [argv]
        && r == (match Answer(Script, tmux.backend, old(tmux.log), argv)
                 case Err(e) => Err(e)
                 case Ok(o) => WindowFrom(Script, o))
    {
      var output := tmux.Command(["new-window", "-Pd", "-t", sname] + NameOption(win), tmux.formats.window, false);
      if output.Err? {
        return Err(output.error);
      }
      if OutputFalsy(output.value) {
        return Err(GenericError("Error creating window"));
      }
      if !(output.value.Parsed? && output.value.value.Record?) {
        return Err(AttributeError);
      }
      var bs := BucketFields(output.value.value.fields, ["pane_"]);
      if bs.Err? {
        return Err(bs.error);
      }
      r := Ok((bs.value[1], bs.value[0]));
    }

    /** _new_pane: split the given pane; an empty answer raises, every key goes into the pane record. */
    method NewPane(sname: string, win: string, pane: string) returns (r: Result<Rec>)
      modifies tmux
      ensures var argv := ScriptNewPaneArgv(tmux.formats, sname, win, pane);
        tmux.log == old(tmux.log) + [argv]
        && r == (match Answer(Script, tmux.backend, old(tmux.log), argv)
                 case Err(e) => Err(e)
                 case Ok(o) => PaneFrom(Script, o))
    {
      assert [sname, win][1..] == [win];
      assert Join([win], ":") == win;
      var output := tmux.Command(["split-window", "-P", "-t", Join([sname, win], ":") + "." + pane, "-h"], tmux.formats.pane, false);
      if output.Err? {
        return Err(output.error);
      }
      if OutputFalsy(output.value) {
        return Err(GenericError("Error creating pane"));
      }
      if !(output.value.Parsed? && output.value.value.Record?) {
        return Err(AttributeError);
      }
      var bs := BucketFields(output.value.value.fields, []);
      if bs.Err? {
        return Err(bs.error);
      }
      r := Ok(bs.value[0]);
    }

    /** set_layout: `tiled` unless a layout is given. */
    method SetLayout(sname: string, win: string, layout: string) returns (r: Result<Output>)
      modifies tmux
      ensures tmux.log == old(tmux.log) + [SetLayoutArgv(sname, win, layout)]
      ensures r == ScriptInterpret(tmux.backend, tmux.backend.server(old(tmux.log), SetLayoutArgv(sname, win, layout)), false)
    {
      r := tmux.Command(["select-layout", "-t", sname + ":" + win, if layout != "" then layout else "tiled"], [], false);
    }

    /** send_keys: nothing for an empty command, else the command followed by C-m when enter is wanted. */
    method SendKeys(sname: string, win: string, pane: string, cmd: string, enter: bool) returns (r: Result<Option<Output>>)
      modifies tmux
      ensures cmd == "" ==> tmux.log == old(tmux.log) && r == Ok(None)
      ensures cmd != "" ==> tmux.log == old(tmux.log) + [SendKeysArgv(sname, win, pane, cmd, enter)]
      ensures cmd != "" ==>
        r == (match ScriptInterpret(tmux.backend, tmux.backend.server(old(tmux.log), SendKeysArgv(sname, win, pane, cmd, enter)), false)
              case Ok(o) => Ok(Some(o))
              case Err(e) => Err(e))
    {
      if cmd == "" {
        return Ok(None);
      }
      var out := tmux.Command(["send-keys", "-Rt", sname + ":" + win + "." + pane, cmd, if enter then "C-m" else ""], [], false);
      r := if out.Err? then Err(out.error) else Ok(Some(out.value));
    }

    /** The command loop of one pane: each command typed into the pane, whose index is looked up every time. */
    method TypeCommands(sname: string, win: string, pane: Rec, items: seq<Yaml>) returns (r: Result<()>)
      modifies tmux
      ensures tmux.log == old(tmux.log) + SendAllRun(Script, tmux.backend, old(tmux.log), sname, win, pane, items).0
      ensures r == SendAllRun(Script, tmux.backend, old(tmux.log), sname, win, pane, items).1
    {
      ghost var log0 := tmux.log;
      ghost var done: seq<Argv> := [];
      var rest := items;
      assert log0 + done == log0;
      assert [] + SendAllRun(Script, tmux.backend, log0, sname, win, pane, items).0 == SendAllRun(Script, tmux.backend, log0, sname, win, pane, items).0;
      while rest != []
        invariant tmux.log == log0 + done
        invariant AfterKeys(done, SendAllRun(Script, tmux.backend, log0 + done, sname, win, pane, rest))
               == SendAllRun(Script, tmux.backend, log0, sname, win, pane, items)
        decreases |rest|
      {
        if "index" !in pane {
          return Err(KeyError("index"));
        }
        var text := CmdText(rest[0], Invalid(Script));
        if text.Err? {
          return Err(text.error);
        }
        var sent := SendKeys(sname, win, pane["index"], text.value, true);
        if sent.Err? {
          return Err(sent.error);
        }
        SendAllStep(Script, tmux.backend, log0, done, sname, win, pane, rest);
        done := done + SendRun(Script, tmux.backend, log0 + done, sname, win, pane["index"], rest[0]).0;
        rest := rest[1..];
      }
      r := Ok(());
    }

    /** One iteration of the pane loop: the window's own pane first, a split of the previous pane afterwards, then its commands. */
    method AddPane(sname: string, win: string, prev: Rec, first: bool, schema: Yaml, post: Result<seq<Yaml>>)
      returns (r: Result<Rec>)
      modifies tmux
      ensures tmux.log == old(tmux.log) + PaneRun(Script, tmux.backend, tmux.formats, old(tmux.log), sname, win, prev, first, schema, venv, post).0
      ensures r == PaneRun(Script, tmux.backend, tmux.formats, old(tmux.log), sname, win, prev, first, schema, venv, post).1
    {
      ghost var log0 := tmux.log;
      ghost var opening := OpenPane(Script, tmux.backend, tmux.formats, log0, sname, win, prev, first);
      var pane := prev;
      if !first {
        if "index" !in prev {
          return Err(KeyError("index"));
        }
        var made := NewPane(sname, win, prev["index"]);
        if made.Err? {
          return Err(made.error);
        }
        pane := made.value;
      }
      assert tmux.log == log0 + opening.0 && opening.1 == Ok(pane);
      var keys := PaneKeys(venv, schema, post);
      if keys.Err? {
        return Err(keys.error);
      }
      ghost var sending := SendAllRun(Script, tmux.backend, log0 + opening.0, sname, win, pane, keys.value);
      var sent := TypeCommands(sname, win, pane, keys.value);
      AppendAssoc(log0, opening.0, sending.0);
      if sent.Err? {
        return Err(sent.error);
      }
      r := Ok(pane);
    }

    /**
     * The creating half of _create_window: the session (named by the
     * configuration) for the first window, afterwards a window in the
     * session tmux reported.
     */
    method CreateFirst(win: string) returns (r: Result<(Rec, Rec)>)
      modifies this`session, tmux
      ensures var c := Create(Script, tmux.backend, tmux.formats, old(tmux.log), config.name, old(session), |windows|, win);
        tmux.log == old(tmux.log) + c.delta && session == c.session && r == c.result
    {
      if |windows| > 0 {
        if "name" !in session {
          return Err(KeyError("name"));
        }
        r := NewWindow(session["name"], win);
      } else {
        var made := NewSession(config.name, win);
        if made.Err? {
          return Err(made.error);
        }
        session := made.value.0;
        r := if session == map[] then Err(SystemExit(1)) else Ok((made.value.1, made.value.2));
      }
    }

    /** The pane loop of create_window: every pane schema in order, each split from the pane made before it. */
    method AddPanes(sname: string, win: string, pane: Rec, schemas: seq<Yaml>, post: Result<seq<Yaml>>)
      returns (r: Result<seq<Rec>>)
      modifies tmux
      ensures var run := PanesRun(Script, tmux.backend, tmux.formats, old(tmux.log), sname, win, pane, true, schemas, venv, post);
        tmux.log == old(tmux.log) + run.0 && r == run.1
    {
      ghost var log1 := tmux.log;
      ghost var done: seq<Argv> := [];
      var ps: seq<Rec> := [];
      var prev := pane;
      var first := true;
      var rest := schemas;
      ghost var all := PanesRun(Script, tmux.backend, tmux.formats, log1, sname, win, pane, true, schemas, venv, post);
      assert log1 + done == log1 && done + all.0 == all.0 && (all.1.Ok? ==> ps + all.1.value == all.1.value);
      while rest != []
        invariant tmux.log == log1 + done
        invariant After(done, ps, PanesRun(Script, tmux.backend, tmux.formats, log1 + done, sname, win, prev, first, rest, venv, post)) == all
        decreases |rest|
      {
        ghost var d1 := PaneRun(Script, tmux.backend, tmux.formats, log1 + done, sname, win, prev, first, rest[0], venv, post).0;
        var made := AddPane(sname, win, prev, first, rest[0], post);
        if made.Err? {
          PanesRunStop(Script, tmux.backend, tmux.formats, log1, done, ps, sname, win, prev, first, rest, venv, post);
          return Err(made.error);
        }
        PanesRunStep(Script, tmux.backend, tmux.formats, log1, done, ps, sname, win, prev, first, rest, venv, post, d1, made.value);
        AppendAssoc(log1, done, d1);
        done := done + d1;
        ps := ps + [made.value];
        prev := made.value;
        first := false;
        rest := rest[1..];
      }
      assert done + [] == done && ps + [] == ps;
      r := Ok(ps);
    }

    /** The rest of create_window once the window exists: the panes, then the layout. */
    method FillWindow(sname: string, window: Rec, pane: Rec, w: WindowSpec) returns (r: Result<WindowInfo>)
      modifies tmux
      ensures var run := Fill(Script, tmux.backend, tmux.formats, old(tmux.log), sname, w.name, window, pane, w, venv);
        tmux.log == old(tmux.log) + run.0 && r == run.1
    {
      var schemas := Iterate(w.panes);
      if schemas.Err? {
        return Err(schemas.error);
      }
      ghost var log1 := tmux.log;
      var ps := AddPanes(sname, w.name, pane, schemas.value, w.post);
      if ps.Err? {
        return Err(ps.error);
      }
      var text := LayoutText(w.layout, Invalid(Script));
      if text.Err? {
        return Err(text.error);
      }
      ghost var d := tmux.log[|log1|..];
      assert tmux.log == log1 + d;
      var out := SetLayout(sname, w.name, text.value);
      AppendAssoc(log1, d, [SetLayoutArgv(sname, w.name, text.value)]);
      if out.Err? {
        return Err(out.error);
      }
      r := Ok(WindowInfo(window - {"panes"}, ps.value));
    }

    /** create_window: create, run the panes, then set the layout. */
    method CreateWindow(w: WindowSpec) returns (r: Result<WindowInfo>)
      modifies this`session, tmux
      ensures var st := WindowRun(Script, tmux.backend, tmux.formats, old(tmux.log), config.name, old(session), |windows|, w, venv);
        tmux.log == old(tmux.log) + st.delta && session == st.session && r == st.result
    {
      ghost var log0 := tmux.log;
      var made := CreateFirst(w.name);
      if made.Err? {
        return Err(made.error);
      }
      if "name" !in session {
        return Err(KeyError("name"));
      }
      ghost var log1 := tmux.log;
      r := FillWindow(session["name"], made.value.0, made.value.1, w);
      AppendAssoc(log0, log1[|log0|..], tmux.log[|log1|..]);
    }

    /** One entry of the window loop: normalise it, then create_window. */
    method EnterWindow(w: Yaml) returns (r: Result<WindowInfo>)
      modifies this`session, tmux
      ensures var st := WindowEntry(Script, tmux.backend, tmux.formats, old(tmux.log), config.name, old(session), |windows|, w, venv);
        tmux.log == old(tmux.log) + st.delta && session == st.session && r == st.result
    {
      var spec := NormalizeWindow(w);
      if spec.Err? {
        assert tmux.log == tmux.log + [];
        return Err(spec.error);
      }
      r := CreateWindow(spec.value);
    }

    /** The window loop of start: every entry in order until one fails. */
    method MakeWindows(ws: seq<Yaml>) returns (r: Result<seq<WindowInfo>>)
      modifies this`session, this`windows, tmux
      ensures var run := WindowsRun(Script, tmux.backend, tmux.formats, old(tmux.log), config.name, old(session), old(windows), ws, venv);
        tmux.log == run.log && session == run.session && windows == run.made && r == Outcome(run)
    {
      ghost var step := WindowStep(Script, tmux.backend, tmux.formats, config.name, venv);
      ghost var all := Loop(step, tmux.log, session, windows, ws);
      var rest := ws;
      while rest != []
        invariant Loop(step, tmux.log, session, windows, rest) == all
        decreases |rest|
      {
        WindowStepApply(Script, tmux.backend, tmux.formats, config.name, venv, tmux.log, session, |windows|, rest[0]);
        var entered := EnterWindow(rest[0]);
        if entered.Err? {
          return Err(entered.error);
        }
        windows := windows + [entered.value];
        rest := rest[1..];
      }
      r := Ok(windows);
    }

    /**
     * create_windows: change into dir when one is set (os.chdir raises an
     * OSError, before any tmux call, when it is not a directory), then
     * create every configured window in order.
     */
    method CreateWindows() returns (r: Result<seq<WindowInfo>>)
      modifies this`cwd, this`session, this`windows, tmux
      ensures config.dir != "" && !host.isDir(config.dir) ==>
        r == Err(OSError) && cwd == old(cwd) && tmux.log == old(tmux.log) && session == old(session) && windows == old(windows)
      ensures config.dir == "" || host.isDir(config.dir) ==>
        cwd == if config.dir != "" then config.dir else old(cwd)
      ensures (config.dir == "" || host.isDir(config.dir)) && config.windows.Null? ==>
        r == Err(TypeError) && tmux.log == old(tmux.log) && session == old(session) && windows == old(windows)
      ensures (config.dir == "" || host.isDir(config.dir)) && !config.windows.Null? ==>
        var run := WindowsRun(Script, tmux.backend, tmux.formats, old(tmux.log), config.name, old(session), old(windows),
                              Iterate(config.windows).value, venv);
        tmux.log == run.log && session == run.session && windows == run.made && r == Outcome(run)
    {
      if config.dir != "" {
        if !host.isDir(config.dir) {
          return Err(OSError);
        }
        cwd := config.dir;
      }
      var ws := Iterate(config.windows);
      if ws.Err? {
        return Err(ws.error);
      }
      r := MakeWindows(ws.value);
    }
  }
}
