/*
 * The workspace of the earlier `mux` package (src/mux/workspace.py): the
 * same window schema and the same tmux gateway as the later package, but
 * no `~` expansion, no pre-flight commands and no attach; later windows
 * are opened in the session tmux reported when the first one was made.
 *
 * Every method is proved to hand tmux exactly the commands the
 * orchestration functions describe (with the revision `Mux`), and to
 * return what they return.
 */
module MuxWorkspace {
  import opened Common
  import opened Tmux
  import opened Schema
  import opened Orchestration

  /** The parsed workspace file; "" stands for an absent name, dir or venv, an absent window list is empty. */
  datatype Config = Config(name: string, dir: string, venv: string, windows: Yaml)

  /** The configuration a workspace holds before set_config (the class-level default: an empty mapping). */
  const NoConfig: Config := Config("", "", "", Yaml.List([]))

  /** The virtualenv directory of set_config: joined to dir only when dir is set and the venv is relative; nothing is expanded. */
  function VenvPath(venv: string, dir: string): string {
    if dir != "" && !IsAbs(venv) then PathJoin(dir, venv) else venv
  }

  /**
   * Where `~` plays no part and the root is the configured dir, the earlier
   * revision activates the same virtualenv as the later one.
   */
  lemma VenvPathAgrees(venv: string, dir: string, host: Host)
    requires !StartsWith(venv, "~")
    ensures VenvPath(venv, dir) == ResolveVenv(venv, dir, host)
  {
  }

  /** A relative venv is activated under dir; an absolute one, or any venv without dir, as written. */
  lemma VenvPathPlacement(venv: string, dir: string)
    ensures dir != "" && !IsAbs(venv) ==> StartsWith(VenvPath(venv, dir), dir) && EndsWith(VenvPath(venv, dir), venv)
    ensures IsAbs(venv) || dir == "" ==> VenvPath(venv, dir) == venv
  {
  }

  // ---------------------------------------------------------------------
  // The workspace object

  class Workspace {
    const gateway: Gateway
    const host: Host
    /** The process's current directory (os.chdir). */
    var cwd: string
    var config: Config
    /** The activation line typed first in every pane, if a virtualenv is configured. */
    var venv: seq<string>
    var session: Rec
    var windows: seq<WindowInfo>

    /** A fresh workspace over a tmux gateway (the class-level defaults are given to each instance). */
    constructor (gateway: Gateway, host: Host, cwd: string)
      ensures this.gateway == gateway && this.host == host && this.cwd == cwd
      ensures config == NoConfig && venv == [] && session == map[] && windows == []
    {
      this.gateway := gateway;
      this.host := host;
      this.cwd := cwd;
      config := NoConfig;
      venv := [];
      session := map[];
      windows := [];
    }

    /** set_config: keep the configuration; a configured venv becomes the activation line, else the previous line stays. */
    method SetConfig(config: Config)
      modifies this`config, this`venv
      ensures this.config == config
      ensures config.venv != "" ==> venv == [ActivationLine(VenvPath(config.venv, config.dir))]
      ensures config.venv == "" ==> venv == old(venv)
    {
      this.config := config;
      var root := config.dir;
      var v := config.venv;
      if v != "" {
        if root != "" && !IsAbs(v) {
          v := PathJoin(root, v);
        }
        venv := [" source \"" + PathJoin(v, "bin/activate") + "\""];
      }
    }

    /** The command loop of one pane: each command typed into the pane, whose index is looked up every time. */
    method TypeCommands(sname: string, win: string, pane: Rec, items: seq<Yaml>) returns (r: Result<()>)
      modifies gateway
      ensures gateway.log == old(gateway.log) + SendAllRun(Mux, gateway.backend, old(gateway.log), sname, win, pane, items).0
      ensures r == SendAllRun(Mux, gateway.backend, old(gateway.log), sname, win, pane, items).1
    {
      ghost var log0 := gateway.log;
      ghost var done: seq<Argv> := [];
      var rest := items;
      assert log0 + done == log0;
      assert [] + SendAllRun(Mux, gateway.backend, log0, sname, win, pane, items).0 == SendAllRun(Mux, gateway.backend, log0, sname, win, pane, items).0;
      while rest != []
        invariant gateway.log == log0 + done
        invariant AfterKeys(done, SendAllRun(Mux, gateway.backend, log0 + done, sname, win, pane, rest))
               == SendAllRun(Mux, gateway.backend, log0, sname, win, pane, items)
        decreases |rest|
      {
        if "index" !in pane {
          return Err(KeyError("index"));
        }
        var text := CmdText(rest[0], Invalid(Mux));
        if text.Err? {
          return Err(text.error);
        }
        var sent := gateway.SendKeys(sname, win, pane["index"], text.value, true);
        if sent.Err? {
          return Err(sent.error);
        }
        SendAllStep(Mux, gateway.backend, log0, done, sname, win, pane, rest);
        done := done + SendRun(Mux, gateway.backend, log0 + done, sname, win, pane["index"], rest[0]).0;
        rest := rest[1..];
      }
      r := Ok(());
    }

    /** One iteration of the pane loop: the window's own pane first, a split of the previous pane afterwards, then its commands. */
    method AddPane(sname: string, win: string, prev: Rec, first: bool, schema: Yaml, post: Result<seq<Yaml>>)
      returns (r: Result<Rec>)
      modifies gateway
      ensures gateway.log == old(gateway.log) + PaneRun(Mux, gateway.backend, gateway.formats, old(gateway.log), sname, win, prev, first, schema, venv, post).0
      ensures r == PaneRun(Mux, gateway.backend, gateway.formats, old(gateway.log), sname, win, prev, first, schema, venv, post).1
    {
      ghost var log0 := gateway.log;
      ghost var opening := OpenPane(Mux, gateway.backend, gateway.formats, log0, sname, win, prev, first);
      var pane := prev;
      if !first {
        if "index" !in prev {
          return Err(KeyError("index"));
        }
        var made := gateway.NewPane(sname, win, prev["index"]);
        if made.Err? {
          return Err(made.error);
        }
        pane := made.value;
      }
      assert gateway.log == log0 + opening.0 && opening.1 == Ok(pane);
      var keys := PaneKeys(venv, schema, post);
      if keys.Err? {
        return Err(keys.error);
      }
      ghost var sending := SendAllRun(Mux, gateway.backend, log0 + opening.0, sname, win, pane, keys.value);
      var sent := TypeCommands(sname, win, pane, keys.value);
      AppendAssoc(log0, opening.0, sending.0);
      if sent.Err? {
        return Err(sent.error);
      }
      r := Ok(pane);
    }

    /**
     * The creating half of create_window: the session (named by the
     * configuration) for the first window, afterwards a window in the
     * session tmux reported.
     */
    method CreateFirst(win: string) returns (r: Result<(Rec, Rec)>)
      modifies this`session, gateway
      ensures var c := Create(Mux, gateway.backend, gateway.formats, old(gateway.log), config.name, old(session), |windows|, win);
        gateway.log == old(gateway.log) + c.delta && session == c.session && r == c.result
    {
      if |windows| > 0 {
        if "name" !in session {
          return Err(KeyError("name"));
        }
        r := gateway.NewWindow(session["name"], win);
      } else {
        var made := gateway.NewSession(config.name, win);
        if made.Err? {
          return Err(made.error);
        }
        session := made.value.0;
        r := if session == map[] then Err(SystemExit(1)) else Ok((made.value.1, made.value.2));
      }
    }

    /** The pane loop of create_window: every pane schema in order, each split from the pane made before it. */
    method AddPanes(sname: string, win: string, pane: Rec, schemas: seq<Yaml>, post: Result<seq<Yaml>>)
      returns (r: Result<seq<Rec>>)
      modifies gateway
      ensures var run := PanesRun(Mux, gateway.backend, gateway.formats, old(gateway.log), sname, win, pane, true, schemas, venv, post);
        gateway.log == old(gateway.log) + run.0 && r == run.1
    {
      ghost var log1 := gateway.log;
      ghost var done: seq<Argv> := [];
      var ps: seq<Rec> := [];
      var prev := pane;
      var first := true;
      var rest := schemas;
      ghost var all := PanesRun(Mux, gateway.backend, gateway.formats, log1, sname, win, pane, true, schemas, venv, post);
      assert log1 + done == log1 && done + all.0 == all.0 && (all.1.Ok? ==> ps + all.1.value == all.1.value);
      while rest != []
        invariant gateway.log == log1 + done
        invariant After(done, ps, PanesRun(Mux, gateway.backend, gateway.formats, log1 + done, sname, win, prev, first, rest, venv, post)) == all
        decreases |rest|
      {
        ghost var d1 := PaneRun(Mux, gateway.backend, gateway.formats, log1 + done, sname, win, prev, first, rest[0], venv, post).0;
        var made := AddPane(sname, win, prev, first, rest[0], post);
        if made.Err? {
          PanesRunStop(Mux, gateway.backend, gateway.formats, log1, done, ps, sname, win, prev, first, rest, venv, post);
          return Err(made.error);
        }
        PanesRunStep(Mux, gateway.backend, gateway.formats, log1, done, ps, sname, win, prev, first, rest, venv, post, d1, made.value);
        AppendAssoc(log1, done, d1);
        done := done + d1;
        ps := ps + [made.value];
        prev := made.value;
        first := false;
        rest := rest[1..];
      }
      assert done + [] == done && ps + [] == ps;
      r := Ok(ps);
    }

    /** The rest of create_window once the window exists: the panes, then the layout. */
    method FillWindow(sname: string, window: Rec, pane: Rec, w: WindowSpec) returns (r: Result<WindowInfo>)
      modifies gateway
      ensures var run := Fill(Mux, gateway.backend, gateway.formats, old(gateway.log), sname, w.name, window, pane, w, venv);
        gateway.log == old(gateway.log) + run.0 && r == run.1
    {
      var schemas := Iterate(w.panes);
      if schemas.Err? {
        return Err(schemas.error);
      }
      ghost var log1 := gateway.log;
      var ps := AddPanes(sname, w.name, pane, schemas.value, w.post);
      if ps.Err? {
        return Err(ps.error);
      }
      var text := LayoutText(w.layout, Invalid(Mux));
      if text.Err? {
        return Err(text.error);
      }
      ghost var d := gateway.log[|log1|..];
      assert gateway.log == log1 + d;
      var out := gateway.SetLayout(sname, w.name, text.value);
      AppendAssoc(log1, d, [SetLayoutArgv(sname, w.name, text.value)]);
      if out.Err? {
        return Err(out.error);
      }
      r := Ok(WindowInfo(window - {"panes"}, ps.value));
    }

    /** create_window: create, run the panes, then set the layout. */
    method CreateWindow(w: WindowSpec) returns (r: Result<WindowInfo>)
      modifies this`session, gateway
      ensures var st := WindowRun(Mux, gateway.backend, gateway.formats, old(gateway.log), config.name, old(session), |windows|, w, venv);
        gateway.log == old(gateway.log) + st.delta && session == st.session && r == st.result
    {
      ghost var log0 := gateway.log;
      var made := CreateFirst(w.name);
      if made.Err? {
        return Err(made.error);
      }
      if "name" !in session {
        return Err(KeyError("name"));
      }
      ghost var log1 := gateway.log;
      r := FillWindow(session["name"], made.value.0, made.value.1, w);
      AppendAssoc(log0, log1[|log0|..], gateway.log[|log1|..]);
    }

    /** One entry of the window loop: normalise it, then create_window. */
    method EnterWindow(w: Yaml) returns (r: Result<WindowInfo>)
      modifies this`session, gateway
      ensures var st := WindowEntry(Mux, gateway.backend, gateway.formats, old(gateway.log), config.name, old(session), |windows|, w, venv);
        gateway.log == old(gateway.log) + st.delta && session == st.session && r == st.result
    {
      var spec := NormalizeWindow(w);
      if spec.Err? {
        assert gateway.log == gateway.log + [];
        return Err(spec.error);
      }
      r := CreateWindow(spec.value);
    }

    /** The window loop of start: every entry in order until one fails. */
    method MakeWindows(ws: seq<Yaml>) returns (r: Result<seq<WindowInfo>>)
      modifies this`session, this`windows, gateway
      ensures var run := WindowsRun(Mux, gateway.backend, gateway.formats, old(gateway.log), config.name, old(session), old(windows), ws, venv);
        gateway.log == run.log && session == run.session && windows == run.made && r == Outcome(run)
    {
      ghost var step := WindowStep(Mux, gateway.backend, gateway.formats, config.name, venv);
      ghost var all := Loop(step, gateway.log, session, windows, ws);
      var rest := ws;
      while rest != []
        invariant Loop(step, gateway.log, session, windows, rest) == all
        decreases |rest|
      {
        WindowStepApply(Mux, gateway.backend, gateway.formats, config.name, venv, gateway.log, session, |windows|, rest[0]);
        var entered := EnterWindow(rest[0]);
        if entered.Err? {
          return Err(entered.error);
        }
        windows := windows + [entered.value];
        rest := rest[1..];
      }
      r := Ok(windows);
    }

    /**
     * start: check dir (when one is set) and change into it, then create
     * every configured window in order, the first failure ending the loop.
     * Returns every window the workspace has created.
     */
    method Start() returns (r: Result<seq<WindowInfo>>)
      modifies this`cwd, this`session, this`windows, gateway
      ensures config.dir != "" && !host.isDir(config.dir) ==>
        (r == Err(WorkspaceError("Directory does not exist", config.dir))
         && cwd == old(cwd) && gateway.log == old(gateway.log) && session == old(session) && windows == old(windows))
      ensures config.dir == "" || host.isDir(config.dir) ==>
        cwd == (if config.dir != "" then config.dir else old(cwd))
      ensures (config.dir == "" || host.isDir(config.dir)) && config.windows.Null? ==>
        (r == Err(TypeError) && gateway.log == old(gateway.log) && session == old(session) && windows == old(windows))
      ensures (config.dir == "" || host.isDir(config.dir)) && !config.windows.Null? ==>
        var run := WindowsRun(Mux, gateway.backend, gateway.formats, old(gateway.log), config.name, old(session), old(windows),
                              Iterate(config.windows).value, venv);
        gateway.log == run.log && session == run.session && windows == run.made && r == Outcome(run)
    {
      var root := config.dir;
      if root != "" {
        if !host.isDir(root) {
          return Err(WorkspaceError("Directory does not exist", root));
        }
        cwd := root;
      }
      var ws := Iterate(config.windows);
      if ws.Err? {
        return Err(ws.error);
      }
      r := MakeWindows(ws.value);
    }

    /** stop: kill the named session, or else the one tmux reported when the workspace started. */
    method Stop(target: string) returns (r: Result<(Output, string)>)
      modifies gateway
      ensures target == "" && "name" !in session ==> r == Err(KeyError("name")) && gateway.log == old(gateway.log)
      ensures target != "" || "name" in session ==>
        var t := if target != "" then target else session["name"];
        gateway.log == old(gateway.log) + [KillSessionArgv(t)]
        && r == Interpret(gateway.backend, gateway.backend.server(old(gateway.log), KillSessionArgv(t)), false)
    {
      if target == "" && "name" !in session {
        return Err(KeyError("name"));
      }
      r := gateway.KillSession(if target != "" then target else session["name"]);
    }
  }
}
