/*
 * The tmux wrapper of the single-file revision (mux.py): `Tmux.command`
 * returns only the parsed output and swallows a parse failure, and the
 * record builders `_new_session`, `_new_window` and `_new_pane` of its
 * Workspace class reject an empty answer instead of looking at stderr.
 */
module ScriptTmux {
  import opened Common
  import opened Tmux

  /** `not output` for what `command` returns (None standing for an empty stdout or a parse failure). */
  predicate OutputFalsy(o: Output) {
    o == NoOutput || o == Parsed(Text("")) || o == Parsed(Record([])) || o == Parsed(List([]))
  }

  /**
   * What mux.py's `command` makes of one run: the parsed output, None (no
   * output, or output json.loads rejects: it prints `Error` and returns
   * None), or the OSError of a tmux that cannot be launched, which nothing
   * catches.
   */
  function ScriptInterpret(b: Backend, reply: Reply, many: bool): (r: Result<Output>)
    ensures r.Err? <==> reply.NotLaunched?
    ensures r.Err? ==> r.error == OSError
    ensures r.Ok? && r.value.Parsed? <==> reply.Finished? && reply.stdout != "" && b.decode(Payload(reply.stdout, many)).Some?
    ensures r.Ok? && r.value.Parsed? ==> r.value.value == b.decode(Payload(reply.stdout, many)).value
  {
    match reply
    case NotLaunched => Err(OSError)
    case Finished(_, out, _) =>
      if out == "" then Ok(NoOutput)
      else match b.decode(Payload(out, many))
        case None => Ok(NoOutput)
        case Some(j) => Ok(Parsed(j))
  }

  /** Unlike the later gateway, a response json.loads rejects is not an error here. */
  lemma ParseFailureIsSilent(b: Backend, code: int, stdout: string, stderr: string, many: bool)
    requires stdout != "" && b.decode(Payload(stdout, many)).None?
    ensures ScriptInterpret(b, Finished(code, stdout, stderr), many) == Ok(NoOutput)
    ensures Interpret(b, Finished(code, stdout, stderr), many) == Err(TmuxError(SerializeFailure))
  {
  }

  /** `_new_session`: an empty answer raises `Error creating session`; otherwise keys are bucketed as in the later gateway. */
  function ScriptSessionRecords(o: Output): (r: Result<(Rec, Rec, Rec)>)
    ensures OutputFalsy(o) ==> r == Err(GenericError("Error creating session"))
    ensures r.Ok? ==> o.Parsed? && o.value.Record?
    ensures o.Parsed? && o.value.Record? && o.value.fields != [] ==> r == SessionRecords((o, ""))
  {
    if OutputFalsy(o) then Err(GenericError("Error creating session"))
    else match o.value
      case Record(fields) =>
        var bs :- Buckets(fields, ["window_", "pane_"]);
        Ok((bs[2], bs[0], bs[1]))
      case _ => Err(AttributeError)
  }

  /** `_new_window` */
  function ScriptWindowRecords(o: Output): (r: Result<(Rec, Rec)>)
    ensures OutputFalsy(o) ==> r == Err(GenericError("Error creating window"))
    ensures r.Ok? ==> o.Parsed? && o.value.Record?
    ensures o.Parsed? && o.value.Record? && o.value.fields != [] ==> r == WindowRecords((o, ""))
  {
    if OutputFalsy(o) then Err(GenericError("Error creating window"))
    else match o.value
      case Record(fields) =>
        var bs :- Buckets(fields, ["pane_"]);
        Ok((bs[1], bs[0]))
      case _ => Err(AttributeError)
  }

  /** `_new_pane` */
  function ScriptPaneRecord(o: Output): (r: Result<Rec>)
    ensures OutputFalsy(o) ==> r == Err(GenericError("Error creating pane"))
    ensures r.Ok? ==> o.Parsed? && o.value.Record?
    ensures o.Parsed? && o.value.Record? && o.value.fields != [] ==> r == PaneRecord((o, ""))
  {
    if OutputFalsy(o) then Err(GenericError("Error creating pane"))
    else match o.value
      case Record(fields) =>
        var bs :- Buckets(fields, []);
        Ok(bs[0])
      case _ => Err(AttributeError)
  }

  /** `_new_pane` names its target with `':'.join` and puts `-h` last. */
  function ScriptNewPaneArgv(f: Formats, session: string, win: string, pane: string): (argv: Argv)
    ensures |argv| > 5 && argv[..5] == ["tmux", "split-window", "-P", "-t", PaneTarget(session, win, pane)]
    ensures argv[5] == "-h"
  {
    assert [session, win][1..] == [win];
    assert Join([win], ":") == win;
    assert Join([session, win], ":") == session + ":" + win;
    var cmd := ["split-window", "-P", "-t", Join([session, win], ":") + "." + pane, "-h"];
    assert cmd[3] == PaneTarget(session, win, pane);
    var argv := CommandArgv(cmd, f.pane);
    assert argv[1..6] == cmd;
    assert argv[..5] == [argv[0]] + argv[1..5];
    argv
  }

  /** mux.py's Tmux object: the same argv and format building, a different way of answering. */
  class ScriptGateway {
    const backend: Backend
    /** The `-F` field lists, the same as the later gateway's. */
    const formats: Formats
    var log: seq<Argv>

    constructor (backend: Backend)
      ensures this.backend == backend && formats == Standard && log == []
    {
      this.backend := backend;
      formats := Standard;
      log := [];
    }

    method Command(cmd: Argv, formats: seq<string>, many: bool) returns (r: Result<Output>)
      modifies this
      ensures log == old(log) + [CommandArgv(cmd, formats)]
      ensures r == ScriptInterpret(backend, backend.server(old(log), CommandArgv(cmd, formats)), many)
    {
      var argv := ["tmux"] + cmd;
      if formats != [] {
        var fmt := BuildFormat(formats);
        argv := argv + ["-F", fmt];
      }
      assert argv == CommandArgv(cmd, formats);
      var reply := backend.server(log, argv);
      log := log + [argv];
      match reply
      case NotLaunched =>
        r := Err(OSError);
      case Finished(_, out, _) =>
        if out == "" {
          return Ok(NoOutput);
        }
        var parsed := backend.decode(Payload(out, many));
        r := if parsed.None? then Ok(NoOutput) else Ok(Parsed(parsed.value));
    }

    /** has-session's exit code decides. */
    method HasSession(session: string) returns (r: Result<bool>)
      modifies this
      ensures log == old(log) + [HasSessionArgv(session)]
      ensures var reply := backend.server(old(log), HasSessionArgv(session));
        (reply.NotLaunched? ==> r == Err(OSError)) && (reply.Finished? ==> r == Ok(reply.code == 0))
    {
      var argv := ["tmux", "has-session", "-t", session];
      var reply := backend.server(log, argv);
      log := log + [argv];
      match reply
      case NotLaunched => r := Err(OSError);
      case Finished(code, _, _) => r := Ok(code == 0);
    }
  }
}
