/*
 * The tmux gateway (src/mx/tmux.py).
 *
 * The tmux binary is an abstract Backend: `server` answers each argv the
 * gateway hands it, given every argv handed to it before, and `decode` is
 * what json.loads makes of a payload (None where it raises ValueError). The
 * Gateway object keeps `log`, the trace of every argv in the order issued.
 */
module Tmux {
  import opened Common

  type Argv = seq<string>

  /** A flat tmux record, as a dict after bucketing. */
  type Rec = map<string, string>

  /** What json.loads can give back for tmux's -F output: a string, a flat record (keys in order), a list. */
  datatype Json = Text(text: string) | Record(fields: seq<(string, string)>) | List(items: seq<Json>)

  /** `stdout` as `command` returns it: left as the empty bytes, or parsed. */
  datatype Output = NoOutput | Parsed(value: Json)

  /** One run of the tmux binary. */
  datatype Reply = NotLaunched | Finished(code: int, stdout: string, stderr: string)

  /** The outside world of the gateway: the tmux process, json.loads and the TMUX variable. */
  datatype Backend = Backend(
    server: (seq<Argv>, Argv) -> Reply,
    decode: string -> Option<Json>,
    tmuxVar: Option<string>)

  const ExecuteFailure: string := "Unable to execute Tmux, aborting."
  const SerializeFailure: string := "Unable to serialize Tmux's response, please report bug."

  // ---------------------------------------------------------------------
  // The -F format string

  /** `"key": "#{key}"` */
  function FormatEntry(key: string): string {
    "\"" + key + "\": \"#{" + key + "}\""
  }

  function FormatEntries(keys: seq<string>): (r: seq<string>)
    ensures |r| == |keys| && forall i :: 0 <= i < |keys| ==> r[i] == FormatEntry(keys[i])
  {
    seq(|keys|, i requires 0 <= i < |keys| => FormatEntry(keys[i]))
  }

  /** The format `{"k1": "#{k1}", "k2": "#{k2}"}`: the entries in order, joined by `, `. */
  function Format(keys: seq<string>): string
    requires keys != []
  {
    "{" + Join(FormatEntries(keys), ", ") + "}"
  }

  /** The loop's string: every entry followed by `, `. */
  function WithSeparators(keys: seq<string>): string
    decreases |keys|
  {
    if keys == [] then "" else WithSeparators(keys[..|keys| - 1]) + FormatEntry(keys[|keys| - 1]) + ", "
  }

  lemma {:induction false} WithSeparatorsJoin(keys: seq<string>)
    requires keys != []
    ensures WithSeparators(keys) == Join(FormatEntries(keys), ", ") + ", "
    decreases |keys|
  {
    var init := keys[..|keys| - 1];
    var last := keys[|keys| - 1];
    assert FormatEntries(keys) == FormatEntries(init) + [FormatEntry(last)];
    if init == [] {
      assert FormatEntries(keys) == [FormatEntry(last)];
    } else {
      WithSeparatorsJoin(init);
      JoinSnoc(FormatEntries(init), FormatEntry(last), ", ");
    }
  }

  /** Builds the format by concatenation and drops the last separator, as `command` does. */
  method BuildFormat(keys: seq<string>) returns (fmt: string)
    requires keys != []
    ensures fmt == Format(keys)
  {
    fmt := "{";
    var i := 0;
    while i < |keys|
      invariant 0 <= i <= |keys|
      invariant fmt == "{" + WithSeparators(keys[..i])
    {
      assert keys[..i + 1][..i] == keys[..i];
      fmt := fmt + FormatEntry(keys[i]) + ", ";
      i := i + 1;
    }
    assert keys[..i] == keys;
    WithSeparatorsJoin(keys);
    fmt := fmt[..|fmt| - 2] + "}";
  }

  /** The format opens with the first key's entry: nothing comes before it. */
  lemma FormatStarts(keys: seq<string>)
    requires keys != []
    ensures StartsWith(Format(keys), "{" + FormatEntry(keys[0]))
  {
    var es := FormatEntries(keys);
    JoinFirst(es, ", ");
    var j := Join(es, ", ");
    assert Format(keys) == "{" + (j + "}");
    assert (j + "}")[..|es[0]|] == j[..|es[0]|];
    assert ("{" + (j + "}"))[..1 + |es[0]|] == "{" + (j + "}")[..|es[0]|];
  }

  /** The format closes right after the last key's entry: no trailing separator. */
  lemma FormatEnds(keys: seq<string>)
    requires keys != []
    ensures EndsWith(Format(keys), FormatEntry(keys[|keys| - 1]) + "}")
  {
    var es := FormatEntries(keys);
    JoinLast(es, ", ");
    var j := Join(es, ", ");
    var last := es[|es| - 1];
    assert j == j[..|j| - |last|] + last;
    assert Format(keys) == ("{" + j[..|j| - |last|]) + (last + "}");
  }

  /** The argv `command` runs: `tmux` first, and `-F <format>` last when fields are requested. */
  function CommandArgv(cmd: Argv, formats: seq<string>): (argv: Argv)
    ensures |argv| > |cmd| && argv[0] == "tmux" && argv[1..|cmd| + 1] == cmd
    ensures formats == [] ==> |argv| == |cmd| + 1
    ensures formats != [] ==> |argv| == |cmd| + 3 && argv[|cmd| + 1] == "-F" && argv[|cmd| + 2] == Format(formats)
  {
    ["tmux"] + cmd + (if formats == [] then [] else ["-F", Format(formats)])
  }

  // ---------------------------------------------------------------------
  // Output handling

  /** The text handed to json.loads: lines joined with `,`, trailing commas dropped, `[...]` iff many. */
  function Payload(stdout: string, many: bool): string {
    var lines := RStripChar(Join(Split(stdout, '\n'), ","), ',');
    if many then "[" + lines + "]" else lines
  }

  lemma PayloadShape(stdout: string, many: bool)
    ensures '\n' !in Payload(stdout, many)
    ensures many ==> StartsWith(Payload(stdout, many), "[") && EndsWith(Payload(stdout, many), "]")
    ensures !many ==> Payload(stdout, many) == RStripChar(ReplaceChar(stdout, '\n', ','), ',')
    ensures !many && Payload(stdout, many) != "" ==> Payload(stdout, many)[|Payload(stdout, many)| - 1] != ','
  {
    JoinSplitReplace(stdout, '\n', ',');
    RStripCharSpec(ReplaceChar(stdout, '\n', ','), ',');
  }

  /** What `command` returns for one run of tmux: (stdout, stderr) or the TmuxException it raises. */
  function Interpret(b: Backend, reply: Reply, many: bool): (r: Result<(Output, string)>)
    ensures r.Err? <==> reply.NotLaunched? || (reply.stdout != "" && b.decode(Payload(reply.stdout, many)).None?)
    ensures reply.NotLaunched? ==> r == Err(TmuxError(ExecuteFailure))
    ensures reply.Finished? && r.Err? ==> r == Err(TmuxError(SerializeFailure))
    ensures r.Ok? ==> r.value.1 == Strip(reply.stderr)
    ensures r.Ok? ==> (r.value.0 == NoOutput <==> reply.stdout == "")
    ensures r.Ok? && r.value.0.Parsed? ==> b.decode(Payload(reply.stdout, many)) == Some(r.value.0.value)
  {
    match reply
    case NotLaunched => Err(TmuxError(ExecuteFailure))
    case Finished(_, out, err) =>
      if out == "" then Ok((NoOutput, Strip(err)))
      else match b.decode(Payload(out, many))
        case None => Err(TmuxError(SerializeFailure))
        case Some(j) => Ok((Parsed(j), Strip(err)))
  }

  // ---------------------------------------------------------------------
  // Bucketing record fields by prefix

  /** k.split('_')[1]; None is the IndexError of a key without `_`. */
  function ShortName(k: string): Option<string> {
    Field(k, '_', 1)
  }

  /** The bucket of a key: the first prefix it starts with, else the last (default) bucket. */
  function BucketOf(k: string, prefixes: seq<string>): (b: nat)
    ensures b <= |prefixes|
    ensures b < |prefixes| ==> StartsWith(k, prefixes[b])
    ensures forall i :: 0 <= i < b ==> !StartsWith(k, prefixes[i])
    decreases |prefixes|
  {
    if prefixes == [] then 0
    else if StartsWith(k, prefixes[0]) then 0
    else 1 + BucketOf(k, prefixes[1..])
  }

  function EmptyBuckets(n: nat): (r: seq<Rec>)
    ensures |r| == n && forall i :: 0 <= i < n ==> r[i] == map[]
  {
    seq(n, _ => map[])
  }

  /** The dicts the `for k, v in output.items()` loop fills, one per bucket, later keys overwriting earlier ones. */
  function Buckets(fields: seq<(string, string)>, prefixes: seq<string>): (r: Result<seq<Rec>>)
    ensures r.Ok? <==> forall i :: 0 <= i < |fields| ==> ShortName(fields[i].0).Some?
    ensures r.Ok? ==> |r.value| == |prefixes| + 1
    ensures r.Err? ==> r == Err(IndexError)
    decreases |fields|
  {
    if fields == [] then Ok(EmptyBuckets(|prefixes| + 1))
    else
      var init := fields[..|fields| - 1];
      var (k, v) := fields[|fields| - 1];
      match Buckets(init, prefixes)
      case Err(e) => Err(e)
      case Ok(prev) =>
        match ShortName(k)
        case None => Err(IndexError)
        case Some(name) =>
          var b := BucketOf(k, prefixes);
          Ok(prev[b := prev[b][name := v]])
  }

  /** The value the last field routed to bucket b under short name `name` carries, if any. */
  function LastValue(fields: seq<(string, string)>, prefixes: seq<string>, b: nat, name: string): Option<string>
    decreases |fields|
  {
    if fields == [] then None
    else
      var (k, v) := fields[|fields| - 1];
      if BucketOf(k, prefixes) == b && ShortName(k) == Some(name) then Some(v)
      else LastValue(fields[..|fields| - 1], prefixes, b, name)
  }

  /** A field routed to bucket b under `name` makes the lookup succeed. */
  lemma {:induction false} LastValueWitness(fields: seq<(string, string)>, prefixes: seq<string>, b: nat, name: string, i: nat)
    requires i < |fields| && BucketOf(fields[i].0, prefixes) == b && ShortName(fields[i].0) == Some(name)
    ensures LastValue(fields, prefixes, b, name).Some?
    decreases |fields|
  {
    var init := fields[..|fields| - 1];
    if i < |init| {
      assert init[i] == fields[i];
      LastValueWitness(init, prefixes, b, name, i);
    }
  }

  /** A successful lookup comes from a field routed to bucket b under `name`, and carries its value. */
  lemma {:induction false} LastValueSource(fields: seq<(string, string)>, prefixes: seq<string>, b: nat, name: string)
    returns (i: nat)
    requires LastValue(fields, prefixes, b, name).Some?
    ensures i < |fields| && BucketOf(fields[i].0, prefixes) == b && ShortName(fields[i].0) == Some(name)
    ensures fields[i].1 == LastValue(fields, prefixes, b, name).value
    decreases |fields|
  {
    var init := fields[..|fields| - 1];
    var (k, v) := fields[|fields| - 1];
    if BucketOf(k, prefixes) == b && ShortName(k) == Some(name) {
      i := |fields| - 1;
    } else {
      i := LastValueSource(init, prefixes, b, name);
      assert fields[i] == init[i];
    }
  }

  /** A value is found exactly when some field routes to that bucket under that name. */
  lemma LastValueFound(fields: seq<(string, string)>, prefixes: seq<string>, b: nat, name: string)
    ensures LastValue(fields, prefixes, b, name).Some? <==>
      exists i :: 0 <= i < |fields| && BucketOf(fields[i].0, prefixes) == b && ShortName(fields[i].0) == Some(name)
  {
    if LastValue(fields, prefixes, b, name).Some? {
      var i := LastValueSource(fields, prefixes, b, name);
    }
    if exists i :: 0 <= i < |fields| && BucketOf(fields[i].0, prefixes) == b && ShortName(fields[i].0) == Some(name) {
      var i :| 0 <= i < |fields| && BucketOf(fields[i].0, prefixes) == b && ShortName(fields[i].0) == Some(name);
      LastValueWitness(fields, prefixes, b, name, i);
    }
  }

  /**
   * Bucket b holds exactly the short names of the fields whose key routes to
   * b, and under each the value of the last such field.
   */
  lemma {:induction false} BucketsContent(fields: seq<(string, string)>, prefixes: seq<string>, b: nat, name: string)
    requires Buckets(fields, prefixes).Ok? && b <= |prefixes|
    ensures var bucket := Buckets(fields, prefixes).value[b];
      (name in bucket <==> LastValue(fields, prefixes, b, name).Some?)
      && (name in bucket ==> bucket[name] == LastValue(fields, prefixes, b, name).value)
    decreases |fields|
  {
    if fields != [] {
      BucketsContent(fields[..|fields| - 1], prefixes, b, name);
    }
  }

  /** The `for k, v in output.items()` loop, filling one dict per bucket. */
  method BucketFields(fields: seq<(string, string)>, prefixes: seq<string>) returns (r: Result<seq<Rec>>)
    ensures r == Buckets(fields, prefixes)
  {
    var buckets := EmptyBuckets(|prefixes| + 1);
    var i := 0;
    while i < |fields|
      invariant 0 <= i <= |fields|
      invariant Buckets(fields[..i], prefixes) == Ok(buckets)
    {
      assert fields[..i + 1][..i] == fields[..i];
      var (k, v) := fields[i];
      var name := ShortName(k);
      if name.None? {
        assert Buckets(fields[..i + 1], prefixes).Err?;
        assert fields[i] == fields[..i + 1][i];
        r := Err(IndexError);
        assert !(forall j :: 0 <= j < |fields| ==> ShortName(fields[j].0).Some?);
        return;
      }
      var b := BucketOf(k, prefixes);
      buckets := buckets[b := buckets[b][name.value := v]];
      i := i + 1;
    }
    assert fields[..i] == fields;
    r := Ok(buckets);
  }

  // ---------------------------------------------------------------------
  // The commands the gateway issues

  const SessionFormats: seq<string> :=
    ["session_id", "session_name", "session_windows", "window_id", "window_index", "pane_index", "pane_id"]
  const WindowFormats: seq<string> :=
    ["window_id", "window_name", "window_panes", "window_active", "window_index", "window_layout", "pane_index", "pane_id"]
  const PaneFormats: seq<string> :=
    ["pane_id", "pane_index", "pane_active", "pane_current_path", "pane_start_command", "pane_current_command", "pane_title"]
  const ListWindowsFormats: seq<string> :=
    ["window_id", "window_name", "window_panes", "window_active", "window_index", "window_layout"]
  const ListPanesFormats: seq<string> :=
    ["pane_id", "pane_active", "pane_index", "pane_start_command", "pane_current_command", "pane_current_path", "pane_title"]

  /** The field lists the creating and listing commands request with `-F`, one per command. */
  datatype Formats = Formats(session: seq<string>, window: seq<string>, pane: seq<string>,
                             listWindows: seq<string>, listPanes: seq<string>)

  /** The lists the gateway is built with. */
  const Standard: Formats := Formats(SessionFormats, WindowFormats, PaneFormats, ListWindowsFormats, ListPanesFormats)

  /** A window name is passed with `-n` only when it is not empty. */
  function NameOption(win: string): Argv {
    if win != "" then ["-n", win] else []
  }

  function NewSessionArgv(f: Formats, session: string, win: string): Argv {
    CommandArgv(["new-session", "-Pd", "-s", session] + NameOption(win), f.session)
  }

  function NewWindowArgv(f: Formats, session: string, win: string): Argv {
    CommandArgv(["new-window", "-Pd", "-t", session] + NameOption(win), f.window)
  }

  /** `session:window.pane` */
  function PaneTarget(session: string, win: string, pane: string): string {
    session + ":" + win + "." + pane
  }

  function NewPaneArgv(f: Formats, session: string, win: string, pane: string): Argv {
    CommandArgv(["split-window", "-h", "-P", "-t", PaneTarget(session, win, pane)], f.pane)
  }

  function KillSessionArgv(session: string): Argv {
    CommandArgv(["kill-session", "-t", session], [])
  }

  /** `layout or 'tiled'` */
  function LayoutName(layout: string): string {
    if layout == "" then "tiled" else layout
  }

  function SetLayoutArgv(session: string, win: string, layout: string): Argv {
    CommandArgv(["select-layout", "-t", session + ":" + win, LayoutName(layout)], [])
  }

  /** The last argument is `C-m` when enter is wanted and the empty string otherwise. */
  function SendKeysArgv(session: string, win: string, pane: string, cmd: string, enter: bool): Argv {
    CommandArgv(["send-keys", "-Rt", PaneTarget(session, win, pane), cmd, if enter then "C-m" else ""], [])
  }

  function AttachArgv(session: string, nested: bool): Argv {
    CommandArgv([if nested then "switch-client" else "attach-session", "-t", session], [])
  }

  function HasSessionArgv(session: string): Argv {
    ["tmux", "has-session", "-t", session]
  }

  function ListWindowsArgv(f: Formats, session: string): Argv {
    CommandArgv(["list-windows", "-t", session], f.listWindows)
  }

  function ListPanesArgv(f: Formats, session: string, win: string): Argv {
    CommandArgv(["list-panes", "-t", Join([session, win], ":")], f.listPanes)
  }

  /** The subcommand an argv runs: what every trace property counts by. */
  function Verb(argv: Argv): string {
    if |argv| >= 2 then argv[1] else ""
  }

  // ---------------------------------------------------------------------
  // What each creation call makes of tmux's reply

  /** new_session's handling of (stdout, stderr): the (session, window, pane) records, or the error it raises. */
  function SessionRecords(out: (Output, string)): (r: Result<(Rec, Rec, Rec)>)
    ensures r.Ok? ==> out.1 == ""
    ensures out.1 != "" ==> r == Err(TmuxError(out.1))
  {
    if out.1 != "" then Err(TmuxError(out.1))
    else match out.0
      case Parsed(Record(fields)) =>
        var bs :- Buckets(fields, ["window_", "pane_"]);
        Ok((bs[2], bs[0], bs[1]))
      case _ => Err(AttributeError)
  }

  /** new_window's handling: the (window, pane) records; a non-empty stderr raises a plain Exception. */
  function WindowRecords(out: (Output, string)): (r: Result<(Rec, Rec)>)
    ensures r.Ok? ==> out.1 == ""
    ensures out.1 != "" ==> r == Err(GenericError("Error creating window: " + out.1))
  {
    if out.1 != "" then Err(GenericError("Error creating window: " + out.1))
    else match out.0
      case Parsed(Record(fields)) =>
        var bs :- Buckets(fields, ["pane_"]);
        Ok((bs[1], bs[0]))
      case _ => Err(AttributeError)
  }

  /** new_pane's handling: every field goes to the pane record. */
  function PaneRecord(out: (Output, string)): (r: Result<Rec>)
    ensures r.Ok? ==> out.1 == ""
    ensures out.1 != "" ==> r == Err(TmuxError(out.1))
  {
    if out.1 != "" then Err(TmuxError(out.1))
    else match out.0
      case Parsed(Record(fields)) =>
        var bs :- Buckets(fields, []);
        Ok(bs[0])
      case _ => Err(AttributeError)
  }

  function NewSessionResult(b: Backend, reply: Reply): Result<(Rec, Rec, Rec)> {
    match Interpret(b, reply, false)
    case Err(e) => Err(e)
    case Ok(out) => SessionRecords(out)
  }

  function NewWindowResult(b: Backend, reply: Reply): Result<(Rec, Rec)> {
    match Interpret(b, reply, false)
    case Err(e) => Err(e)
    case Ok(out) => WindowRecords(out)
  }

  function NewPaneResult(b: Backend, reply: Reply): Result<Rec> {
    match Interpret(b, reply, false)
    case Err(e) => Err(e)
    case Ok(out) => PaneRecord(out)
  }

  /** No later field lands on the same bucket and short name as field i. */
  predicate LastWriter(fields: seq<(string, string)>, prefixes: seq<string>, i: nat)
    requires i < |fields|
  {
    forall j :: i < j < |fields| ==>
      !(BucketOf(fields[j].0, prefixes) == BucketOf(fields[i].0, prefixes) && ShortName(fields[j].0) == ShortName(fields[i].0))
  }

  lemma {:induction false} LastWriterValue(fields: seq<(string, string)>, prefixes: seq<string>, i: nat)
    requires i < |fields| && LastWriter(fields, prefixes, i) && ShortName(fields[i].0).Some?
    ensures LastValue(fields, prefixes, BucketOf(fields[i].0, prefixes), ShortName(fields[i].0).value) == Some(fields[i].1)
    decreases |fields|
  {
    var init := fields[..|fields| - 1];
    if i < |init| {
      assert init[i] == fields[i];
      assert LastWriter(init, prefixes, i) by {
        forall j | i < j < |init|
          ensures !(BucketOf(init[j].0, prefixes) == BucketOf(init[i].0, prefixes) && ShortName(init[j].0) == ShortName(init[i].0))
        {
          assert init[j] == fields[j];
        }
      }
      LastWriterValue(init, prefixes, i);
    }
  }

  /** The records of a successful new_session partition the reply's fields by prefix, the last field winning. */
  lemma NewSessionBuckets(fields: seq<(string, string)>, i: nat)
    requires forall j :: 0 <= j < |fields| ==> ShortName(fields[j].0).Some?
    requires i < |fields|
    ensures SessionRecords((Parsed(Record(fields)), "")).Ok?
    ensures var prefixes := ["window_", "pane_"];
      var (session, window, pane) := SessionRecords((Parsed(Record(fields)), "")).value;
      var (k, name) := (fields[i].0, ShortName(fields[i].0).value);
      var rec := if StartsWith(k, "window_") then window else if StartsWith(k, "pane_") then pane else session;
      name in rec && (LastWriter(fields, prefixes, i) ==> rec[name] == fields[i].1)
  {
    var prefixes := ["window_", "pane_"];
    var k := fields[i].0;
    var name := ShortName(k).value;
    var bk := BucketOf(k, prefixes);
    assert bk == if StartsWith(k, "window_") then 0 else if StartsWith(k, "pane_") then 1 else 2;
    LastValueWitness(fields, prefixes, bk, name, i);
    BucketsContent(fields, prefixes, bk, name);
    if LastWriter(fields, prefixes, i) {
      LastWriterValue(fields, prefixes, i);
    }
  }

  // ---------------------------------------------------------------------
  // The TMUX variable

  /** within_session as written: `os.environ.get('TMUX') != ''`, which is also true when TMUX is unset. */
  function WithinSessionAsWritten(tmuxVar: Option<string>): bool {
    tmuxVar != Some("")
  }

  /** Outside tmux (TMUX unset) the written check still claims to be inside a session. */
  lemma WithinSessionAsWrittenOutsideTmux()
    ensures WithinSessionAsWritten(None)
  {
  }

  /** within_session as intended: inside a tmux client iff TMUX is set to a non-empty value. */
  function WithinSession(tmuxVar: Option<string>): (r: bool)
    ensures r <==> tmuxVar.Some? && tmuxVar.value != ""
  {
    match tmuxVar
    case None => false
    case Some(v) => v != ""
  }

  /** The two checks agree whenever TMUX is set. */
  lemma WithinSessionAgreesWhenSet(v: string)
    ensures WithinSession(Some(v)) == WithinSessionAsWritten(Some(v))
  {
  }

  // ---------------------------------------------------------------------
  // The gateway object

  class Gateway {
    const backend: Backend
    /** The `-F` field lists of the source's commands. */
    const formats: Formats
    var log: seq<Argv>

    constructor (backend: Backend)
      ensures this.backend == backend && formats == Standard && log == []
    {
      this.backend := backend;
      formats := Standard;
      log := [];
    }

    /** Runs tmux once and returns (stdout, stderr), raising TmuxException as `command` does. */
    method Command(cmd: Argv, formats: seq<string>, many: bool) returns (r: Result<(Output, string)>)
      modifies this
      ensures log == old(log) + [CommandArgv(cmd, formats)]
      ensures r == Interpret(backend, backend.server(old(log), CommandArgv(cmd, formats)), many)
    {
      var argv := ["tmux"] + cmd;
      if formats != [] {
        var fmt := BuildFormat(formats);
        argv := argv + ["-F", fmt];
      }
      assert argv == CommandArgv(cmd, formats);
      var reply := backend.server(log, argv);
      log := log + [argv];
      match reply
      case NotLaunched =>
        r := Err(TmuxError(ExecuteFailure));
      case Finished(_, out, err) =>
        var stdout := NoOutput;
        if out != "" {
          var parsed := backend.decode(Payload(out, many));
          if parsed.None? {
            return Err(TmuxError(SerializeFailure));
          }
          stdout := Parsed(parsed.value);
        }
        r := Ok((stdout, Strip(err)));
    }

    method NewSession(session: string, win: string) returns (r: Result<(Rec, Rec, Rec)>)
      modifies this
      ensures log == old(log) + [NewSessionArgv(formats, session, win)]
      ensures r == NewSessionResult(backend, backend.server(old(log), NewSessionArgv(formats, session, win)))
    {
      var out := Command(["new-session", "-Pd", "-s", session] + NameOption(win), formats.session, false);
      if out.Err? {
        return Err(out.error);
      }
      var (stdout, errors) := out.value;
      if errors != "" {
        return Err(TmuxError(errors));
      }
      if !(stdout.Parsed? && stdout.value.Record?) {
        return Err(AttributeError);
      }
      var bs := BucketFields(stdout.value.fields, ["window_", "pane_"]);
      if bs.Err? {
        return Err(bs.error);
      }
      r := Ok((bs.value[2], bs.value[0], bs.value[1]));
      assert r == SessionRecords(out.value);
    }

    method NewWindow(session: string, win: string) returns (r: Result<(Rec, Rec)>)
      modifies this
      ensures log == old(log) + [NewWindowArgv(formats, session, win)]
      ensures r == NewWindowResult(backend, backend.server(old(log), NewWindowArgv(formats, session, win)))
    {
      var out := Command(["new-window", "-Pd", "-t", session] + NameOption(win), formats.window, false);
      if out.Err? {
        return Err(out.error);
      }
      var (stdout, errors) := out.value;
      if errors != "" {
        return Err(GenericError("Error creating window: " + errors));
      }
      if !(stdout.Parsed? && stdout.value.Record?) {
        return Err(AttributeError);
      }
      var bs := BucketFields(stdout.value.fields, ["pane_"]);
      if bs.Err? {
        return Err(bs.error);
      }
      r := Ok((bs.value[1], bs.value[0]));
      assert r == WindowRecords(out.value);
    }

    method NewPane(session: string, win: string, pane: string) returns (r: Result<Rec>)
      modifies this
      ensures log == old(log) + [NewPaneArgv(formats, session, win, pane)]
      ensures r == NewPaneResult(backend, backend.server(old(log), NewPaneArgv(formats, session, win, pane)))
    {
      var out := Command(["split-window", "-h", "-P", "-t", PaneTarget(session, win, pane)], formats.pane, false);
      if out.Err? {
        return Err(out.error);
      }
      var (stdout, errors) := out.value;
      if errors != "" {
        return Err(TmuxError(errors));
      }
      if !(stdout.Parsed? && stdout.value.Record?) {
        return Err(AttributeError);
      }
      var bs := BucketFields(stdout.value.fields, []);
      if bs.Err? {
        return Err(bs.error);
      }
      r := Ok(bs.value[0]);
      assert r == PaneRecord(out.value);
    }

    method KillSession(session: string) returns (r: Result<(Output, string)>)
      modifies this
      ensures log == old(log) + [KillSessionArgv(session)]
      ensures r == Interpret(backend, backend.server(old(log), KillSessionArgv(session)), false)
    {
      r := Command(["kill-session", "-t", session], [], false);
    }

    method SetLayout(session: string, win: string, layout: string) returns (r: Result<(Output, string)>)
      modifies this
      ensures log == old(log) + [SetLayoutArgv(session, win, layout)]
      ensures r == Interpret(backend, backend.server(old(log), SetLayoutArgv(session, win, layout)), false)
    {
      r := Command(["select-layout", "-t", session + ":" + win, LayoutName(layout)], [], false);
    }

    /** Nothing is run for an empty command. */
    method SendKeys(session: string, win: string, pane: string, cmd: string, enter: bool)
      returns (r: Result<Option<(Output, string)>>)
      modifies this
      ensures cmd == "" ==> log == old(log) && r == Ok(None)
      ensures cmd != "" ==> log == old(log) + [SendKeysArgv(session, win, pane, cmd, enter)]
      ensures cmd != "" ==> r == (match Interpret(backend, backend.server(old(log), SendKeysArgv(session, win, pane, cmd, enter)), false)
                                  case Ok(v) => Ok(Some(v))
                                  case Err(e) => Err(e))
    {
      if cmd == "" {
        return Ok(None);
      }
      var out :- Command(["send-keys", "-Rt", PaneTarget(session, win, pane), cmd, if enter then "C-m" else ""], [], false);
      r := Ok(Some(out));
    }

    /**
     * Nothing is run for an empty name; otherwise `switch-client` when the
     * check of TMUX as written says the process is inside tmux (which it also
     * says when TMUX is unset), `attach-session` when TMUX is set but empty.
     */
    method Attach(session: string) returns (r: Result<Option<(Output, string)>>)
      modifies this
      ensures session == "" ==> log == old(log) && r == Ok(None)
      ensures session != "" ==> log == old(log) + [AttachArgv(session, WithinSessionAsWritten(backend.tmuxVar))]
      ensures session != "" ==>
        r == (match Interpret(backend, backend.server(old(log), AttachArgv(session, WithinSessionAsWritten(backend.tmuxVar))), false)
              case Ok(v) => Ok(Some(v))
              case Err(e) => Err(e))
    {
      if session == "" {
        return Ok(None);
      }
      var verb := if WithinSessionAsWritten(backend.tmuxVar) then "switch-client" else "attach-session";
      var out :- Command([verb, "-t", session], [], false);
      r := Ok(Some(out));
    }

    /** has-session's exit code decides; a tmux that cannot be launched lets the OSError escape. */
    method HasSession(session: string) returns (r: Result<bool>)
      modifies this
      ensures log == old(log) + [HasSessionArgv(session)]
      ensures var reply := backend.server(old(log), HasSessionArgv(session));
        (reply.NotLaunched? ==> r == Err(OSError)) && (reply.Finished? ==> r == Ok(reply.code == 0))
    {
      var argv := ["tmux", "has-session", "-t", session];
      var reply := backend.server(log, argv);
      log := log + [argv];
      match reply
      case NotLaunched => r := Err(OSError);
      case Finished(code, _, _) => r := Ok(code == 0);
    }

    method GetWindows(session: string) returns (r: Result<(Output, string)>)
      modifies this
      ensures log == old(log) + [ListWindowsArgv(formats, session)]
      ensures r == Interpret(backend, backend.server(old(log), ListWindowsArgv(formats, session)), true)
    {
      r := Command(["list-windows", "-t", session], formats.listWindows, true);
    }

    method GetPanes(session: string, win: string) returns (r: Result<(Output, string)>)
      modifies this
      ensures log == old(log) + [ListPanesArgv(formats, session, win)]
      ensures r == Interpret(backend, backend.server(old(log), ListPanesArgv(formats, session, win)), true)
    {
      r := Command(["list-panes", "-t", Join([session, win], ":")], formats.listPanes, true);
    }
  }
}
