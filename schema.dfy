/*
 * The loosely-typed workspace schema (the parsed YAML of a workspace file)
 * and the pure parts of the orchestrator: window and post_cmd normalisation,
 * pane commands, and the path handling behind the virtualenv activation line.
 */
module Schema {
  import opened Common

  /** A parsed YAML value: strings, null, sequences and mappings (entries in insertion order). */
  datatype Yaml = Str(s: string) | Null | List(items: seq<Yaml>) | Dict(entries: seq<(string, Yaml)>)

  /** Python truthiness: the empty string, None, the empty list and the empty dict are false. */
  predicate Falsy(y: Yaml) {
    y == Str("") || y == Null || y == List([]) || y == Dict([])
  }

  /** d.get(key): the value of the first entry with that key. */
  function Get(entries: seq<(string, Yaml)>, key: string): (r: Option<Yaml>)
    ensures r.Some? <==> exists i :: 0 <= i < |entries| && entries[i].0 == key
    ensures r.Some? ==> exists i :: 0 <= i < |entries| && entries[i] == (key, r.value)
    decreases |entries|
  {
    if entries == [] then None
    else if entries[0].0 == key then Some(entries[0].1)
    else
      var r := Get(entries[1..], key);
      assert forall i :: 0 <= i < |entries[1..]| ==> entries[1..][i] == entries[i + 1];
      if r.None? then
        assert forall i :: 1 <= i < |entries| ==> entries[i] == entries[1..][i - 1];
        None
      else r
  }

  /** d.get(key, default) */
  function GetOr(entries: seq<(string, Yaml)>, key: string, default: Yaml): Yaml {
    match Get(entries, key)
    case Some(v) => v
    case None => default
  }

  /** The single-character strings of s, which is what iterating a str yields. */
  function Chars(s: string): (r: seq<Yaml>)
    ensures |r| == |s| && forall i :: 0 <= i < |s| ==> r[i] == Str([s[i]])
  {
    seq(|s|, i requires 0 <= i < |s| => Str([s[i]]))
  }

  /** The keys of a mapping, which is what iterating a dict yields. */
  function Keys(entries: seq<(string, Yaml)>): (r: seq<Yaml>)
    ensures |r| == |entries| && forall i :: 0 <= i < |entries| ==> r[i] == Str(entries[i].0)
  {
    seq(|entries|, i requires 0 <= i < |entries| => Str(entries[i].0))
  }

  /** `for x in y`: a list yields its items, a string its characters, a dict its keys; None is not iterable. */
  function Iterate(y: Yaml): (r: Result<seq<Yaml>>)
    ensures r.Err? <==> y.Null?
    ensures r.Err? ==> r.error == TypeError
    ensures y.List? ==> r == Ok(y.items)
    ensures r.Ok? ==> (|r.value| == 0 <==> Falsy(y))
  {
    match y
    case List(items) => Ok(items)
    case Str(s) => Ok(Chars(s))
    case Dict(entries) => Ok(Keys(entries))
    case Null => Err(TypeError)
  }

  // ---------------------------------------------------------------------
  // Window normalisation

  /**
   * A window after normalisation: its name, its pane schemas (still to be
   * iterated), its post commands (the TypeError of `list + post` when they
   * are not a list, raised only once a pane needs them) and its layout.
   */
  datatype WindowSpec = WindowSpec(name: string, panes: Yaml, post: Result<seq<Yaml>>, layout: Yaml)

  /** `[post] if isinstance(post, str) else post`, then what `cmds + post` accepts. */
  function PostCommands(post: Yaml): (r: Result<seq<Yaml>>)
    ensures post.Str? ==> r == Ok([post])
    ensures post.List? ==> r == Ok(post.items)
    ensures r.Err? <==> post.Null? || post.Dict?
  {
    match post
    case Str(_) => Ok([post])
    case List(items) => Ok(items)
    case _ => Err(TypeError)
  }

  /** The body of a `{name: body}` window: its pane schemas, post commands and layout. */
  function NormalizeBody(name: string, body: Yaml): (r: Result<WindowSpec>)
  {
    var w := if Falsy(body) then Dict([]) else body;
    match w
    case Str(s) => Ok(WindowSpec(name, List([Str(s)]), Ok([]), Null))
    case Dict(fields) =>
      Ok(WindowSpec(name, GetOr(fields, "panes", List([])),
                    PostCommands(GetOr(fields, "post_cmd", List([]))),
                    GetOr(fields, "layout", Null)))
    case _ => Err(AttributeError)
  }

  /** One entry of `windows`, normalised as the start loop does. */
  function NormalizeWindow(w: Yaml): (r: Result<WindowSpec>)
  {
    match w
    case Str(s) => Ok(WindowSpec(s, List([Str(s)]), Ok([]), Null))
    case Dict(entries) =>
      if entries == [] then Err(StopIteration)
      else NormalizeBody(entries[0].0, Get(entries, entries[0].0).value)
    case _ => Err(AttributeError)
  }

  /** A bare string names the window and is its only pane's command. */
  lemma BareStringWindow(s: string)
    ensures NormalizeWindow(Str(s)) == Ok(WindowSpec(s, List([Str(s)]), Ok([]), Null))
    ensures Iterate(NormalizeWindow(Str(s)).value.panes) == Ok([Str(s)])
  {
  }

  /** `{n: cmd}` is window n with one pane running cmd, no post commands and the default layout. */
  lemma CommandWindow(n: string, cmd: string)
    requires cmd != ""
    ensures NormalizeWindow(Dict([(n, Str(cmd))])) == Ok(WindowSpec(n, List([Str(cmd)]), Ok([]), Null))
  {
  }

  /** `{n: None}` (or any empty body) is window n with no panes at all. */
  lemma EmptyWindow(n: string, body: Yaml)
    requires Falsy(body)
    ensures NormalizeWindow(Dict([(n, body)])).Ok?
    ensures NormalizeWindow(Dict([(n, body)])).value.name == n
    ensures Iterate(NormalizeWindow(Dict([(n, body)])).value.panes) == Ok([])
    ensures NormalizeWindow(Dict([(n, body)])).value.post == Ok([])
  {
    assert Get([(n, body)], n) == Some(body);
  }

  /** `{n: {panes, layout, post_cmd}}` takes each of the three from the body, a scalar post_cmd becoming a one-element list. */
  lemma DictWindow(n: string, fields: seq<(string, Yaml)>)
    requires fields != []
    ensures var r := NormalizeWindow(Dict([(n, Dict(fields))]));
      && r.Ok? && r.value.name == n
      && (Get(fields, "panes").Some? ==> r.value.panes == Get(fields, "panes").value)
      && (Get(fields, "panes").None? ==> r.value.panes == List([]))
      && (Get(fields, "layout").Some? ==> r.value.layout == Get(fields, "layout").value)
      && (Get(fields, "post_cmd").Some? && Get(fields, "post_cmd").value.Str? ==> r.value.post == Ok([Get(fields, "post_cmd").value]))
      && (Get(fields, "post_cmd").None? ==> r.value.post == Ok([]))
  {
    assert Get([(n, Dict(fields))], n) == Some(Dict(fields));
  }

  /** Only a string or a mapping can describe a window; an empty mapping has no name. */
  lemma NormalizeWindowFailures(w: Yaml)
    ensures NormalizeWindow(w).Err? <==>
      w.Null? || w.List? || w == Dict([]) || (w.Dict? && w.entries != [] && Get(w.entries, w.entries[0].0).value.List? && !Falsy(Get(w.entries, w.entries[0].0).value))
    ensures w == Dict([]) ==> NormalizeWindow(w) == Err(StopIteration)
  {
  }

  // ---------------------------------------------------------------------
  // Pane commands

  /** `next(iter(pane.values()))` for a dict pane, `[pane]` otherwise; the dict's first value must be a list. */
  function PaneCommands(pane: Yaml): (r: Result<seq<Yaml>>)
    ensures !pane.Dict? ==> r == Ok([pane])
    ensures pane == Dict([]) ==> r == Err(StopIteration)
    ensures pane.Dict? && pane.entries != [] && pane.entries[0].1.List? ==> r == Ok(pane.entries[0].1.items)
  {
    match pane
    case Dict(entries) =>
      if entries == [] then Err(StopIteration)
      else (match entries[0].1
        case List(items) => Ok(items)
        case _ => Err(TypeError))
    case _ => Ok([pane])
  }

  /** The text send_keys types for one command: falsy values are skipped (""), other non-strings are rejected with `invalid`. */
  function CmdText(item: Yaml, invalid: Error): (r: Result<string>)
    ensures r.Ok? && r.value != "" <==> item.Str? && item.s != ""
    ensures r.Err? <==> !Falsy(item) && !item.Str?
    ensures r.Err? ==> r.error == invalid
  {
    match item
    case Str(s) => Ok(s)
    case _ => if Falsy(item) then Ok("") else Err(invalid)
  }

  /** `layout or 'tiled'` before the default: "" for a falsy layout, its text for a string. */
  function LayoutText(layout: Yaml, invalid: Error): (r: Result<string>)
    ensures r.Ok? <==> layout.Str? || Falsy(layout)
    ensures layout.Str? ==> r == Ok(layout.s)
    ensures r.Err? ==> r.error == invalid
  {
    match layout
    case Str(s) => Ok(s)
    case _ => if Falsy(layout) then Ok("") else Err(invalid)
  }

  /** The full command list of one pane: the venv line, then the pane's commands, then the post commands. */
  function PaneKeys(venv: seq<string>, pane: Yaml, post: Result<seq<Yaml>>): (r: Result<seq<Yaml>>)
    ensures r.Ok? ==> PaneCommands(pane).Ok? && post.Ok?
    ensures r.Ok? ==> |r.value| == |venv| + |PaneCommands(pane).value| + |post.value|
    ensures r.Ok? ==> forall i :: 0 <= i < |venv| ==> r.value[i] == Str(venv[i])
    ensures r.Ok? ==> forall i :: 0 <= i < |PaneCommands(pane).value| ==> r.value[|venv| + i] == PaneCommands(pane).value[i]
    ensures r.Ok? ==> forall i :: 0 <= i < |post.value| ==> r.value[|venv| + |PaneCommands(pane).value| + i] == post.value[i]
  {
    var cmds :- PaneCommands(pane);
    var after :- post;
    Ok(seq(|venv|, i requires 0 <= i < |venv| => Str(venv[i])) + cmds + after)
  }

  /** How many of a command list send_keys actually types. */
  function TypedCount(items: seq<Yaml>): nat
    decreases |items|
  {
    if items == [] then 0
    else (if items[0].Str? && items[0].s != "" then 1 else 0) + TypedCount(items[1..])
  }

  // ---------------------------------------------------------------------
  // Paths

  /** What a finished process reports: its exit status and its output. */
  datatype ProcReply = ProcReply(code: int, output: string)

  /**
   * The parts of the machine the workspace consults: the home directory
   * (HOME, for `~`), the password database's home of each user (for
   * `~user`; None where getpwnam raises KeyError), which paths are
   * directories, the shell (a command line run in a directory) and git (an
   * argument list run in a directory).
   */
  datatype Host = Host(home: string, homes: string -> Option<string>, isDir: string -> bool,
                       shell: (string, string) -> ProcReply, git: (string, seq<string>) -> ProcReply)

  /** os.path.isabs on POSIX. */
  predicate IsAbs(p: string) {
    StartsWith(p, "/")
  }

  /** os.path.join(a, b) on POSIX. */
  function PathJoin(a: string, b: string): (r: string)
    ensures IsAbs(b) ==> r == b
    ensures !IsAbs(b) ==> EndsWith(r, b) && StartsWith(r, a)
    ensures IsAbs(a) ==> IsAbs(r)
  {
    if IsAbs(b) then b
    else if a == "" || EndsWith(a, "/") then a + b
    else a + "/" + b
  }

  /** The length of the part of s before its first `/` (all of s when it has none). */
  function UntilSlash(s: string): (n: nat)
    ensures n <= |s| && '/' !in s[..n] && (n < |s| ==> s[n] == '/')
  {
    if s == [] || s[0] == '/' then 0
    else
      var n := 1 + UntilSlash(s[1..]);
      assert s[..n] == [s[0]] + s[1..][..n - 1];
      n
  }

  /** The home directory `~<user>` names: HOME for the empty user, else the password database's. */
  function UserHome(user: string, host: Host): Option<string> {
    if user == "" then Some(host.home) else host.homes(user)
  }

  /**
   * os.path.expanduser on POSIX: a leading `~` up to the first `/` names a
   * home directory, which replaces it without its trailing `/`s (an empty
   * result reads `/`); a path without the `~`, or naming an unknown user,
   * is returned unchanged.
   */
  function ExpandUser(p: string, host: Host): string {
    if !StartsWith(p, "~") then p
    else
      var i := UntilSlash(p);
      match UserHome(p[1..i], host)
      case None => p
      case Some(home) =>
        var e := RStripChar(home, '/') + p[i..];
        if e == "" then "/" else e
  }

  /**
   * Only a leading `~` naming a known home changes a path, and then the
   * result is never empty and keeps what followed the user part.
   */
  lemma ExpandUserSpec(p: string, host: Host)
    ensures !StartsWith(p, "~") ==> ExpandUser(p, host) == p
    ensures StartsWith(p, "~") && UserHome(p[1..UntilSlash(p)], host).None? ==> ExpandUser(p, host) == p
    ensures StartsWith(p, "~") && UserHome(p[1..UntilSlash(p)], host).Some? ==>
      var r := ExpandUser(p, host);
      r != "" && (r == "/" || EndsWith(r, p[UntilSlash(p)..]))
  {
  }

  /** With HOME written without a trailing `/`, `~` is HOME and `~/rest` is HOME/rest. */
  lemma ExpandUserHome(rest: string, host: Host)
    requires host.home != "" && !EndsWith(host.home, "/")
    ensures ExpandUser("~", host) == host.home
    ensures ExpandUser("~/" + rest, host) == host.home + "/" + rest
  {
    var p := "~/" + rest;
    assert p[..1] == "~" && p[1] == '/';
    assert UntilSlash(p) == 1 by {
      assert p[1..][0] == '/';
    }
    assert p[1..1] == "" && p[1..] == "/" + rest;
    assert RStripChar(host.home, '/') == host.home;
    assert UntilSlash("~") == 1 by {
      assert "~"[1..] == [];
    }
    assert "~"[1..1] == "" && "~"[1..] == "";
  }

  /** HOME's trailing `/`s are dropped: with HOME `/`, `~` is `/` and `~/rest` is `/rest`. */
  lemma ExpandUserRootHome(rest: string, host: Host)
    requires host.home == "/"
    ensures ExpandUser("~", host) == "/"
    ensures ExpandUser("~/" + rest, host) == "/" + rest
  {
    var p := "~/" + rest;
    assert p[..1] == "~";
    assert UntilSlash(p) == 1 by {
      assert p[1..][0] == '/';
    }
    assert p[1..1] == "" && p[1..] == "/" + rest;
    assert RStripChar("/", '/') == "" by {
      assert "/"[..0] == "";
    }
    assert UntilSlash("~") == 1 by {
      assert "~"[1..] == [];
    }
    assert "~"[1..1] == "" && "~"[1..] == "";
  }

  /** `~user/rest` takes the password database's home for user, or stays as written when there is none. */
  lemma ExpandUserOther(user: string, rest: string, host: Host)
    requires user != "" && '/' !in user
    ensures host.homes(user).None? ==> ExpandUser("~" + user + "/" + rest, host) == "~" + user + "/" + rest
    ensures host.homes(user).Some? && host.homes(user).value != "" && !EndsWith(host.homes(user).value, "/") ==>
      ExpandUser("~" + user + "/" + rest, host) == host.homes(user).value + "/" + rest
  {
    var p := "~" + user + "/" + rest;
    var h := host.homes(user);
    assert p[..1] == "~";
    assert p[1..] == user + "/" + rest;
    UntilSlashAfter(user, "/" + rest);
    assert UntilSlash(p) == 1 + |user| by {
      assert p[1..] == user + ("/" + rest);
      assert p[1..][0] == p[1];
    }
    assert p[1..1 + |user|] == user && p[1 + |user|..] == "/" + rest;
    if h.Some? && h.value != "" && !EndsWith(h.value, "/") {
      assert RStripChar(h.value, '/') == h.value;
    }
  }

  /** A run of characters without `/` is skipped whole. */
  lemma {:induction false} UntilSlashAfter(a: string, b: string)
    requires '/' !in a && StartsWith(b, "/")
    ensures UntilSlash(a + b) == |a|
    decreases |a|
  {
    if a != [] {
      assert (a + b)[1..] == a[1..] + b;
      UntilSlashAfter(a[1..], b);
    } else {
      assert a + b == b;
    }
  }

  /** os.path.basename on POSIX. */
  function Basename(p: string): (r: string)
    ensures '/' !in r
  {
    var parts := Split(p, '/');
    SplitPartsFree(p, '/');
    parts[|parts| - 1]
  }

  /** ` source "<venv>/bin/activate"` with the path joined by os.path.join. */
  function ActivationLine(venv: string): string {
    " source \"" + PathJoin(venv, "bin/activate") + "\""
  }

  /** A virtualenv directory written without a trailing `/` is activated from its `bin/activate`. */
  lemma ActivationLineShape(venv: string)
    requires venv != "" && !EndsWith(venv, "/")
    ensures ActivationLine(venv) == " source \"" + venv + "/bin/activate\""
  {
  }

  /** The virtualenv directory: expanded, then resolved against the root when relative. */
  function ResolveVenv(venv: string, root: string, host: Host): (r: string)
    ensures !IsAbs(ExpandUser(venv, host)) && root != "" ==> r == PathJoin(root, ExpandUser(venv, host))
    ensures IsAbs(ExpandUser(venv, host)) || root == "" ==> r == ExpandUser(venv, host)
  {
    var v := ExpandUser(venv, host);
    if root != "" && !IsAbs(v) then PathJoin(root, v) else v
  }

  /** An absolute root makes the activated virtualenv absolute, whichever way the venv was written. */
  lemma ResolveVenvAbsolute(venv: string, root: string, host: Host)
    requires IsAbs(root)
    ensures IsAbs(ResolveVenv(venv, root, host))
  {
  }

  /** A relative venv ends up under the root: the root, one `/`, then the venv as written. */
  lemma ResolveVenvRelative(venv: string, root: string, host: Host)
    requires root != "" && !StartsWith(venv, "~") && !IsAbs(venv) && !EndsWith(root, "/")
    ensures ResolveVenv(venv, root, host) == root + "/" + venv
  {
  }
}
