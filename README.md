# mx — a verified model of the workspace orchestrator

`mx` starts tmux workspaces from a YAML description. Each workspace has:
- windows, each holding panes that run commands;
- an optional virtualenv that is activated in every pane;
- pre-flight shell commands;
- a list of git repositories whose fetch summaries and status table it prints in colour.

This project models the core of three revisions of that program:

| `Rev` | files |
|---|---|
| `Mx` | `src/mx/workspace.py`, `src/mx/tmux.py`, `src/mx/git.py`, `src/mx/logger.py` (the latest) |
| `Mux` | `src/mux/workspace.py`, `src/mux/git.py` (the earlier package) |
| `Script` | `mux.py` (the original single script: its `Tmux`, `Workspace` and `Logger` classes) |

The processes the program talks to are parameters, not code:

- **`Backend`** stands for the tmux binary.
  - `server(log, argv)` is tmux's reply to one command, given every command sent before it.
  - `decode` is `json.loads`.
  - `tmuxVar` is the `TMUX` environment variable.
- **`Host`** stands for the filesystem and git.
  - `isDir`: is this path a directory?
  - `git(path, argv)`: the exit code and output of one git command.
  - `shell(dir, cmd)`: the status and output of one pre-flight command.
  - `home`: HOME, what `~` expands to; `homes(user)`: the home directory of a user, for `~user`.

Objects whose methods update their fields are Dafny classes:
- the tmux gateway (`Tmux.Gateway`, `ScriptTmux.ScriptGateway`) keeps `log`: every argv handed to tmux, in order;
- the three `Workspace` classes keep the session record, the windows made and the current directory; the latest one also keeps the messages `ls` echoes;
- `Git.Git` keeps the repository list and every message handed to the logger.

Each imperative method is proved against a recursive specification function of the old state. The properties promised by the source are proved as lemmas about those functions. Examples:
- the trace of tmux operations a window schema produces;
- the exact number of each kind of operation;
- the bucketing of records and fetch lines;
- the cells and alignment of the status table;
- the ANSI rendering of the logger's markup.

The files, one module each:

- `common.dfy` — `Result`/`Option` and the Python string built-ins used (split, join, strip, padding, `str(n)`).
- `schema.dfy` — the YAML values of a configuration, window normalisation, pane command lists, and the POSIX path helpers.
- `logger.dfy` — `Logger.echo` and `_colorize`.
- `tmux.dfy` — the gateway of `src/mx/tmux.py`.
- `script_tmux.dfy` — the gateway of `mux.py`.
- `orchestration.dfy` — the specification of `create_window` and of the window loop, shared by all revisions, plus operation counting.
- `mx_workspace.dfy`, `mux_workspace.dfy`, `script_workspace.dfy` — the `Workspace` class of each revision.
- `git_repos.dfy` — repository list normalisation.
- `git_fetch.dfy` — `_parse_git_fetch`.
- `git_status.dfy` — the cells and rows of `status`.
- `git.dfy` — the `Git` object.

A configuration value that is `None` or absent is written `""` in `Config`. Python treats the two alike through `or` and truthiness.

## Model

| member | source | states |
|---|---|---|
| Common.Split | src/mx/git.py:30 | `str.split` with one separator always yields at least one part |
| Common.SplitLength | src/mx/git.py:174 | a text splits into one more part than it has separators (the untracked count) |
| Common.SplitPartsFree | src/mx/workspace.py:188 | no part of a split holds the separator |
| Common.JoinSplit | src/mx/workspace.py:188 | joining the parts with the separator gives the text back |
| Common.SplitJoin | src/mx/workspace.py:188 | splitting a join of separator-free parts gives the parts back |
| Common.SplitCons | src/mx/git.py:30 | a separator-free head, a separator, then the rest splits as the head followed by the parts of the rest |
| Common.SplitNone | src/mx/git.py:30 | a text without the separator is one part |
| Common.LastTwoParts | src/mx/workspace.py:188 | `'/'.join(name.split('/')[-2:])` keeps exactly the last two parts |
| Common.Field | src/mx/git.py:30 | `s.split(sep)[i]` exists exactly when there are more than i parts (else IndexError) |
| Common.ReplaceChar | src/mx/workspace.py:186 | `str.replace` of one character: same length, each occurrence replaced and nothing else |
| Common.JoinSplitReplace | src/mx/tmux.py:45 | joining the lines of a text with `,` is replacing every line break by `,` |
| Common.JoinFirst | src/mx/tmux.py:29-32 | a join starts with its first part |
| Common.JoinLast | src/mx/tmux.py:29-32 | a join ends with its last part |
| Common.JoinContains | src/mx/git.py:134 | a join contains each of its parts |
| Common.JoinSnoc | src/mx/tmux.py:30-31 | appending a part appends the separator and the part |
| Common.CountCharPositive | src/mx/git.py:203-204 | a character is counted exactly when it occurs |
| Common.LStripSpec | src/mx/git.py:168 | `lstrip` keeps a suffix, drops only leading whitespace (every character `str.isspace` accepts) and all of it |
| Common.RStripSpec | src/mx/git.py:180 | `rstrip` keeps a prefix, drops only trailing whitespace (every character `str.isspace` accepts) and all of it |
| Common.StripSpec | src/mx/git.py:180 | what `strip` leaves neither starts nor ends with whitespace (in the `str.isspace` sense) |
| Common.ReplaceCharAbsent | src/mx/workspace.py:186 | `replace` of a character that does not occur changes nothing |
| Common.ReplaceCharAppend | src/mx/workspace.py:186 | `replace` works part by part over a concatenation |
| Common.RStripCharSpec | src/mx/tmux.py:45-46 | `rstrip(',')` keeps a prefix and drops exactly the trailing commas |
| Common.NatToString | src/mx/git.py:175 | `str(n)` is a non-empty run of digits without a leading zero unless n is 0 |
| Common.IntToString | src/mx/workspace.py:69 | `str(i)` is non-empty for any exit code |
| Common.ParseNatToString | src/mx/git.py:205-208 | the printed number reads back as the number |
| Common.NatToStringInjective | src/mx/git.py:205-208 | distinct numbers print differently |
| Common.Spaces | src/mx/git.py:216-218 | the padding is n blanks |
| Common.PadLeft | src/mx/git.py:216 | `{:>w}` gives width max(w, \|s\|) and ends with s |
| Common.PadRight | src/mx/git.py:217 | `{:w}` gives width max(w, \|s\|) and starts with s |
| Common.ContainsAt | src/mx/git.py:44 | a text occurring at some offset is contained |
| Common.ContainsWitness | src/mx/git.py:44 | a contained text occurs at some offset |
| Common.ContainsAfter | src/mx/git.py:125-136 | text before a contained text keeps it contained |
| Common.ContainsBefore | src/mx/git.py:125-136 | text after a contained text keeps it contained |
| Schema.Get | src/mx/workspace.py:86 | `d.get(key)` finds a value exactly when some entry has that key, and the value is that entry's |
| Schema.Chars | src/mx/workspace.py:157 | iterating a string yields its one-character strings, in order |
| Schema.Keys | src/mx/workspace.py:79 | iterating a mapping yields its keys, in order |
| Schema.Iterate | src/mx/workspace.py:71 | `for x in y` fails with TypeError exactly on None, yields a list's items, and is empty exactly when y is falsy |
| Schema.PostCommands | src/mx/workspace.py:89-91 | a string post_cmd becomes a one-element list, a list is kept, and None or a mapping makes `cmds + post` a TypeError |
| Schema.BareStringWindow | src/mx/workspace.py:76-84 | a bare string `s` is window `s` with the single pane `s`, no post commands and the default layout |
| Schema.CommandWindow | src/mx/workspace.py:78-84 | `{n: cmd}` is window n with one pane running cmd |
| Schema.EmptyWindow | src/mx/workspace.py:78-91 | `{n: None}` (any falsy body) is window n with no panes and no post commands |
| Schema.DictWindow | src/mx/workspace.py:78-97 | `{n: {...}}` takes panes, layout and post_cmd from the body, defaults for the missing ones, a scalar post_cmd becoming a one-element list |
| Schema.NormalizeWindowFailures | src/mx/workspace.py:76-86 | a window entry fails exactly when it is None, a list, an empty mapping (StopIteration), or a mapping whose body is a non-empty list |
| Schema.PaneCommands | src/mx/workspace.py:163-164 | a dict pane contributes its first value (StopIteration when empty), any other pane itself |
| Schema.CmdText | src/mx/tmux.py:194-198 | a command is typed exactly when it is a non-empty string; falsy values are skipped, other values are an error |
| Schema.LayoutText | src/mx/tmux.py:179-182 | a string layout is used as written, a falsy one leaves the `tiled` default, anything else is an error |
| Schema.PaneKeys | src/mx/workspace.py:163-165 | a pane's command list is the venv line, then the pane's commands, then the post commands, position by position |
| Schema.PathJoin | src/mx/workspace.py:48 | `os.path.join`: an absolute second part wins; otherwise the result starts with the first and ends with the second |
| Schema.UntilSlash | src/mx/workspace.py:39 | the user part of `~user/...` ends at the first `/` |
| Schema.ExpandUserSpec | src/mx/workspace.py:39 | a path without a leading `~`, or naming a user without a home, is unchanged; otherwise the result is never empty and is `/` or ends with what followed the user part |
| Schema.ExpandUserHome | src/mx/workspace.py:39 | with HOME written without a trailing `/`, `~` is HOME and `~/rest` is HOME/rest |
| Schema.ExpandUserRootHome | src/mx/workspace.py:39 | HOME's trailing `/` is dropped: with HOME `/`, `~` is `/` and `~/rest` is `/rest` |
| Schema.ExpandUserOther | src/mx/workspace.py:39 | `~user/rest` is the user's home then `/rest`, or stays as written when the user has no home |
| Schema.Basename | src/mx/workspace.py:200 | the base name holds no `/` |
| Schema.ResolveVenv | src/mx/workspace.py:44-48 | the venv is expanded, then joined to the root when relative and a root is set |
| Schema.ResolveVenvAbsolute | src/mx/workspace.py:38-48 | with an absolute root the activated venv is absolute whichever way it was written |
| Schema.ResolveVenvRelative | src/mx/workspace.py:44-50 | a relative venv lands at root + `/` + venv |
| Schema.ActivationLineShape | src/mx/workspace.py:49-50 | the activation line is ` source "<venv>/bin/activate"` |
| Logger.LookupColor | src/mx/logger.py:11-13 | the colour found is the one with that name |
| Logger.LookupColorName | src/mx/logger.py:11-13 | every colour is found under its own name |
| Logger.ColorCodeInjective | src/mx/logger.py:11-13 | the nine SGR codes are pairwise distinct |
| Logger.LowerRun | src/mx/logger.py:24 | `[a-z]+` is greedy: the longest run of lower-case letters |
| Logger.LowerRunStops | src/mx/logger.py:24 | a run of lower-case letters stops at the first other character |
| Logger.MatchTag | src/mx/logger.py:24 | a match starts with `[`, ends with `]` and names a non-empty lower-case colour |
| Logger.MatchBracketed | src/mx/logger.py:24 | a bracketed lower-case word is a tag; a leading `bold` is the flag when letters follow it |
| Logger.MatchWrittenName | src/mx/logger.py:24 | `[name]` and `[boldname]` are recognised with that name and boldness |
| Logger.MatchWrittenTag | src/mx/logger.py:24 | a written colour tag is recognised as exactly that tag |
| Logger.ColorNameShape | src/mx/logger.py:11-13 | colour names are lower-case words that do not start with `bo` |
| Logger.Replacement | src/mx/logger.py:27-32 | off a terminal a tag becomes nothing; on one it is `\x1b[<1 or 0>;<code>m`, or a KeyError for an unknown name |
| Logger.Concat | src/mx/logger.py:24 | the substitution fails at its first failing piece, otherwise concatenates |
| Logger.Echo | src/mx/logger.py:24-25 | a printed line ends with the reset code and fails exactly when colouring fails |
| Logger.EchoScript | mux.py:27-28 | mux.py prints the reset code after a space |
| Logger.PrintAll | src/mx/logger.py:23-25 | at most one line per message, and all of them when none fails |
| Logger.PrintAllInOrder | src/mx/logger.py:23-25 | messages print in order, each as rendered, stopping at the first failure with its error |
| Logger.EchoAllInOrder | src/mx/logger.py:15-25 | `echo(*args)` prints each message's coloured line in order until one fails |
| Logger.EchoAllOffTerminal | src/mx/logger.py:28-29 | off a terminal every message prints, in both revisions |
| Logger.ColorizePlainPrefix | src/mx/logger.py:24 | text without `[` passes through unchanged, whatever follows |
| Logger.PlainMessageUnchanged | src/mx/logger.py:24 | a message without `[` is printed as written |
| Logger.ColorizeOffTerminalTotal | src/mx/logger.py:28-29 | off a terminal colouring never fails and never lengthens the text |
| Logger.ColorizeMarkup | src/mx/logger.py:24-32 | colouring written markup puts each tag's escape (nothing off a terminal) in place and keeps every plain piece |
| Logger.UnknownColor | src/mx/logger.py:31 | an unknown colour is a KeyError on a terminal and vanishes off one |
| Tmux.FormatEntries | src/mx/tmux.py:30-31 | one `"k": "#{k}"` entry per key, in order |
| Tmux.WithSeparatorsJoin | src/mx/tmux.py:29-32 | the loop's concatenation is the entries joined by `, ` plus one trailing separator |
| Tmux.BuildFormat | src/mx/tmux.py:28-32 | the loop builds exactly the `{...}` format with the last separator dropped |
| Tmux.FormatStarts | src/mx/tmux.py:29-31 | the format opens with the first key's entry |
| Tmux.FormatEnds | src/mx/tmux.py:31-32 | the format closes right after the last key's entry, with no trailing separator |
| Tmux.CommandArgv | src/mx/tmux.py:27-34 | `tmux` is prepended, the command follows unchanged, and `-F <format>` is appended exactly when fields are requested |
| Tmux.PayloadShape | src/mx/tmux.py:44-47 | the payload has no line breaks and no trailing comma, and is wrapped in `[...]` exactly when `many` |
| Tmux.Interpret | src/mx/tmux.py:36-56 | `command` fails only when tmux cannot run (`Unable to execute`) or json rejects the payload (`Unable to serialize`); otherwise it returns the parsed stdout (none when empty) and the stripped stderr |
| Tmux.BucketOf | src/mx/tmux.py:101-108 | a key goes to the first prefix it starts with, else to the default record |
| Tmux.EmptyBuckets | src/mx/tmux.py:98-100 | the records start empty |
| Tmux.Buckets | src/mx/tmux.py:98-108 | bucketing fails with IndexError exactly when some key has no `_` |
| Tmux.LastValueWitness | src/mx/tmux.py:98-108 | a field routed to a record under a name is found there |
| Tmux.LastValueSource | src/mx/tmux.py:98-108 | a found value comes from a field routed there under that name |
| Tmux.LastValueFound | src/mx/tmux.py:98-108 | a record holds a name exactly when some field is routed to it under that name |
| Tmux.BucketsContent | src/mx/tmux.py:98-108 | each record holds exactly the short names of its fields, each under the value of the last such field |
| Tmux.BucketFields | src/mx/tmux.py:98-108 | the `for k, v` loop fills the records the bucketing specification gives |
| Tmux.LastWriterValue | src/mx/tmux.py:101-108 | the last field with a short name is the value kept (`pane_current_path` and `pane_current_command` collide on `current`) |
| Tmux.SessionRecords | src/mx/tmux.py:96-110 | new_session succeeds only with empty errors and raises TmuxException carrying them otherwise |
| Tmux.WindowRecords | src/mx/tmux.py:129-140 | new_window raises a plain `Error creating window` exception when errors are present |
| Tmux.PaneRecord | src/mx/tmux.py:156-162 | new_pane raises TmuxException when errors are present |
| Tmux.NewSessionBuckets | src/mx/tmux.py:98-110 | `window_` keys go to the window, `pane_` keys to the pane and the rest to the session, each under its second segment, the last writer winning |
| Tmux.WithinSessionAsWrittenOutsideTmux | src/mx/tmux.py:62 | the written check claims to be inside a tmux session when TMUX is unset |
| Tmux.WithinSession | src/mx/tmux.py:58-62 | inside a tmux client exactly when TMUX is set and non-empty |
| Tmux.WithinSessionAgreesWhenSet | src/mx/tmux.py:62 | the corrected and the written check agree whenever TMUX is set |
| Tmux.Gateway.constructor | src/mx/tmux.py:14-17 | a gateway has sent nothing yet |
| Tmux.Gateway.Command | src/mx/tmux.py:18-56 | exactly one argv is sent, and the result is tmux's reply interpreted as above |
| Tmux.Gateway.NewSession | src/mx/tmux.py:79-110 | sends one `new-session -Pd -s` with the session fields and returns the bucketed records |
| Tmux.Gateway.NewWindow | src/mx/tmux.py:112-140 | sends one `new-window -Pd -t` with the window fields and returns the bucketed records |
| Tmux.Gateway.NewPane | src/mx/tmux.py:142-162 | sends one `split-window` on `session:window.pane` with `-h` and returns the pane record |
| Tmux.Gateway.KillSession | src/mx/tmux.py:164-168 | sends exactly `kill-session -t <name>` |
| Tmux.Gateway.SetLayout | src/mx/tmux.py:170-182 | sends exactly one `select-layout` on `session:window` |
| Tmux.Gateway.SendKeys | src/mx/tmux.py:184-199 | sends nothing for an empty command, else one `send-keys -Rt` ending in `C-m` exactly when `enter` |
| Tmux.Gateway.Attach | src/mx/tmux.py:201-210 | sends nothing for an empty name; else `switch-client` when TMUX is unset or non-empty (the check as written) and `attach-session` when TMUX is set but empty |
| Tmux.Gateway.HasSession | src/mx/tmux.py:64-77 | a session exists exactly when `has-session` exits 0 |
| Tmux.Gateway.GetWindows | src/mx/tmux.py:212-222 | sends one `list-windows` with the window fields, many records |
| Tmux.Gateway.GetPanes | src/mx/tmux.py:224-235 | sends one `list-panes` on `session:window` with the pane fields, many records |
| ScriptTmux.ScriptInterpret | mux.py:49-67 | mux.py fails only when tmux cannot be launched; output json rejects is printed as `Error` and yields nothing |
| ScriptTmux.ParseFailureIsSilent | mux.py:60-67 | output json rejects is silent in mux.py, whereas the later gateway raises |
| ScriptTmux.ScriptSessionRecords | mux.py:173-187 | an empty answer raises `Error creating session`; a record is bucketed as in the later gateway |
| ScriptTmux.ScriptWindowRecords | mux.py:199-210 | an empty answer raises `Error creating window`; a record is bucketed as in the later gateway |
| ScriptTmux.ScriptPaneRecord | mux.py:218-224 | an empty answer raises `Error creating pane`; every key goes to the pane |
| ScriptTmux.ScriptNewPaneArgv | mux.py:213-215 | the split targets `session:window.pane` and puts `-h` last |
| ScriptTmux.ScriptGateway.constructor | mux.py:38 | a gateway has sent nothing yet |
| ScriptTmux.ScriptGateway.Command | mux.py:39-67 | exactly one argv is sent, and its reply is interpreted the mux.py way |
| ScriptTmux.ScriptGateway.HasSession | mux.py:72-78 | true exactly when `has-session` exits 0; an unlaunchable tmux escapes as OSError |
| Orchestration.Answer | mux.py:49-67 | mux.py reports no stderr |
| Orchestration.SendAllStep | src/mx/workspace.py:166-167 | one more typed command extends the pane's trace by its send-keys |
| Orchestration.PanesRun | src/mx/workspace.py:157-167 | a successful pane loop returns one record per pane schema |
| Orchestration.PanesRunUnfold | src/mx/workspace.py:157-167 | the pane loop is the first pane's work followed by the loop over the rest, split from that pane |
| Orchestration.PanesRunStep | src/mx/workspace.py:157-167 | a successful pane extends the records and the trace and the loop goes on from it |
| Orchestration.PanesRunStop | src/mx/workspace.py:157-167 | a failing pane ends the loop with its error, after what it sent |
| Orchestration.WindowStepApply | src/mx/workspace.py:71-97 | one step of the window loop is the normalisation and creation of that entry |
| Orchestration.LoopExtends | src/mx/workspace.py:71-97 | the window loop only appends to the trace and to the windows, one window per entry when none fails |
| Orchestration.KeyLists | src/mx/workspace.py:163-165 | one command list per pane |
| Orchestration.PanesTraceUnfold | src/mx/workspace.py:157-167 | the trace of the panes is the first pane's operations, then the rest's |
| Orchestration.PanesTraceFirst | src/mx/workspace.py:158-160 | the window's own pane issues no split, whatever its record |
| Orchestration.SendAllTrace | src/mx/workspace.py:166-167 | a successful command loop types exactly the non-empty commands, in order, into the pane |
| Orchestration.PaneRunTrace | src/mx/workspace.py:157-167 | a successful pane issues its split (unless first) and then its keys, and the first pane reuses the window's own pane |
| Orchestration.PanesRunHead | src/mx/workspace.py:157-167 | a successful loop built the first pane's command list and succeeded on the rest |
| Orchestration.PanesRunKeys | src/mx/workspace.py:163-165 | a successful pane loop built every pane's command list |
| Orchestration.PanesRunFirst | src/mx/workspace.py:146-160 | the first pane of a new window is the pane tmux created with it |
| Orchestration.PanesRunTrace | src/mx/workspace.py:157-167 | a successful pane loop issues exactly the declared trace: each later pane splits the previous one, then the pane's keys in order |
| Orchestration.CreateNoName | src/mux/workspace.py:92-93 | a later window of the earlier revisions fails with KeyError when the session record has no name |
| Orchestration.CreateDelta | src/mx/workspace.py:146-150 | creating a window sends exactly one command |
| Orchestration.CreateKeepsSession | src/mx/workspace.py:146-147 | only the first window replaces the session record |
| Orchestration.CreateTrace | src/mx/workspace.py:146-155 | a successful creation sends exactly `new-session` for the first window and `new-window` for later ones |
| Orchestration.WindowRunUnfold | src/mx/workspace.py:136-170 | a successful create_window is creation, then the pane loop from the new pane, then the layout |
| Orchestration.WindowRunTrace | src/mx/workspace.py:136-170 | a successful create_window issues one creation, the pane trace (extra panes splitting the previous pane), then one select-layout |
| Orchestration.CountAppend | src/mx/workspace.py:136-170 | operation counts add over concatenation |
| Orchestration.CountJoin | src/mx/workspace.py:136-170 | the count of a trace split in two is the sum of the counts of its parts |
| Orchestration.CountSingle | src/mx/tmux.py:27 | a single operation counts once, under its own kind only |
| Orchestration.CountPartition | src/mx/workspace.py:136-170 | every operation has exactly one kind |
| Orchestration.KindOfVerb | src/mx/tmux.py:27 | an operation's kind is read off its subcommand |
| Orchestration.CommandKind | src/mx/tmux.py:27 | the subcommand of an argv is the command's first word |
| Orchestration.SplitKind | src/mx/tmux.py:142-162 | a new pane is a split operation |
| Orchestration.KeysKind | src/mx/tmux.py:184-199 | typed keys are a send-keys operation |
| Orchestration.LayoutKind | src/mx/tmux.py:170-182 | a layout is a select-layout operation |
| Orchestration.CreateKind | src/mx/workspace.py:146-150 | the first window is a new-session, later ones new-window |
| Orchestration.KeysTraceCount | src/mx/workspace.py:166-167 | a pane's keys are send-keys only, one per typed command |
| Orchestration.CountStep | src/mx/workspace.py:157-167 | the counts of consecutive pane work add up |
| Orchestration.PaneOpsCount | src/mx/workspace.py:157-167 | one pane: one split unless it is the window's own, plus one send-keys per typed command |
| Orchestration.PanesTraceCount | src/mx/workspace.py:157-167 | a new window's M panes issue max(M-1, 0) splits and the typed commands of every pane |
| Orchestration.WindowParts | src/mx/workspace.py:136-170 | the three parts of create_window, counted |
| Orchestration.WindowCostOk | src/mx/workspace.py:76-97 | the cost of a window follows from its normalised schema |
| Orchestration.WindowTraceCount | src/mx/workspace.py:136-170 | the operations of a successful create_window, counted, are what its schema costs |
| Orchestration.WindowRunCount | src/mx/workspace.py:136-170 | one window costs what its schema says |
| Orchestration.LoopCount | src/mx/workspace.py:71-97 | a successful window loop appends the sum of its entries' costs |
| Orchestration.WindowsRunCount | src/mx/workspace.py:71-97 | a successful window loop issues, of each kind, exactly what the schema says |
| Orchestration.SchemaCostWindows | src/mx/workspace.py:71-97 | N windows in a fresh workspace give 1 new-session, N-1 new-window and N select-layout, and nothing else |
| Orchestration.WindowCostFixed | src/mx/workspace.py:136-170 | a window's session, window and layout counts do not depend on its panes |
| Orchestration.SchemaCostFixed | src/mx/workspace.py:71-97 | the pane-independent counts of a schema in closed form |
| Orchestration.SuffixSplit | src/mx/workspace.py:71-97 | what the trace gained splits into the first part and the rest |
| MxWorkspace.PreflightPasses | src/mx/workspace.py:64-69 | the pre-flight gate opens exactly when every command exits 0, and then all of them ran, in order |
| MxWorkspace.PreflightStops | src/mx/workspace.py:64-69 | otherwise the first failing command is the last one run, and its status, text and output make the WorkspaceException |
| MxWorkspace.AttachRun | src/mx/workspace.py:110-116 | attach sends nothing exactly when the name is empty, else one command with the verb the written TMUX check picks |
| MxWorkspace.JsonGet | src/mx/workspace.py:129 | a field value found comes from a field of that name |
| MxWorkspace.ListingStep | src/mx/workspace.py:128-132 | a listed window's panes are listed by its id, and errors fail |
| MxWorkspace.PaneListings | src/mx/workspace.py:128-134 | a successful list-panes loop lists once per window |
| MxWorkspace.PaneListingsTargets | src/mx/workspace.py:128-134 | each window's panes are listed by its own id, in listing order |
| MxWorkspace.ListingsStep | src/mx/workspace.py:128-134 | one more window listed extends the loop |
| MxWorkspace.ListingsStop | src/mx/workspace.py:130-132 | a window whose listing has errors ends ls with `Unable to list panes` |
| MxWorkspace.LsRun | src/mx/workspace.py:118-124 | ls always lists the windows first |
| MxWorkspace.LsTargets | src/mx/workspace.py:118-134 | a successful ls lists the windows once, then the panes of each listed window, in order |
| MxWorkspace.StripGitAsWrittenLegit | src/mx/workspace.py:187 | the written pattern turns `me/legit` into `me/l` |
| MxWorkspace.StripGitSuffix | src/mx/workspace.py:187 | the corrected removal takes off exactly a trailing `.git` |
| MxWorkspace.StripGitAgrees | src/mx/workspace.py:187 | the written and corrected removal agree wherever the character before `git` is a dot |
| MxWorkspace.RepoNameSegments | src/mx/workspace.py:186-188 | the name keeps the last two `/`-segments of the url, `:` read as `/` and a trailing `git` dropped together with the character before it (the unescaped `.git$`) |
| MxWorkspace.RepoEntry | src/mx/workspace.py:189-192 | a bare name when its second segment is the directory, else `{dir, name}`; IndexError without a second segment (the name as the written pattern leaves it) |
| MxWorkspace.RepoEntryDropsGit | src/mx/workspace.py:186-192 | a checkout `<stem><c>git` whose remote is `<host>:<owner>/<stem><c>git` is named `<owner>/<stem>` and listed as `{dir, name}` (`legit` with `git@host:me/legit` gives `me/l`) |
| MxWorkspace.RepoNameDropsGit | src/mx/workspace.py:186-188 | such a remote is named `<owner>/<stem>` |
| MxWorkspace.SlashedDropsGit | src/mx/workspace.py:186-187 | its `:` becomes `/` and the written pattern drops `<c>git` |
| MxWorkspace.SlashedUrl | src/mx/workspace.py:186 | a url whose only `:` is the separator reads with `/` there |
| MxWorkspace.StripGitAsWrittenOf | src/mx/workspace.py:187 | the written pattern drops `git` and the one character before it |
| MxWorkspace.InitRepos | src/mx/workspace.py:180-194 | at most one entry per directory, each named as the written pattern leaves it |
| MxWorkspace.InitAccounts | src/mx/workspace.py:180-202 | when initialize succeeds, each checkout gives one Found message and one entry, and the Skipped message lists exactly the directories that are not checkouts |
| MxWorkspace.Initialize | src/mx/workspace.py:172-203 | initialize returns the root's base name, the root, and the entries of the git checkouts in directory order; it echoes a Found message per checkout up to the first failure, then the Skipped message when it succeeds |
| MxWorkspace.Workspace.constructor | src/mx/workspace.py:29-50 | the root is dir or the cwd with `~` expanded, and the venv line is resolved against it |
| MxWorkspace.Workspace.SetConfig | src/mx/workspace.py:35-50 | the root is dir or the cwd with `~` expanded; a venv becomes its activation line, no venv leaves the line as it was |
| MxWorkspace.Workspace.TypeCommands | src/mx/workspace.py:166-167 | the pane's commands are typed as the command-loop specification says |
| MxWorkspace.Workspace.AddPane | src/mx/workspace.py:157-167 | one pane as the pane specification says |
| MxWorkspace.Workspace.CreateFirst | src/mx/workspace.py:146-153 | a session for the first window, a window in it for later ones |
| MxWorkspace.Workspace.AddPanes | src/mx/workspace.py:157-167 | the pane loop as the pane-loop specification says |
| MxWorkspace.Workspace.FillWindow | src/mx/workspace.py:155-170 | the panes, then the layout |
| MxWorkspace.Workspace.CreateWindow | src/mx/workspace.py:136-170 | create_window as its specification says |
| MxWorkspace.Workspace.RunCommands | src/mx/workspace.py:64-69 | the pre-flight loop as its specification says |
| MxWorkspace.Workspace.Start | src/mx/workspace.py:52-100 | an unusable root fails before any command; a failing pre-flight fails before any tmux call; otherwise every window is created in order and attach follows even with no windows, with the verb the written TMUX check picks |
| MxWorkspace.Workspace.EnterWindow | src/mx/workspace.py:71-97 | one window entry, normalised, then created |
| MxWorkspace.Workspace.MakeWindows | src/mx/workspace.py:71-97 | the window loop as its specification says |
| MxWorkspace.Workspace.StartWindows | src/mx/workspace.py:71-100 | the window loop, then attach (the written TMUX check) when it succeeded |
| MxWorkspace.Workspace.Stop | src/mx/workspace.py:102-108 | kills the named session, or the workspace's own |
| MxWorkspace.Workspace.Attach | src/mx/workspace.py:110-116 | attaches to the named session, or the workspace's own, with the verb the written TMUX check picks |
| MxWorkspace.Workspace.ListPanes | src/mx/workspace.py:129-132 | one window's panes are listed |
| MxWorkspace.ListingEchoesShape | src/mx/workspace.py:128-134 | a successful list-panes loop echoes, per window in order, its header and the repr of its panes |
| MxWorkspace.EchoesPanesCons | src/mx/workspace.py:128-134 | the messages of one more window go in front of those of the windows after it |
| MxWorkspace.LsEchoesShape | src/mx/workspace.py:118-134 | a successful ls echoes the Windows header and the repr of the windows, then each window's header and panes |
| MxWorkspace.Workspace.ListAllPanes | src/mx/workspace.py:128-134 | the list-panes loop and the messages it echoes, as their specifications say |
| MxWorkspace.Workspace.Ls | src/mx/workspace.py:118-134 | ls as its specification says; what it echoes is appended to the echoed messages |
| MuxWorkspace.VenvPathAgrees | src/mux/workspace.py:25-29 | without `~`, the earlier revision activates the same venv as the later one |
| MuxWorkspace.VenvPathPlacement | src/mux/workspace.py:28-29 | a relative venv goes under dir; an absolute one, or any venv without dir, is kept as written |
| MuxWorkspace.Workspace.constructor | src/mux/workspace.py:13-17 | a workspace over a gateway has no configuration, venv line, session or windows yet |
| MuxWorkspace.Workspace.SetConfig | src/mux/workspace.py:19-31 | a venv becomes its activation line, joined to dir when relative; no venv leaves the line as it was |
| MuxWorkspace.Workspace.TypeCommands | src/mux/workspace.py:112-113 | the pane's commands are typed as the command-loop specification says |
| MuxWorkspace.Workspace.AddPane | src/mux/workspace.py:103-113 | one pane as the pane specification says |
| MuxWorkspace.Workspace.CreateFirst | src/mux/workspace.py:92-99 | a session named by the configuration for the first window, a window in the reported session afterwards |
| MuxWorkspace.Workspace.AddPanes | src/mux/workspace.py:103-113 | the pane loop as the pane-loop specification says |
| MuxWorkspace.Workspace.FillWindow | src/mux/workspace.py:101-116 | the panes, then the layout |
| MuxWorkspace.Workspace.CreateWindow | src/mux/workspace.py:82-116 | create_window as its specification says |
| MuxWorkspace.Workspace.EnterWindow | src/mux/workspace.py:44-70 | one window entry, normalised, then created |
| MuxWorkspace.Workspace.MakeWindows | src/mux/workspace.py:44-70 | the window loop as its specification says |
| MuxWorkspace.Workspace.Start | src/mux/workspace.py:33-72 | a dir that is set but is not a directory fails before any tmux call; otherwise every window is created in order, with no pre-flight and no attach |
| MuxWorkspace.Workspace.Stop | src/mux/workspace.py:74-80 | kills the named session, or else the one tmux reported (KeyError when there is none) |
| ScriptWorkspace.ScriptActivationLine | mux.py:102-104 | the line is ` source "` + venv as written + `/bin/activate"` |
| ScriptWorkspace.ScriptActivationLineAgrees | mux.py:102-104 | for a venv without a trailing `/` it is the later revisions' line |
| ScriptWorkspace.VenvLines | mux.py:102-104 | one activation line exactly when a venv is configured |
| ScriptWorkspace.Workspace.constructor | mux.py:88-104 | the venv lines follow the configuration; no session or windows yet |
| ScriptWorkspace.Workspace.NewSession | mux.py:163-187 | one `new-session` sent and its answer bucketed into session, window and pane |
| ScriptWorkspace.Workspace.NewWindow | mux.py:189-210 | one `new-window` sent and its answer bucketed into window and pane |
| ScriptWorkspace.Workspace.NewPane | mux.py:212-224 | one `split-window` sent and every key put in the pane |
| ScriptWorkspace.Workspace.SetLayout | mux.py:243-247 | one `select-layout` sent |
| ScriptWorkspace.Workspace.SendKeys | mux.py:249-255 | nothing sent for an empty command, else one `send-keys` |
| ScriptWorkspace.Workspace.TypeCommands | mux.py:157-158 | the pane's commands are typed as the command-loop specification says |
| ScriptWorkspace.Workspace.AddPane | mux.py:148-158 | one pane as the pane specification says |
| ScriptWorkspace.Workspace.CreateFirst | mux.py:137-144 | a session named by the configuration for the first window, a window afterwards |
| ScriptWorkspace.Workspace.AddPanes | mux.py:148-158 | the pane loop as the pane-loop specification says |
| ScriptWorkspace.Workspace.FillWindow | mux.py:146-161 | the panes, then the layout |
| ScriptWorkspace.Workspace.CreateWindow | mux.py:136-161 | _create_window as its specification says |
| ScriptWorkspace.Workspace.EnterWindow | mux.py:110-132 | one window entry, normalised, then created |
| ScriptWorkspace.Workspace.MakeWindows | mux.py:110-134 | the window loop as its specification says |
| ScriptWorkspace.Workspace.CreateWindows | mux.py:106-134 | a dir that is set but is not a directory raises OSError and changes nothing; otherwise changes into dir when set, then creates every window in order |
| GitRepos.GitHubUrlHost | src/mx/git.py:44-45 | every expanded url names github.com |
| GitRepos.ParseRepoUrl | src/mx/git.py:39-46 | the url always names github.com, and a name already naming it is kept verbatim |
| GitRepos.ParseRepoUrlIdempotent | src/mx/git.py:39-46 | completing a url twice changes nothing |
| GitRepos.NormalizeRepo | src/mx/git.py:25-37 | a repository always has a url; a string entry has exactly name, url and dir |
| GitRepos.NamedRepoNeedsSlash | src/mx/git.py:30 | a string entry is accepted exactly when it holds a `/`, else IndexError |
| GitRepos.NamedRepoShape | src/mux/git.py:24-30 | `owner/repo` is checked out in `repo`; the earlier revisions always clone `https://github.com/owner/repo.git` |
| GitRepos.FieldsRepoKept | src/mx/git.py:32-35 | a mapping keeps every key, its own url when it has one, and gets one from its name otherwise |
| GitRepos.FieldsRepoRefused | src/mx/git.py:32-35 | a mapping with neither url nor name fails; the earlier revisions refuse every mapping |
| GitRepos.CollectsPrepend | src/mx/git.py:25-37 | an entry that normalises, put before entries the loop collected, is appended first and the rest follow unchanged |
| GitRepos.CollectSpec | src/mx/git.py:25-37 | the loop appends the normalised entries in order and stops at the first failure with its error |
| GitFetch.Keep | src/mx/git.py:111-123 | a bucket keeps at most the lines there are |
| GitFetch.Remotes | src/mx/git.py:112 | the remotes of the lines, in order |
| GitFetch.ClassifyBucket | src/mx/git.py:112-123 | one line adds its remote to exactly the buckets that collect it |
| GitFetch.ClassifyAllBucket | src/mx/git.py:111-123 | each bucket keeps what it held, then the remotes of its lines in output order |
| GitFetch.ParsedBuckets | src/mx/git.py:111-123 | from empty buckets, each bucket holds exactly its lines' remotes, in output order |
| GitFetch.ContainedChar | src/mx/git.py:113 | a character of a contained text occurs in the containing text |
| GitFetch.DeletedMentionsNeither | src/mx/git.py:113-120 | `deleted` mentions neither `tag` nor `new` |
| GitFetch.PartitionCount | src/mx/git.py:113-123 | every line lands in exactly one of the tag and branch lists |
| GitFetch.DeletedIsUpdatedBranch | src/mx/git.py:118-123 | a deleted reference is an updated branch |
| GitFetch.DeletedAmongUpdatedBranches | src/mx/git.py:118-123 | the deleted list is the deleted part of the updated branches |
| GitFetch.HeadStarts | src/mx/git.py:127-140 | a message starts with its title |
| GitFetch.ReportShape | src/mx/git.py:125-140 | one message per non-empty action and one for deletions, in the order created, updated, deleted |
| GitFetch.ListingMentions | src/mx/git.py:128-136 | a listing names each of its items |
| GitFetch.ReportSilent | src/mx/git.py:125-140 | the summary is silent exactly when git reported no reference |
| GitFetch.KeepHas | src/mx/git.py:111-123 | a collected line's remote is in its bucket |
| GitFetch.ActionLineMentions | src/mx/git.py:127-136 | the action message names every tag and branch of its action |
| GitFetch.ReportHasAction | src/mx/git.py:125-136 | a non-empty action has its message in the summary |
| GitFetch.ParsedHas | src/mx/git.py:111-123 | a line's remote is in the tag or branch list of its action |
| GitFetch.SummaryMentions | src/mx/git.py:125-136 | a remote in a list is named in some message |
| GitFetch.ReportMentions | src/mx/git.py:111-140 | nothing git reported is lost: every remote is named in some message |
| GitStatus.LeadingDigits | src/mx/git.py:168 | the longest run of digits the text starts with |
| GitStatus.LeadingDigitsOf | src/mx/git.py:168 | digits followed by a non-digit read up to the non-digit |
| GitStatus.LStripSpaces | src/mx/git.py:168 | `^\s*` skips the leading blanks and nothing else |
| GitStatus.ModifiedCellAsWritten | src/mx/git.py:167-169 | the cell the table shows: empty exactly when no digit follows the leading whitespace, else ≠ and that one digit |
| GitStatus.ModifiedCellCounts | src/mx/git.py:167-169 | `N files changed` gives the corrected cell ≠N |
| GitStatus.ModifiedCellAsWrittenFirstDigit | src/mx/git.py:168-169 | the written pattern keeps only the first digit |
| GitStatus.ModifiedCellAsWrittenTwelve | src/mx/git.py:168-169 | twelve changed files show ≠1 where ≠12 was meant |
| GitStatus.TwelveParts | src/mx/git.py:168-169 | ` 12 files changed` is one blank, the number 12, then text starting with a blank |
| GitStatus.ModifiedCellAgreement | src/mx/git.py:168-169 | the written and corrected cells agree exactly below ten files |
| GitStatus.ModifiedCellShown | src/mx/git.py:168-169 | both readings show a cell for exactly the same outputs |
| GitStatus.UntrackedCellCounts | src/mx/git.py:174-175 | the number shown is the number of line breaks, and nothing when zero |
| GitStatus.UntrackedCellFiles | src/mx/git.py:171-175 | N listed files show ?N; none shows nothing |
| GitStatus.ReadMarkedCount | src/mx/git.py:205-208 | a marked count reads back, leaving the text after it |
| GitStatus.ReadPositionCell | src/mx/git.py:203-208 | the position cell loses nothing: both counts read back from it |
| GitStatus.PositionCellLevel | src/mx/git.py:205-208 | the position cell is empty exactly when level with the upstream |
| GitStatus.Upstream | mux.py:374-383 | only mux.py can fail on the upstream, when the query fails and no earlier repository set one |
| GitStatus.UpstreamFallback | src/mux/git.py:152-162 | without an upstream configured both packages compare with `origin/<branch>` |
| GitStatus.UpstreamHeldOver | mux.py:374-383 | mux.py compares a repository without an upstream with the previous repository's |
| GitStatus.DisplayName | src/mx/git.py:212-214 | the name shown is the repository's name, or its dir; failing exactly when there is no name or the later revision finds no second segment |
| GitStatus.DisplayNameOfNamed | src/mx/git.py:212-214 | an `owner/repo` entry is shown under that string |
| GitStatus.DisplayNameOfCheckout | src/mx/git.py:212-214 | a mapping checked out elsewhere is shown under its directory |
| GitStatus.NameColumnWidth | src/mx/git.py:216 | in the markup handed to the logger, the name column (`   [white]` then `{:>30}`) is 40 places wide and ends with the name |
| GitStatus.CountColumnsWidth | src/mx/git.py:216-218 | counts that fit their columns make the middle 57 places wide |
| GitStatus.Columns | src/mx/git.py:216-221 | columns of widths 40 and 57 place the name and the last commit |
| GitStatus.RowAligned | src/mx/git.py:216-221 | rows of fitting cells are aligned in the markup handed to the logger: the name right-aligned in the first 40 places, the last commit from place 97 |
| GitStatus.Read | src/mx/git.py:155-180 | a successful read happened in the repository's dir under the root |
| GitStatus.DetachedRow | src/mx/git.py:182-183 | a detached checkout shows `detach` and leaves the held upstream alone |
| GitStatus.TrackingIndependent | src/mx/git.py:185-210 | in the packages the position does not depend on any earlier repository |
| GitStatus.StatusRowIndependent | src/mx/git.py:155-221 | in the packages a row does not depend on any earlier repository |
| GitStatus.ListingFailure | src/mx/git.py:198-210 | the later revision shows `n/a` when rev-list fails; the earlier ones fail with it |
| GitStatus.StatusStepApply | src/mx/git.py:155-221 | a step of the status loop is the row of that repository |
| GitStatus.StatusLoopStep | src/mx/git.py:155-221 | a repository whose row is made: the loop goes on from it |
| GitStatus.StatusLoopStop | src/mx/git.py:155-221 | a failing repository ends the loop with its error |
| GitStatus.StatusStepMemoryless | src/mux/git.py:120-180 | in the packages the loop step ignores what came before |
| GitStatus.StatusLoopRows | src/mx/git.py:155-221 | the loop appends one row per repository, each that repository's own row, and stops at the first failure with its error |
| Git.Rows | src/mx/git.py:216-221 | one row per repository shown |
| Git.RowsAt | src/mx/git.py:216-221 | each row is the row of the cells at its place |
| Git.StatusTable | src/mx/git.py:142-221 | in the packages, row i of the table is repository i's own row |
| Git.Git.constructor | src/mx/git.py:16-22 | the root is dir or the cwd, `~` expanded in the later revision only; no repositories yet (`CollectRepos` completes `__init__`) |
| Git.Git.CollectRepos | src/mx/git.py:24-37 | the collecting loop of `__init__`, run after the constructor, as its specification says |
| Git.Git.ParseFetch | src/mx/git.py:86-140 | echoes exactly the summary of the classified lines, in the revision's branch colour |
| Git.Git.RepoStatus | src/mx/git.py:155-214 | one repository's cells, the modified cell as the written pattern reads it, and the upstream held afterwards |
| Git.Git.TableRows | src/mx/git.py:155-221 | the status loop as its specification says (modified cells as written) |
| Git.Git.Status | src/mx/git.py:142-221 | echoes the session line, then one row per repository until one fails |

## Left out

- Process execution, the filesystem and the terminal are not modelled. The tmux binary, git, the pre-flight shell, `os.path.isdir`, `os.walk`, `isatty`, `HOME` and `TMUX` are parameters (`Backend`, `Host`, `tty`). `os.chdir` is modelled as a current-directory field (workspaces) or as `PathJoin` plus `isDir` (git).
- `json.loads` is the opaque `decode` parameter, and YAML loading is not modelled: a configuration arrives parsed. Non-string scalars in a configuration are not modelled.
- The regular expression of `_parse_git_fetch` is not modelled: fetch lines arrive split into descriptor and remote. The other patterns (`re.sub` of the logger, `^\s*(\d)`, `\<`/`\>` counting, `.git$`) are modelled as string functions.
- The `fetch` and `clone` loops of every revision only run git and hand its output to `_parse_git_fetch`; they are not modelled, and `Git.Git.ParseFetch` is the part they call.
- The coloured `git log` line is an opaque string in the row.
- Class-level mutable defaults are shared between instances in the source (`_windows`, `_session`, `_venv`, `_repos`). The model gives each instance its own fresh state.
- `sys.exit(1)` after `Error creating session buddy.` is modelled as an error outcome.
- The `print('Error')` of mux.py's `command` is not modelled; the silent `None` it returns is.
- mux.py's module-level program is not modelled: argument parsing, the cache pool directory and the action dispatch. The globals `session_name` and `tmux` that `status` reads become parameters of `Git.Git.Status` (`sessionName`, `on`).
- mux.py's `attach`, `get_windows`, `get_panes` and `get_session_name` are not modelled. `attach` refers to a missing `self.tmux`.
- A missing `name` in a configuration (`None` as the session name) is not distinguished from an empty one.
- src/mux/tmux.py is not part of this model. src/mux/workspace.py is modelled driving the gateway of src/mx/tmux.py.
- src/mx/cli.py, setup.py, build.py and src/mx/__init__.py are not part of this model (command-line plumbing and packaging).
- GitRepos.NormalizeRepo: a configured repository that is neither a string nor a mapping is not modelled.
- GitStatus.Upstream: mux.py's unbound `upstream` (no upstream configured for the first repository) is modelled as an error outcome, and one held from an earlier repository is used as the source does.
- MxWorkspace.Initialize: each directory is visited by joining it to the root, where the source changes into it; a relative root after an earlier change of directory is not modelled.
- GitStatus.Read: the repository's directory is joined to the root, where the source changes back into the root before each repository; with a relative root the two differ after the first repository, and that is not modelled.
- Common.IsDigit: `\d` is read as the ASCII digits; Python also matches other Unicode decimal digits, which git does not print.
- MxWorkspace.Workspace.Ls: `repr` of a listing is the parameter `show`; the colouring of each message by the logger is not followed, and a message the markup rejects is not an error here.
- MxWorkspace.Initialize: the echoed messages are returned uncoloured; the logger's markup errors are not followed.
- Schema.ExpandUser: HOME is taken as set; the password-database fallback when HOME is unset is not modelled.
- Git.Git.Status: rows are recorded uncoloured; on a terminal the logger raises KeyError for a bracketed lower-case word that is not a colour (a last commit by `dependabot[bot]`, say), which ends status at that repository in the source and is not followed here.
- Configuration field shapes other than `windows` are taken as documented: `commands` is a list of strings (the source would iterate a string character by character, or a mapping's keys), and `dir`, `venv` and `name` are strings.
- Schema.Get: a mapping's entries are taken to have distinct keys, as a loaded YAML mapping has; on repeated keys `Get` would return the first value where PyYAML keeps the last, and `Keys` would list the key twice.

## Findings

| source | as written | input that shows it | evidently intended | confidence | as-written member | corrected member |
|---|---|---|---|---|---|---|
| src/mx/tmux.py:62 | `os.environ.get('TMUX') != ''` is true when TMUX is unset (the gateway is modelled as written) | TMUX unset (outside tmux): `attach` runs `switch-client` instead of `attach-session` | inside tmux exactly when TMUX is set and non-empty | not executed | Tmux.WithinSessionAsWrittenOutsideTmux | Tmux.WithinSession |
| src/mx/workspace.py:187 | `re.sub('.git$', '', name)` has an unescaped dot, so any character before `git` is removed (initialize is modelled as written) | a remote named `me/legit` becomes `me/l` | remove a literal `.git` suffix only | not executed | MxWorkspace.StripGitAsWrittenLegit | MxWorkspace.StripGitSuffix |
| src/mx/git.py:168 | `^\s*(\d)` captures one digit of the changed-files count (also src/mux/git.py:133 and mux.py:355; the table is modelled as written) | ` 12 files changed` shows `≠1` | the whole count, `≠12` | not executed | GitStatus.ModifiedCellAsWrittenTwelve | GitStatus.ModifiedCellCounts |
