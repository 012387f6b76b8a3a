/*
 * The terminal logger (src/mx/logger.py, and the Logger class of mux.py):
 * every `[name]` or `[boldname]` tag in a message is replaced by an ANSI
 * colour sequence on a terminal, or by nothing elsewhere, and the reset
 * sequence is appended to each printed message.
 *
 * The tag scanner below is the one pattern r'\[(bold)?([a-z]+)\]' written
 * out: re.sub scans left to right, replaces each non-overlapping match and
 * copies every other character unchanged.
 */
module Logger {
  import opened Common

  datatype Color = Reset | Black | White | Cyan | Magenta | Blue | Yellow | Green | Red

  function ColorName(c: Color): string {
    match c
    case Reset => "reset"
    case Black => "black"
    case White => "white"
    case Cyan => "cyan"
    case Magenta => "magenta"
    case Blue => "blue"
    case Yellow => "yellow"
    case Green => "green"
    case Red => "red"
  }

  /** The SGR code of each colour (the `_colors` table). */
  function ColorCode(c: Color): nat {
    match c
    case Reset => 0
    case Black => 30
    case White => 37
    case Cyan => 36
    case Magenta => 35
    case Blue => 34
    case Yellow => 33
    case Green => 32
    case Red => 31
  }

  /** `_colors[name]`: None is the KeyError of an unknown name. */
  function LookupColor(name: string): (r: Option<Color>)
    ensures r.Some? ==> ColorName(r.value) == name
  {
    if name == "reset" then Some(Reset)
    else if name == "black" then Some(Black)
    else if name == "white" then Some(White)
    else if name == "cyan" then Some(Cyan)
    else if name == "magenta" then Some(Magenta)
    else if name == "blue" then Some(Blue)
    else if name == "yellow" then Some(Yellow)
    else if name == "green" then Some(Green)
    else if name == "red" then Some(Red)
    else None
  }

  /** Every colour is found under its own name, so the table has no unreachable entry. */
  lemma LookupColorName(c: Color)
    ensures LookupColor(ColorName(c)) == Some(c)
  {
  }

  /** The nine codes are pairwise distinct. */
  lemma ColorCodeInjective(c: Color, d: Color)
    requires ColorCode(c) == ColorCode(d)
    ensures c == d
  {
  }

  predicate IsLower(ch: char) { 'a' <= ch <= 'z' }

  /** Length of the longest prefix of lower-case letters ([a-z]+ is greedy). */
  function LowerRun(s: string): (k: nat)
    ensures k <= |s|
    ensures forall i :: 0 <= i < k ==> IsLower(s[i])
    ensures k < |s| ==> !IsLower(s[k])
    decreases |s|
  {
    if s != [] && IsLower(s[0]) then 1 + LowerRun(s[1..]) else 0
  }

  /** A tag matched at the start of the text: its length, the `bold` flag and the colour name. */
  datatype TagMatch = TagMatch(length: nat, bold: bool, name: string)

  /** The regex tried at the first character of s. */
  function MatchTag(s: string): (r: Option<TagMatch>)
    ensures r.Some? ==> 3 <= r.value.length <= |s| && s[0] == '[' && s[r.value.length - 1] == ']'
    ensures r.Some? ==> r.value.name != [] && forall i :: 0 <= i < |r.value.name| ==> IsLower(r.value.name[i])
  {
    if s == [] || s[0] != '[' then None
    else
      var k := LowerRun(s[1..]);
      if k == 0 || 1 + k >= |s| || s[1 + k] != ']' then None
      else
        var content := s[1..1 + k];
        assert forall i :: 0 <= i < k ==> content[i] == s[1..][i];
        // (bold)? is greedy but gives the letters back when nothing would be left for ([a-z]+)
        var bold := |content| > 4 && content[..4] == "bold";
        assert bold ==> forall i :: 0 <= i < k - 4 ==> content[4..][i] == content[i + 4];
        Some(TagMatch(k + 2, bold, if bold then content[4..] else content))
  }

  /** '\x1b[{b};{code}m' */
  function Ansi(bold: bool, code: nat): string {
    "\U{1B}[" + (if bold then "1" else "0") + ";" + NatToString(code) + "m"
  }

  /** `_colorize(match)`: nothing off a terminal; a KeyError for an unknown name on one. */
  function Replacement(m: TagMatch, tty: bool): (r: Result<string>)
    ensures !tty ==> r == Ok("")
    ensures tty ==> (r.Ok? <==> LookupColor(m.name).Some?)
    ensures r.Ok? && tty ==> r.value == Ansi(m.bold, ColorCode(LookupColor(m.name).value))
  {
    if !tty then Ok("")
    else match LookupColor(m.name)
      case None => Err(KeyError(m.name))
      case Some(c) => Ok(Ansi(m.bold, ColorCode(c)))
  }

  /** The first failure of two results evaluated left to right, or their concatenation. */
  function Concat(head: Result<string>, tail: Result<string>): (r: Result<string>)
    ensures r.Ok? <==> head.Ok? && tail.Ok?
    ensures r.Ok? ==> r.value == head.value + tail.value
  {
    if head.Err? then head else if tail.Err? then tail else Ok(head.value + tail.value)
  }

  /** re.sub(r'\[(bold)?([a-z]+)\]', _colorize, s) */
  function Colorize(s: string, tty: bool): Result<string>
    decreases |s|
  {
    if s == [] then Ok("")
    else match MatchTag(s)
      case Some(m) => Concat(Replacement(m, tty), Colorize(s[m.length..], tty))
      case None => Concat(Ok([s[0]]), Colorize(s[1..], tty))
  }

  /** The reset sequence printed after every message. */
  const ResetCode: string := "\U{1B}[0m"

  /** The line `echo` prints for one message (src/mx/logger.py). */
  function Echo(msg: string, tty: bool): (r: Result<string>)
    ensures r.Ok? ==> EndsWith(r.value, ResetCode)
    ensures r.Ok? <==> Colorize(msg, tty).Ok?
  {
    var line :- Colorize(msg, tty);
    Ok(line + ResetCode)
  }

  /** The line mux.py's `echo` prints: print(msg, reset) puts a space between the two. */
  function EchoScript(msg: string, tty: bool): (r: Result<string>)
    ensures r.Ok? ==> EndsWith(r.value, " " + ResetCode)
    ensures r.Ok? <==> Colorize(msg, tty).Ok?
  {
    var line :- Colorize(msg, tty);
    Ok(line + " " + ResetCode)
  }

  /** What `echo(*args)` prints: one line per message, up to the first failing one. */
  datatype Printed = Printed(lines: seq<string>, failure: Option<Error>)

  /** How one message is turned into its printed line. */
  type Render = string -> Result<string>

  /** `for msg in args: print(render(msg))`: the lines printed before the first failure, and that failure. */
  function PrintAll(render: Render, msgs: seq<string>): (p: Printed)
    ensures |p.lines| <= |msgs|
    ensures p.failure.None? ==> |p.lines| == |msgs|
    decreases |msgs|
  {
    if msgs == [] then Printed([], None)
    else match render(msgs[0])
      case Err(e) => Printed([], Some(e))
      case Ok(line) =>
        var rest := PrintAll(render, msgs[1..]);
        Printed([line] + rest.lines, rest.failure)
  }

  /** Messages are printed in order, each as rendered, and printing stops at the first failure. */
  lemma {:induction false} PrintAllInOrder(render: Render, msgs: seq<string>)
    ensures var p := PrintAll(render, msgs);
      && (forall i :: 0 <= i < |p.lines| ==> render(msgs[i]) == Ok(p.lines[i]))
      && (p.failure.Some? ==> |p.lines| < |msgs| && render(msgs[|p.lines|]) == Err(p.failure.value))
    decreases |msgs|
  {
    if msgs != [] && render(msgs[0]).Ok? {
      PrintAllInOrder(render, msgs[1..]);
      var rest := PrintAll(render, msgs[1..]);
      var p := PrintAll(render, msgs);
      assert p.lines == [render(msgs[0]).value] + rest.lines;
      forall i | 0 <= i < |p.lines| ensures render(msgs[i]) == Ok(p.lines[i]) {
        if i > 0 {
          assert msgs[i] == msgs[1..][i - 1];
        }
      }
      if p.failure.Some? {
        assert msgs[|p.lines|] == msgs[1..][|rest.lines|];
      }
    }
  }

  /** The renderer of src/mx/logger.py. */
  function EchoRender(tty: bool): Render {
    msg => Echo(msg, tty)
  }

  /** The renderer of mux.py. */
  function EchoScriptRender(tty: bool): Render {
    msg => EchoScript(msg, tty)
  }

  /** `echo(*args)` of src/mx/logger.py: each message colorized, in order, until one fails. */
  lemma EchoAllInOrder(msgs: seq<string>, tty: bool)
    ensures var p := PrintAll(EchoRender(tty), msgs);
      && (forall i :: 0 <= i < |p.lines| ==> Echo(msgs[i], tty) == Ok(p.lines[i]))
      && (p.failure.Some? ==> |p.lines| < |msgs| && Echo(msgs[|p.lines|], tty) == Err(p.failure.value))
  {
    PrintAllInOrder(EchoRender(tty), msgs);
  }

  /** Off a terminal every message is printed. */
  lemma {:induction false} EchoAllOffTerminal(msgs: seq<string>)
    ensures PrintAll(EchoRender(false), msgs).failure.None?
    ensures PrintAll(EchoScriptRender(false), msgs).failure.None?
    decreases |msgs|
  {
    if msgs != [] {
      ColorizeOffTerminalTotal(msgs[0]);
      EchoAllOffTerminal(msgs[1..]);
    }
  }

  // ---------------------------------------------------------------------
  // Properties

  /** Text without a `[` is copied unchanged, whatever follows it. */
  lemma {:induction false} ColorizePlainPrefix(t: string, rest: string, tty: bool)
    requires '[' !in t
    ensures Colorize(t + rest, tty) == Concat(Ok(t), Colorize(rest, tty))
    decreases |t|
  {
    if t != [] {
      var s := t + rest;
      assert s[0] == t[0] && s[1..] == t[1..] + rest;
      assert MatchTag(s) == None;
      ColorizePlainPrefix(t[1..], rest, tty);
      var r := Colorize(rest, tty);
      assert r.Ok? ==> [t[0]] + (t[1..] + r.value) == t + r.value;
    } else {
      assert t + rest == rest;
      var r := Colorize(rest, tty);
      assert r.Ok? ==> "" + r.value == r.value;
    }
  }

  /** A message with no tag-opening bracket is printed exactly as written. */
  lemma PlainMessageUnchanged(s: string, tty: bool)
    requires '[' !in s
    ensures Colorize(s, tty) == Ok(s)
  {
    ColorizePlainPrefix(s, "", tty);
    assert s + "" == s;
  }

  /** Off a terminal nothing can fail: an unknown name is only looked up on a terminal. */
  lemma {:induction false} ColorizeOffTerminalTotal(s: string)
    ensures Colorize(s, false).Ok?
    ensures |Colorize(s, false).value| <= |s|
    decreases |s|
  {
    if s != [] {
      match MatchTag(s)
      case Some(m) => ColorizeOffTerminalTotal(s[m.length..]);
      case None => ColorizeOffTerminalTotal(s[1..]);
    }
  }

  /** Markup written as pieces: plain text (no `[`) and colour tags. */
  datatype Piece = Plain(text: string) | Tag(bold: bool, color: Color)

  predicate WellFormed(ps: seq<Piece>) {
    forall i :: 0 <= i < |ps| && ps[i].Plain? ==> '[' !in ps[i].text
  }

  function TagText(bold: bool, c: Color): string {
    "[" + (if bold then "bold" else "") + ColorName(c) + "]"
  }

  /** The markup string a caller writes for a list of pieces. */
  function Markup(ps: seq<Piece>): string
    decreases |ps|
  {
    if ps == [] then ""
    else (match ps[0] case Plain(t) => t case Tag(b, c) => TagText(b, c)) + Markup(ps[1..])
  }

  /** What each piece should become on screen. */
  function Rendered(ps: seq<Piece>, tty: bool): string
    decreases |ps|
  {
    if ps == [] then ""
    else
      (match ps[0]
       case Plain(t) => t
       case Tag(b, c) => if tty then Ansi(b, ColorCode(c)) else "") + Rendered(ps[1..], tty)
  }

  /** A run of lower-case letters stops at the first other character. */
  lemma {:induction false} LowerRunStops(a: string, b: string)
    requires forall i :: 0 <= i < |a| ==> IsLower(a[i])
    requires b != [] && !IsLower(b[0])
    ensures LowerRun(a + b) == |a|
    decreases |a|
  {
    if a == [] {
      assert a + b == b;
    } else {
      var t := a[1..];
      assert forall i :: 0 <= i < |t| ==> IsLower(t[i]) by {
        forall i | 0 <= i < |t| ensures IsLower(t[i]) {
          assert t[i] == a[i + 1];
        }
      }
      LowerRunStops(t, b);
      assert (a + b)[1..] == t + b;
      assert (a + b)[0] == a[0];
    }
  }

  /** Colour names are lower-case words that do not start with `bold`. */
  lemma ColorNameShape(c: Color)
    ensures forall i :: 0 <= i < |ColorName(c)| ==> IsLower(ColorName(c)[i])
    ensures |ColorName(c)| >= 3 && ColorName(c)[1] != 'o'
  {
    match c
    case Reset => case Black => case White => case Cyan => case Magenta =>
    case Blue => case Yellow => case Green => case Red =>
  }

  /** A bracketed run of lower-case letters is a tag; a leading `bold` is the flag when letters follow it. */
  lemma MatchBracketed(content: string, rest: string)
    requires content != [] && forall i :: 0 <= i < |content| ==> IsLower(content[i])
    ensures var bold := |content| > 4 && content[..4] == "bold";
      MatchTag("[" + content + "]" + rest) == Some(TagMatch(|content| + 2, bold, if bold then content[4..] else content))
  {
    var s := "[" + content + "]" + rest;
    assert s[1..] == content + ("]" + rest);
    LowerRunStops(content, "]" + rest);
    assert s[1..1 + |content|] == content;
    assert s[1 + |content|] == ']';
  }

  lemma MatchWrittenName(bold: bool, name: string, rest: string)
    requires name != [] && forall i :: 0 <= i < |name| ==> IsLower(name[i])
    requires |name| >= 2 && name[1] != 'o'
    ensures MatchTag("[" + (if bold then "bold" else "") + name + "]" + rest)
         == Some(TagMatch(|name| + (if bold then 6 else 2), bold, name))
  {
    var content := (if bold then "bold" else "") + name;
    assert "[" + (if bold then "bold" else "") + name + "]" + rest == "[" + content + "]" + rest;
    if bold {
      assert forall i :: 0 <= i < |content| ==> IsLower(content[i]) by {
        assert forall i :: 4 <= i < |content| ==> content[i] == name[i - 4];
      }
      MatchBracketed(content, rest);
      assert content[..4] == "bold" && content[4..] == name;
    } else {
      assert content == name;
      MatchBracketed(content, rest);
      assert content[1] != "bold"[1];
    }
  }

  /** A written tag is recognised as exactly that tag, with its colour and boldness. */
  lemma MatchWrittenTag(bold: bool, c: Color, rest: string)
    ensures MatchTag(TagText(bold, c) + rest)
         == Some(TagMatch(|TagText(bold, c)|, bold, ColorName(c)))
  {
    ColorNameShape(c);
    MatchWrittenName(bold, ColorName(c), rest);
    assert TagText(bold, c) + rest == "[" + (if bold then "bold" else "") + ColorName(c) + "]" + rest;
  }

  /**
   * Writing markup and colorizing it gives each tag's escape sequence (or
   * nothing off a terminal) in place and every plain piece unchanged.
   */
  lemma {:induction false} ColorizeMarkup(ps: seq<Piece>, tty: bool)
    requires WellFormed(ps)
    ensures Colorize(Markup(ps), tty) == Ok(Rendered(ps, tty))
    decreases |ps|
  {
    if ps != [] {
      assert WellFormed(ps[1..]) by {
        forall i | 0 <= i < |ps[1..]| && ps[1..][i].Plain? ensures '[' !in ps[1..][i].text {
          assert ps[1..][i] == ps[i + 1];
        }
      }
      ColorizeMarkup(ps[1..], tty);
      match ps[0]
      case Plain(t) =>
        ColorizePlainPrefix(t, Markup(ps[1..]), tty);
      case Tag(b, c) =>
        var s := Markup(ps);
        var rest := Markup(ps[1..]);
        MatchWrittenTag(b, c, rest);
        LookupColorName(c);
        assert s[|TagText(b, c)|..] == rest;
    }
  }

  /** The colour name a bracketed run of letters asks for: a leading `bold` is dropped when letters follow it. */
  function TagName(content: string): string {
    if |content| > 4 && content[..4] == "bold" then content[4..] else content
  }

  /** An unknown colour name fails on a terminal and vanishes off one. */
  lemma UnknownColor(content: string, rest: string)
    requires content != [] && forall i :: 0 <= i < |content| ==> IsLower(content[i])
    requires LookupColor(TagName(content)).None?
    ensures Colorize("[" + content + "]" + rest, true) == Err(KeyError(TagName(content)))
    ensures Colorize("[" + content + "]" + rest, false) == Colorize(rest, false)
  {
    var s := "[" + content + "]" + rest;
    MatchBracketed(content, rest);
    assert s[|content| + 2..] == rest;
    var r := Colorize(rest, false);
    assert r.Ok? ==> "" + r.value == r.value;
  }
}
