/** The Windows command line: `_windows_command` parses what `subprocess.list2cmdline` prints. */
module WindowsArgv {
  import opened Options

  predicate Blank(c: char) { c == ' ' || c == '\t' }

  function Times(c: char, n: nat): (r: string)
    ensures |r| == n && forall i :: 0 <= i < n ==> r[i] == c
  {
    if n == 0 then "" else [c] + Times(c, n - 1)
  }

  // --- the parser ----------------------------------------------------------------

  /** How many backslashes `s` begins with. */
  function Slashes(s: string): (n: nat)
    ensures n <= |s|
  {
    if s == "" || s[0] != '\\' then 0 else 1 + Slashes(s[1..])
  }

  /** One argument read so far, what is left of the command, and whether a quote is open. */
  datatype Read = Read(arg: string, rest: string, quoted: bool)

  predicate Stops(r: Read) {
    r.rest == "" || (Blank(r.rest[0]) && !r.quoted)
  }

  /** One turn of the loop: a run of backslashes, and the character after it. */
  function Advance(r: Read): (n: Read)
    requires !Stops(r)
    ensures |n.rest| < |r.rest|
  {
    var slashes := Slashes(r.rest);
    var t := r.rest[slashes..];
    if t != "" && t[0] == '"' then
      var half := r.arg + Times('\\', slashes / 2);
      if slashes % 2 == 1 then Read(half + "\"", t[1..], r.quoted)
      else if r.quoted && |t| > 1 && t[1] == '"' then Read(half + "\"", t[2..], true)
      else Read(half, t[1..], !r.quoted)
    else
      var all := r.arg + Times('\\', slashes);
      if t != "" && (r.quoted || !Blank(t[0])) then Read(all + [t[0]], t[1..], r.quoted)
      else Read(all, t, r.quoted)
  }

  /** Read on until an unquoted blank or the end of the command. */
  function ReadArg(r: Read): (n: Read)
    ensures Stops(n) && |n.rest| <= |r.rest|
    ensures !Stops(r) ==> |n.rest| < |r.rest|
    decreases |r.rest|
  {
    if Stops(r) then r else ReadArg(Advance(r))
  }

  function SkipBlanks(s: string): (r: string)
    ensures |r| <= |s| && (r != "" ==> !Blank(r[0]))
  {
    if s != "" && Blank(s[0]) then SkipBlanks(s[1..]) else s
  }

  /** The arguments of a command line; None where a double quote is never closed. */
  function Parse(s: string): (r: Option<seq<string>>)
    decreases |s|
  {
    var t := SkipBlanks(s);
    if t == "" then Some([])
    else
      var read := ReadArg(Read("", t, false));
      if read.quoted then None
      else match Parse(read.rest)
        case None => None
        case Some(more) => Some([read.arg] + more)
  }

  lemma Slices(s: string, i: nat, k: nat)
    requires i + k <= |s|
    ensures s[i..][k..] == s[i + k..]
  {
  }

  lemma TurnAtQuote(r: Read, slashes: nat, t: string)
    requires !Stops(r) && slashes == Slashes(r.rest) && t == r.rest[slashes..] && t != "" && t[0] == '"'
    ensures var half := r.arg + Times('\\', slashes / 2);
      Advance(r) == if slashes % 2 == 1 then Read(half + "\"", t[1..], r.quoted)
                    else if r.quoted && |t| > 1 && t[1] == '"' then Read(half + "\"", t[2..], true)
                    else Read(half, t[1..], !r.quoted)
  {
  }

  lemma TurnElsewhere(r: Read, slashes: nat, t: string)
    requires !Stops(r) && slashes == Slashes(r.rest) && t == r.rest[slashes..] && (t == "" || t[0] != '"')
    ensures var all := r.arg + Times('\\', slashes);
      Advance(r) == if t != "" && (r.quoted || !Blank(t[0])) then Read(all + [t[0]], t[1..], r.quoted)
                    else Read(all, t, r.quoted)
    ensures slashes == 0 ==> t != "" && (r.quoted || !Blank(t[0]))
  {
  }

  /** One turn of the loop over an argument. */
  method ReadTurn(command: string, from: nat, open: bool, done: string)
    returns (arg: string, index: nat, quoted: bool)
    requires from < |command| && !Stops(Read(done, command[from..], open))
    ensures from < index <= |command|
    ensures Read(arg, command[index..], quoted) == Advance(Read(done, command[from..], open))
  {
    hide Advance, Stops, Times, Slashes;
    var slashes := CountSlashes(command, from);
    index := from + slashes;
    quoted := open;
    Slices(command, from, slashes);
    ghost var t := command[index..];
    if index < |command| && command[index] == '"' {
      TurnAtQuote(Read(done, command[from..], open), slashes, t);
      assert t[0] == '"' && (index + 1 < |command| <==> |t| > 1);
      Slices(command, index, 1);
      arg := done + Times('\\', slashes / 2);
      if slashes % 2 == 1 {
        arg := arg + "\"";
      } else if quoted && index + 1 < |command| && command[index + 1] == '"' {
        Slices(command, index, 2);
        arg := arg + "\"";
        index := index + 1;
      } else {
        quoted := !quoted;
      }
      index := index + 1;
    } else {
      TurnElsewhere(Read(done, command[from..], open), slashes, t);
      arg := done + Times('\\', slashes);
      if index < |command| && (quoted || !Blank(command[index])) {
        Slices(command, index, 1);
        arg := arg + [command[index]];
        index := index + 1;
      }
    }
  }

  /** The loop over one argument, from its first character to the blank or the end behind it. */
  method ReadFrom(command: string, from: nat) returns (arg: string, index: nat, quoted: bool)
    requires from < |command| && !Blank(command[from])
    ensures from < index <= |command|
    ensures ReadArg(Read("", command[from..], false)) == Read(arg, command[index..], quoted)
  {
    arg, index, quoted := "", from, false;
    while index < |command|
      invariant from <= index <= |command|
      invariant index == from ==> !quoted
      invariant ReadArg(Read("", command[from..], false)) == ReadArg(Read(arg, command[index..], quoted))
      decreases |command| - index
    {
      if Blank(command[index]) && !quoted {
        break;
      }
      arg, index, quoted := ReadTurn(command, index, quoted, arg);
    }
  }

  method CountSlashes(command: string, from: nat) returns (slashes: nat)
    requires from <= |command|
    ensures slashes == Slashes(command[from..])
  {
    slashes := 0;
    while from + slashes < |command| && command[from + slashes] == '\\'
      invariant from + slashes <= |command|
      invariant Slashes(command[from..]) == slashes + Slashes(command[from + slashes..])
    {
      slashes := slashes + 1;
    }
  }

  method SkipFrom(command: string, from: nat) returns (index: nat)
    requires from <= |command|
    ensures from <= index <= |command|
    ensures SkipBlanks(command[from..]) == command[index..]
  {
    index := from;
    while index < |command| && Blank(command[index])
      invariant from <= index <= |command|
      invariant SkipBlanks(command[from..]) == SkipBlanks(command[index..])
    {
      index := index + 1;
    }
  }

  lemma ParseUnfolds(s: string, t: string, r: Read)
    requires SkipBlanks(s) == t && t != "" && r == ReadArg(Read("", t, false))
    ensures Parse(s) == if r.quoted then None else Before([r.arg], Parse(r.rest))
  {
  }

  lemma BeforeBefore(a: seq<string>, b: seq<string>, more: Option<seq<string>>)
    ensures Before(a, Before(b, more)) == Before(a + b, more)
  {
    if more.Some? {
      assert a + (b + more.value) == a + b + more.value;
    }
  }

  /** `_windows_command`, as it walks the string. */
  method WindowsCommand(command: string) returns (args: Option<seq<string>>)
    ensures args == Parse(command)
  {
    var done: seq<string> := [];
    var index := 0;
    assert command[index..] == command;
    assert Parse(command).Some? ==> done + Parse(command).value == Parse(command).value;
    while index < |command|
      invariant 0 <= index <= |command|
      invariant Parse(command) == Before(done, Parse(command[index..]))
    {
      ghost var s := command[index..];
      index := SkipFrom(command, index);
      if index == |command| {
        assert Parse(s) == Some([]) && done + [] == done;
        return Some(done);
      }
      ghost var t := command[index..];
      assert t[0] == command[index];
      var arg, next, quoted := ReadFrom(command, index);
      index := next;
      ParseUnfolds(s, t, Read(arg, command[index..], quoted));
      if quoted {
        return None;
      }
      BeforeBefore(done, [arg], Parse(command[index..]));
      done := done + [arg];
    }
    assert command[index..] == "" && done + [] == done;
    args := Some(done);
  }

  function Before(done: seq<string>, more: Option<seq<string>>): (r: Option<seq<string>>) {
    match more
    case None => None
    case Some(rest) => Some(done + rest)
  }

  // --- the printer, as Python's `subprocess` module has it -----------------------

  predicate NeedsQuotes(arg: string) {
    arg == "" || ' ' in arg || '\t' in arg
  }

  /** The rest `arg` of an argument, `held` backslashes of it being held back until it is known
      whether a quote follows them; `quoted` arguments double the ones at the end. */
  function Escape(arg: string, held: nat, quoted: bool): (r: string) {
    if arg == "" then Times('\\', if quoted then 2 * held else held)
    else if arg[0] == '\\' then Escape(arg[1..], held + 1, quoted)
    else if arg[0] == '"' then Times('\\', 2 * held) + "\\\"" + Escape(arg[1..], 0, quoted)
    else Times('\\', held) + [arg[0]] + Escape(arg[1..], 0, quoted)
  }

  function Quote(arg: string): (r: string) {
    if NeedsQuotes(arg) then "\"" + Escape(arg, 0, true) + "\"" else Escape(arg, 0, false)
  }

  /** `list2cmdline`. */
  function Print(args: seq<string>): (r: string) {
    if args == [] then ""
    else if |args| == 1 then Quote(args[0])
    else Quote(args[0]) + " " + Print(args[1..])
  }

  // --- the round trip ------------------------------------------------------------

  lemma {:induction false} SlashesOf(n: nat, t: string)
    requires t == "" || t[0] != '\\'
    ensures Slashes(Times('\\', n) + t) == n
    ensures (Times('\\', n) + t)[n..] == t
  {
    if n > 0 {
      assert (Times('\\', n) + t)[1..] == Times('\\', n - 1) + t;
      SlashesOf(n - 1, t);
    }
  }

  lemma {:induction false} TimesAdd(c: char, m: nat, n: nat)
    ensures Times(c, m) + Times(c, n) == Times(c, m + n)
  {
    if m > 0 { TimesAdd(c, m - 1, n); }
  }

  /** Where an argument ends: the end of the line, or the blank before the next argument. */
  predicate Ends(rest: string) {
    rest == "" || rest[0] == ' '
  }

  /** Backslashes and then a character that is neither a quote nor the end: all literal. */
  lemma ReadLiteral(n: nat, c: char, tail: string, quoted: bool, done: string)
    requires c != '\\' && c != '"' && (quoted || !Blank(c))
    ensures var r := Read(done, Times('\\', n) + [c] + tail, quoted);
      !Stops(r) && Advance(r) == Read(done + Times('\\', n) + [c], tail, quoted)
  {
    var t := [c] + tail;
    assert Times('\\', n) + [c] + tail == Times('\\', n) + t;
    SlashesOf(n, t);
  }

  /** An odd run of backslashes before a quote: half of them, and the quote itself. */
  lemma ReadEscapedQuote(n: nat, tail: string, quoted: bool, done: string)
    ensures var r := Read(done, Times('\\', 2 * n) + "\\\"" + tail, quoted);
      !Stops(r) && Advance(r) == Read(done + Times('\\', n) + "\"", tail, quoted)
  {
    var s, t := Times('\\', 2 * n) + "\\\"" + tail, "\"" + tail;
    TimesAdd('\\', 2 * n, 1);
    assert Times('\\', 1) == "\\";
    assert s == Times('\\', 2 * n + 1) + t;
    SlashesOf(2 * n + 1, t);
    assert s[0] == '\\' && (2 * n + 1) / 2 == n;
  }

  /** An even run before the closing quote: half of them, and the argument's end. */
  lemma ReadClosingQuote(n: nat, rest: string, done: string)
    requires Ends(rest)
    ensures var r := Read(done, Times('\\', 2 * n) + "\"" + rest, true);
      !Stops(r) && Advance(r) == Read(done + Times('\\', n), rest, false)
  {
    var t := "\"" + rest;
    assert Times('\\', 2 * n) + "\"" + rest == Times('\\', 2 * n) + t;
    SlashesOf(2 * n, t);
    assert (2 * n) / 2 == n;
  }

  /** The last backslashes of an unquoted argument are literal. */
  lemma ReadLastSlashes(n: nat, rest: string, done: string)
    requires Ends(rest)
    ensures ReadArg(Read(done, Times('\\', n) + rest, false)) == Read(done + Times('\\', n), rest, false)
  {
    var s := Times('\\', n) + rest;
    if n == 0 {
      assert s == rest && done + Times('\\', 0) == done;
    } else {
      SlashesOf(n, rest);
      assert s[0] == '\\';
      assert Advance(Read(done, s, false)) == Read(done + Times('\\', n), rest, false);
    }
  }

  function Closing(quoted: bool): (r: string) { if quoted then "\"" else "" }

  /** What an argument's escaped remainder reads back to. */
  ghost predicate ReadsBack(arg: string, held: nat, quoted: bool, rest: string, done: string) {
    ReadArg(Read(done, Escape(arg, held, quoted) + Closing(quoted) + rest, quoted))
    == Read(done + Times('\\', held) + arg, rest, false)
  }

  lemma ReadEnd(held: nat, quoted: bool, rest: string, done: string)
    requires Ends(rest)
    ensures ReadsBack("", held, quoted, rest, done)
  {
    assert done + Times('\\', held) + "" == done + Times('\\', held);
    if quoted {
      ReadClosingQuote(held, rest, done);
    } else {
      assert Escape("", held, false) + Closing(false) + rest == Times('\\', held) + rest;
      ReadLastSlashes(held, rest, done);
    }
  }

  lemma ReadSlash(arg: string, held: nat, quoted: bool, rest: string, done: string)
    requires arg != "" && arg[0] == '\\' && ReadsBack(arg[1..], held + 1, quoted, rest, done)
    ensures ReadsBack(arg, held, quoted, rest, done)
  {
    TimesAdd('\\', held, 1);
    assert Times('\\', 1) == "\\" && arg == "\\" + arg[1..];
    assert done + Times('\\', held + 1) + arg[1..] == done + Times('\\', held) + arg;
  }

  lemma Resumes(r: Read, n: Read)
    requires !Stops(r) && Advance(r) == n
    ensures ReadArg(r) == ReadArg(n)
  {
  }

  lemma Regroup(a: string, b: string, c: string, d: string)
    ensures a + b + c + d == a + (b + c + d)
  {
  }

  lemma ReadQuoteMark(arg: string, held: nat, quoted: bool, rest: string, done: string)
    requires arg != "" && arg[0] == '"'
    requires ReadsBack(arg[1..], 0, quoted, rest, done + Times('\\', held) + "\"")
    ensures ReadsBack(arg, held, quoted, rest, done)
  {
    hide Advance, Stops, Slashes, ReadArg;
    var more := Escape(arg[1..], 0, quoted);
    var tail := more + Closing(quoted) + rest;
    var s := Times('\\', 2 * held) + "\\\"" + tail;
    assert Escape(arg, held, quoted) + Closing(quoted) + rest == s by {
      Regroup(Times('\\', 2 * held) + "\\\"", more, Closing(quoted), rest);
    }
    ReadEscapedQuote(held, tail, quoted, done);
    Resumes(Read(done, s, quoted), Read(done + Times('\\', held) + "\"", tail, quoted));
    assert done + Times('\\', held) + "\"" + Times('\\', 0) + arg[1..] == done + Times('\\', held) + arg by {
      assert arg == "\"" + arg[1..];
    }
  }

  lemma OtherShape(arg: string, held: nat, quoted: bool, rest: string)
    requires arg != "" && arg[0] != '"' && arg[0] != '\\'
    ensures Escape(arg, held, quoted) + Closing(quoted) + rest
            == Times('\\', held) + [arg[0]] + (Escape(arg[1..], 0, quoted) + Closing(quoted) + rest)
  {
    Regroup(Times('\\', held) + [arg[0]], Escape(arg[1..], 0, quoted), Closing(quoted), rest);
  }

  lemma ReadOther(arg: string, held: nat, quoted: bool, rest: string, done: string)
    requires arg != "" && arg[0] != '"' && arg[0] != '\\' && (quoted || !Blank(arg[0]))
    requires ReadsBack(arg[1..], 0, quoted, rest, done + Times('\\', held) + [arg[0]])
    ensures ReadsBack(arg, held, quoted, rest, done)
  {
    var more := Escape(arg[1..], 0, quoted);
    var tail := more + Closing(quoted) + rest;
    var s := Times('\\', held) + [arg[0]] + tail;
    OtherShape(arg, held, quoted, rest);
    ReadLiteral(held, arg[0], tail, quoted, done);
    Resumes(Read(done, s, quoted), Read(done + Times('\\', held) + [arg[0]], tail, quoted));
    PutTogether(done + Times('\\', held), arg);
  }

  lemma PutTogether(done: string, arg: string)
    requires arg != ""
    ensures done + [arg[0]] + Times('\\', 0) + arg[1..] == done + arg
  {
    assert arg == [arg[0]] + arg[1..];
  }

  /** Reading back what was escaped gives the argument, whatever backslashes and quotes are in it. */
  lemma {:induction false} ReadEscaped(arg: string, held: nat, quoted: bool, rest: string, done: string)
    requires Ends(rest) && (quoted || forall c <- arg :: !Blank(c))
    ensures ReadsBack(arg, held, quoted, rest, done)
    decreases |arg|
  {
    if arg == "" {
      ReadEnd(held, quoted, rest, done);
    } else if arg[0] == '\\' {
      ReadEscaped(arg[1..], held + 1, quoted, rest, done);
      ReadSlash(arg, held, quoted, rest, done);
    } else if arg[0] == '"' {
      ReadEscaped(arg[1..], 0, quoted, rest, done + Times('\\', held) + "\"");
      ReadQuoteMark(arg, held, quoted, rest, done);
    } else {
      ReadEscaped(arg[1..], 0, quoted, rest, done + Times('\\', held) + [arg[0]]);
      ReadOther(arg, held, quoted, rest, done);
    }
  }

  lemma QuoteOpens(tail: string)
    ensures !Stops(Read("", "\"" + tail, false))
    ensures Advance(Read("", "\"" + tail, false)) == Read("", tail, true)
  {
    assert Slashes("\"" + tail) == 0 && ("\"" + tail)[0..] == "\"" + tail;
  }

  lemma ReadQuoted(arg: string, rest: string)
    requires Ends(rest)
    ensures ReadArg(Read("", Quote(arg) + rest, false)) == Read(arg, rest, false)
    ensures Quote(arg) != "" && !Blank(Quote(arg)[0])
  {
    hide Advance, Ends, Slashes, Escape, Times;
    assert "" + Times('\\', 0) + arg == arg;
    if NeedsQuotes(arg) {
      var tail := Escape(arg, 0, true) + Closing(true) + rest;
      assert Quote(arg) + rest == "\"" + tail;
      QuoteOpens(tail);
      ReadEscaped(arg, 0, true, rest, "");
    } else {
      EscapedStart(arg, 0);
      ReadEscaped(arg, 0, false, rest, "");
      assert Escape(arg, 0, false) + Closing(false) + rest == Quote(arg) + rest;
    }
  }

  lemma {:induction false} EscapedStart(arg: string, held: nat)
    requires (arg != "" || held > 0) && forall c <- arg :: !Blank(c)
    ensures Escape(arg, held, false) != "" && !Blank(Escape(arg, held, false)[0])
    decreases |arg|
  {
    if arg != "" && arg[0] == '\\' { EscapedStart(arg[1..], held + 1); }
  }

  lemma ParseStep(line: string, arg: string, rest: string)
    requires line != "" && !Blank(line[0])
    requires ReadArg(Read("", line, false)) == Read(arg, rest, false)
    ensures Parse(line) == match Parse(rest) case None => None case Some(more) => Some([arg] + more)
  {
    assert SkipBlanks(line) == line;
  }

  lemma ParseSkips(line: string)
    ensures Parse(" " + line) == Parse(line)
  {
    assert (" " + line)[1..] == line;
    assert SkipBlanks(" " + line) == SkipBlanks(line);
  }

  lemma OneMoreArgument(arg: string, more: seq<string>)
    requires Parse(Print(more)) == Some(more)
    ensures Parse(Print([arg] + more)) == Some([arg] + more)
  {
    var rest := if more == [] then "" else " " + Print(more);
    var line := Quote(arg) + rest;
    assert ([arg] + more)[1..] == more;
    assert Print([arg] + more) == line;
    ReadQuoted(arg, rest);
    ParseStep(line, arg, rest);
    ParseSkips(Print(more));
  }

  /** Every list of arguments, printed and parsed, is itself: the empty ones, and whatever
      quotes, blanks and backslashes the others are made of. */
  lemma {:induction false} ParsePrint(args: seq<string>)
    ensures Parse(Print(args)) == Some(args)
    decreases |args|
  {
    if args != [] {
      ParsePrint(args[1..]);
      OneMoreArgument(args[0], args[1..]);
      assert args == [args[0]] + args[1..];
    }
  }

  /** So no two lists of arguments print alike. */
  lemma PrintIsInjective(a: seq<string>, b: seq<string>)
    requires Print(a) == Print(b)
    ensures a == b
  {
    ParsePrint(a);
    ParsePrint(b);
  }

  // --- when the parser refuses ---------------------------------------------------

  /** Read left to right, one character at a time: is a double quote open at the end? A quote
      after an odd number of backslashes is a character, and so is a doubled one inside quotes;
      every other quote opens or closes, wherever the arguments begin and end. */
  predicate OpenAtEnd(s: string, quoted: bool, odd: bool) {
    if s == "" then quoted
    else if s[0] == '\\' then OpenAtEnd(s[1..], quoted, !odd)
    else if s[0] != '"' then OpenAtEnd(s[1..], quoted, false)
    else if odd then OpenAtEnd(s[1..], quoted, false)
    else if quoted && |s| > 1 && s[1] == '"' then OpenAtEnd(s[2..], quoted, false)
    else OpenAtEnd(s[1..], !quoted, false)
  }

  lemma {:induction false} OpenAfterSlashes(s: string, quoted: bool, odd: bool)
    ensures OpenAtEnd(s, quoted, odd)
            == OpenAtEnd(s[Slashes(s)..], quoted, odd != (Slashes(s) % 2 == 1))
    decreases |s|
  {
    if s != "" && s[0] == '\\' {
      OpenAfterSlashes(s[1..], quoted, !odd);
      assert s[1..][Slashes(s[1..])..] == s[Slashes(s)..];
    } else {
      assert s[0..] == s;
    }
  }

  lemma AdvanceKeepsOpen(r: Read)
    requires !Stops(r)
    ensures OpenAtEnd(r.rest, r.quoted, false) == OpenAtEnd(Advance(r).rest, Advance(r).quoted, false)
  {
    OpenAfterSlashes(r.rest, r.quoted, false);
    AfterSlashes(r.rest);
  }

  lemma {:induction false} ReadKeepsOpen(r: Read)
    ensures OpenAtEnd(r.rest, r.quoted, false) == OpenAtEnd(ReadArg(r).rest, ReadArg(r).quoted, false)
    decreases |r.rest|
  {
    if !Stops(r) {
      AdvanceKeepsOpen(r);
      ReadKeepsOpen(Advance(r));
    }
  }

  lemma {:induction false} AfterSlashes(s: string)
    ensures s[Slashes(s)..] == "" || s[Slashes(s)..][0] != '\\'
    decreases |s|
  {
    if s != "" && s[0] == '\\' {
      AfterSlashes(s[1..]);
      assert s[1..][Slashes(s[1..])..] == s[Slashes(s)..];
    }
  }

  lemma {:induction false} SkipKeepsOpen(s: string)
    ensures OpenAtEnd(s, false, false) == OpenAtEnd(SkipBlanks(s), false, false)
    decreases |s|
  {
    if s != "" && Blank(s[0]) { SkipKeepsOpen(s[1..]); }
  }

  /** A command is refused if and only if it leaves a double quote open. */
  lemma {:induction false} RefusedIffUnterminated(s: string)
    ensures Parse(s) == None <==> OpenAtEnd(s, false, false)
    decreases |s|
  {
    SkipKeepsOpen(s);
    var t := SkipBlanks(s);
    if t != "" {
      var r := ReadArg(Read("", t, false));
      ReadKeepsOpen(Read("", t, false));
      if !r.quoted { RefusedIffUnterminated(r.rest); }
    }
  }

  // --- what separates arguments ------------------------------------------------------

  /** A word of no special character: no space, tab, quote or backslash. */
  predicate Plain(w: string) {
    w != "" && forall c <- w :: c != ' ' && c != '\t' && c != '"' && c != '\\'
  }

  lemma PlainTurn(done: string, w: string, rest: string)
    requires Plain(w)
    ensures !Stops(Read(done, w + rest, false))
    ensures Advance(Read(done, w + rest, false)) == Read(done + [w[0]], w[1..] + rest, false)
  {
    assert (w + rest)[0] == w[0] && w[0] in w && (w + rest)[0..] == w + rest && (w + rest)[1..] == w[1..] + rest;
    assert done + "" + [w[0]] == done + [w[0]];
  }

  lemma StopsAtBlanks(done: string, rest: string)
    requires rest == "" || rest[0] == ' ' || rest[0] == '\t'
    ensures ReadArg(Read(done, rest, false)) == Read(done, rest, false)
  {
  }

  lemma PlainGoesOn(w: string)
    requires Plain(w) && |w| > 1
    ensures Plain(w[1..])
  {
    assert forall c <- w[1..] :: c in w;
  }

  lemma {:induction false} PlainIsRead(done: string, w: string, rest: string)
    requires Plain(w) && (rest == "" || rest[0] == ' ' || rest[0] == '\t')
    ensures ReadArg(Read(done, w + rest, false)) == Read(done + w, rest, false)
    decreases |w|
  {
    hide Advance, ReadArg, Stops;
    PlainTurn(done, w, rest);
    Resumes(Read(done, w + rest, false), Read(done + [w[0]], w[1..] + rest, false));
    if |w| == 1 {
      assert w[1..] + rest == rest && done + w == done + [w[0]];
      StopsAtBlanks(done + w, rest);
    } else {
      hide Plain;
      PlainGoesOn(w);
      PlainIsRead(done + [w[0]], w[1..], rest);
      assert done + [w[0]] + w[1..] == done + w;
    }
  }

  /** Each word with the character behind it. */
  function Spaced(words: seq<string>, gaps: string): (line: string)
    requires |gaps| == |words|
  {
    if words == [] then "" else words[0] + ([gaps[0]] + Spaced(words[1..], gaps[1..]))
  }

  lemma SkipsOne(c: char, line: string)
    requires c == ' ' || c == '\t'
    ensures Parse([c] + line) == Parse(line)
  {
    assert ([c] + line)[1..] == line;
    assert SkipBlanks([c] + line) == SkipBlanks(line);
  }

  /** Spaces and tabs separate arguments, and no other character does. */
  lemma {:induction false} BlanksSeparate(words: seq<string>, gaps: string)
    requires |gaps| == |words| && (forall w <- words :: Plain(w)) && forall c <- gaps :: c == ' ' || c == '\t'
    ensures Parse(Spaced(words, gaps)) == Some(words)
    decreases |words|
  {
    if words != [] {
      var w, rest := words[0], [gaps[0]] + Spaced(words[1..], gaps[1..]);
      assert w in words && gaps[0] in gaps && w[0] in w;
      assert forall c <- gaps[1..] :: c in gaps;
      BlanksSeparate(words[1..], gaps[1..]);
      PlainIsRead("", w, rest);
      assert "" + w == w && (w + rest)[0] == w[0];
      ParseStep(w + rest, w, rest);
      SkipsOne(gaps[0], Spaced(words[1..], gaps[1..]));
      assert [w] + words[1..] == words;
    }
  }

  lemma {:induction false} PlainIsUnescaped(w: string)
    requires forall c <- w :: c != '"' && c != '\\'
    ensures Escape(w, 0, false) == w
  {
    if w != "" {
      assert w[0] in w && forall c <- w[1..] :: c in w;
      PlainIsUnescaped(w[1..]);
      assert w == Times('\\', 0) + [w[0]] + w[1..];
    }
  }

  /** A word without special characters is printed as it is. */
  lemma PlainIsBare(w: string)
    requires Plain(w)
    ensures Quote(w) == w
  {
    PlainIsUnescaped(w);
  }
}
