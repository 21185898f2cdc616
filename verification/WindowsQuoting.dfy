/**
 * quote_windows_arg and the command line that Process::spawn builds
 * (src/process.cpp), against the argv rules of the Microsoft C runtime:
 * 2n backslashes before a quote are n backslashes and a delimiter, 2n+1 are n
 * backslashes and a literal quote, other backslashes are literal.
 */
module WindowsQuoting {
  import Seqs

  function Slashes(n: nat): string {
    seq(n, _ => '\\')
  }

  predicate IsSpecial(c: char) {
    c == ' ' || c == '\t' || c == '\n' || c == '\U{000B}' || c == '"'
  }

  predicate NeedsQuotes(arg: string) {
    arg == "" || exists i :: 0 <= i < |arg| && IsSpecial(arg[i])
  }

  /** The inside of a quoted argument, with n backslashes seen and not yet
      written. */
  function Inside(arg: string, n: nat): string {
    if arg == "" then Slashes(n * 2)
    else if arg[0] == '\\' then Inside(arg[1..], n + 1)
    else if arg[0] == '"' then Slashes(n * 2 + 1) + ['"'] + Inside(arg[1..], 0)
    else Slashes(n) + [arg[0]] + Inside(arg[1..], 0)
  }

  function Quote(arg: string): string {
    if NeedsQuotes(arg) then ['"'] + Inside(arg, 0) + ['"'] else arg
  }

  method QuoteWindowsArg(arg: string) returns (out: string)
    ensures out == Quote(arg)
  {
    if arg != "" && !exists i :: 0 <= i < |arg| && IsSpecial(arg[i]) {
      return arg;
    }
    out := ['"'];
    var backslashes := 0;
    for i := 0 to |arg|
      invariant backslashes >= 0
      invariant out + Inside(arg[i..], backslashes) == ['"'] + Inside(arg, 0)
    {
      var c := arg[i];
      assert arg[i..][0] == c && arg[i..][1..] == arg[i + 1..];
      if c == '\\' {
        backslashes := backslashes + 1;
      } else if c == '"' {
        out := out + Slashes(backslashes * 2 + 1);
        out := out + ['"'];
        backslashes := 0;
      } else {
        out := out + Slashes(backslashes);
        backslashes := 0;
        out := out + [c];
      }
    }
    assert arg[|arg|..] == "";
    out := out + Slashes(backslashes * 2);
    out := out + ['"'];
  }

  /** An argument goes unquoted exactly when it is not empty and holds no blank,
      tab, line feed, vertical tab or quote. */
  lemma QuoteExact(arg: string)
    ensures Quote(arg) == arg
            <==> arg != "" && forall c :: c in arg ==> c !in {' ', '\t', '\n', '\U{000B}', '"'}
  {
    InsideGrows(arg, 0);
    assert NeedsQuotes(arg) ==> |Quote(arg)| == |Inside(arg, 0)| + 2;
    assert forall c :: c in {' ', '\t', '\n', '\U{000B}', '"'} <==> IsSpecial(c);
    assert forall i :: 0 <= i < |arg| ==> arg[i] in arg;
  }

  lemma {:induction false} InsideGrows(arg: string, n: nat)
    ensures |Inside(arg, n)| >= |arg| + n
  {
    if arg != "" {
      InsideGrows(arg[1..], n + 1);
      InsideGrows(arg[1..], 0);
    }
  }

  /** The arguments as spawn appends them: a space before each. */
  function Tail(args: seq<string>): string {
    if args == [] then "" else [' '] + Quote(args[0]) + Tail(args[1..])
  }

  method BuildCommandLine(executable: string, args: seq<string>) returns (cmdline: string)
    ensures cmdline == Quote(executable) + Tail(args)
  {
    cmdline := QuoteWindowsArg(executable);
    for i := 0 to |args|
      invariant cmdline + Tail(args[i..]) == Quote(executable) + Tail(args)
    {
      assert args[i..][0] == args[i] && args[i..][1..] == args[i + 1..];
      cmdline := cmdline + [' '];
      var quoted := QuoteWindowsArg(args[i]);
      cmdline := cmdline + quoted;
    }
    assert args[|args|..] == [];
  }

  // ------------------------------------------------------- the C runtime's view

  predicate IsBlank(c: char) {
    c == ' ' || c == '\t'
  }

  /** One argument: its text and what follows it. `n` counts the backslashes
      read and not yet interpreted; `doubled` says whether a doubled quote inside
      quotes is a literal quote, on which readers of command lines differ. */
  function ParseArg(doubled: bool, s: string, n: nat, inQuotes: bool): (r: (string, string))
    ensures |r.1| <= |s|
    ensures s != "" && !IsBlank(s[0]) ==> |r.1| < |s|
  {
    if s == "" then (Slashes(n), "")
    else if s[0] == '\\' then ParseArg(doubled, s[1..], n + 1, inQuotes)
    else if s[0] == '"' then
      if n % 2 == 1 then Prefix(Slashes(n / 2) + ['"'], ParseArg(doubled, s[1..], 0, inQuotes))
      else if doubled && inQuotes && |s| > 1 && s[1] == '"' then
        Prefix(Slashes(n / 2) + ['"'], ParseArg(doubled, s[2..], 0, inQuotes))
      else Prefix(Slashes(n / 2), ParseArg(doubled, s[1..], 0, !inQuotes))
    else if !inQuotes && IsBlank(s[0]) then (Slashes(n), s)
    else Prefix(Slashes(n) + [s[0]], ParseArg(doubled, s[1..], 0, inQuotes))
  }

  function Prefix(p: string, r: (string, string)): (string, string) {
    (p + r.0, r.1)
  }

  function ParseArgs(doubled: bool, s: string): seq<string>
    decreases |s|
  {
    if s == "" then []
    else if IsBlank(s[0]) then ParseArgs(doubled, s[1..])
    else var (arg, rest) := ParseArg(doubled, s, 0, false); [arg] + ParseArgs(doubled, rest)
  }

  /** argv[0]: quotes toggle and are dropped, backslashes are ordinary. */
  function ParseProgram(s: string, inQuotes: bool): (string, string) {
    if s == "" then ("", "")
    else if s[0] == '"' then ParseProgram(s[1..], !inQuotes)
    else if !inQuotes && IsBlank(s[0]) then ("", s)
    else Prefix([s[0]], ParseProgram(s[1..], inQuotes))
  }

  function ParseCommandLine(doubled: bool, s: string): seq<string> {
    var (program, rest) := ParseProgram(s, false);
    [program] + ParseArgs(doubled, rest)
  }

  /** CreateProcess receives a C string. */
  function CString(s: string): string {
    if s == "" || s[0] == '\0' then "" else [s[0]] + CString(s[1..])
  }

  // ---------------------------------------------------------------- round trip

  lemma {:induction false} ParseSlashes(doubled: bool, k: nat, s: string, n: nat, inQuotes: bool)
    ensures ParseArg(doubled, Slashes(k) + s, n, inQuotes) == ParseArg(doubled, s, n + k, inQuotes)
    decreases k
  {
    var t := Slashes(k) + s;
    if k == 0 {
      assert t == s;
    } else {
      assert t[0] == '\\' && t[1..] == Slashes(k - 1) + s;
      ParseSlashes(doubled, k - 1, s, n + 1, inQuotes);
    }
  }

  predicate Separated(rest: string) {
    rest == "" || rest[0] == ' '
  }

  lemma ParseClose(doubled: bool, n: nat, rest: string)
    requires Separated(rest)
    ensures ParseArg(doubled, Slashes(n * 2) + (['"'] + rest), 0, true) == (Slashes(n), rest)
  {
    ParseSlashes(doubled, n * 2, ['"'] + rest, 0, true);
    assert (['"'] + rest)[1..] == rest;
    assert Slashes(0) == "" && Slashes(n) + "" == Slashes(n);
    assert ParseArg(doubled, rest, 0, false) == ("", rest);
  }

  lemma ParseLiteralQuote(doubled: bool, n: nat, more: string)
    ensures ParseArg(doubled, Slashes(n * 2 + 1) + (['"'] + more), 0, true)
            == Prefix(Slashes(n) + ['"'], ParseArg(doubled, more, 0, true))
  {
    ParseSlashes(doubled, n * 2 + 1, ['"'] + more, 0, true);
    assert (['"'] + more)[1..] == more;
  }

  lemma ParseOrdinary(doubled: bool, n: nat, c: char, more: string)
    requires c != '"' && c != '\\'
    ensures ParseArg(doubled, Slashes(n) + ([c] + more), 0, true)
            == Prefix(Slashes(n) + [c], ParseArg(doubled, more, 0, true))
  {
    ParseSlashes(doubled, n, [c] + more, 0, true);
    assert ([c] + more)[1..] == more;
  }

  lemma Regroup(a: string, b: string, c: string, d: string)
    ensures (a + b + c) + d == a + (b + (c + d))
  {
  }

  lemma InsideOrdinary(c: char, more: string, n: nat, close: string)
    requires c != '"' && c != '\\'
    ensures Inside([c] + more, n) + close == Slashes(n) + ([c] + (Inside(more, 0) + close))
  {
    assert ([c] + more)[1..] == more;
    Regroup(Slashes(n), [c], Inside(more, 0), close);
  }

  lemma InsideQuote(more: string, n: nat, close: string)
    ensures Inside(['"'] + more, n) + close == Slashes(n * 2 + 1) + (['"'] + (Inside(more, 0) + close))
  {
    assert (['"'] + more)[1..] == more;
    Regroup(Slashes(n * 2 + 1), ['"'], Inside(more, 0), close);
  }

  /** A quoted argument up to and including its closing quote. */
  lemma {:induction false} ParseInside(doubled: bool, arg: string, n: nat, rest: string)
    requires Separated(rest)
    ensures ParseArg(doubled, Inside(arg, n) + (['"'] + rest), 0, true) == (Slashes(n) + arg, rest)
    decreases |arg|
  {
    if arg == "" {
      ParseClose(doubled, n, rest);
      assert Slashes(n) + "" == Slashes(n);
    } else if arg[0] == '\\' {
      ParseInside(doubled, arg[1..], n + 1, rest);
      assert Slashes(n + 1) + arg[1..] == Slashes(n) + arg;
    } else {
      var c, more, close := arg[0], arg[1..], ['"'] + rest;
      ParseInside(doubled, more, 0, rest);
      assert arg == [c] + more;
      assert Slashes(0) + more == more && Slashes(n) + [c] + more == Slashes(n) + arg;
      if c == '"' {
        InsideQuote(more, n, close);
        ParseLiteralQuote(doubled, n, Inside(more, 0) + close);
      } else {
        InsideOrdinary(c, more, n, close);
        ParseOrdinary(doubled, n, c, Inside(more, 0) + close);
      }
    }
  }

  lemma {:induction false} ParsePlain(doubled: bool, arg: string, n: nat, rest: string)
    requires Separated(rest)
    requires forall i :: 0 <= i < |arg| ==> !IsSpecial(arg[i])
    ensures ParseArg(doubled, arg + rest, n, false) == (Slashes(n) + arg, rest)
    decreases |arg|
  {
    var s := arg + rest;
    if arg == "" {
      assert s == rest && Slashes(n) + "" == Slashes(n);
    } else {
      assert s[0] == arg[0] && s[1..] == arg[1..] + rest;
      if arg[0] == '\\' {
        ParsePlain(doubled, arg[1..], n + 1, rest);
        assert Slashes(n + 1) + arg[1..] == Slashes(n) + arg;
      } else {
        ParsePlain(doubled, arg[1..], 0, rest);
        assert Slashes(n) + [arg[0]] + (Slashes(0) + arg[1..]) == Slashes(n) + arg;
      }
    }
  }

  lemma ParseQuote(doubled: bool, arg: string, rest: string)
    requires Separated(rest)
    ensures ParseArg(doubled, Quote(arg) + rest, 0, false) == (arg, rest)
    ensures Quote(arg) != "" && !IsBlank(Quote(arg)[0])
  {
    if NeedsQuotes(arg) {
      var more := Inside(arg, 0) + (['"'] + rest);
      assert Quote(arg) + rest == ['"'] + more && (['"'] + more)[1..] == more;
      ParseInside(doubled, arg, 0, rest);
      assert Slashes(0) + arg == arg;
    } else {
      ParsePlain(doubled, arg, 0, rest);
      assert Slashes(0) + arg == arg;
    }
  }

  lemma {:induction false} ParseTail(doubled: bool, args: seq<string>)
    ensures ParseArgs(doubled, Tail(args)) == args && Separated(Tail(args))
    decreases |args|
  {
    if args != [] {
      var rest := Tail(args[1..]);
      ParseTail(doubled, args[1..]);
      ParseQuote(doubled, args[0], rest);
      var s := Quote(args[0]) + rest;
      Seqs.Assoc([' '], Quote(args[0]), rest);
      Seqs.Cons(' ', s);
      assert s[0] == Quote(args[0])[0];
      assert ParseArgs(doubled, s) == [args[0]] + ParseArgs(doubled, rest);
    }
  }

  // ------------------------------------------------------------ program name

  /** Exactly the program names that survive: no quote inside, and no trailing
      backslash when quotes are put around it. */
  predicate ProgramOk(executable: string) {
    '"' !in executable &&
    (NeedsQuotes(executable) && executable != "" ==> executable[|executable| - 1] != '\\')
  }

  /** Without quotes in it, the inside of an argument is the pending
      backslashes, the argument, and its trailing backslashes again. */
  lemma {:induction false} InsideNoQuote(arg: string, n: nat)
    requires '"' !in arg
    ensures exists k: nat :: Inside(arg, n) == Slashes(n) + arg + Slashes(k)
              && (k > 0 <==> (if arg == "" then n > 0 else arg[|arg| - 1] == '\\'))
    decreases |arg|
  {
    if arg == "" {
      assert Inside(arg, n) == Slashes(n) + arg + Slashes(n);
    } else {
      var m := if arg[0] == '\\' then n + 1 else 0;
      InsideNoQuote(arg[1..], m);
      var k: nat :| Inside(arg[1..], m) == Slashes(m) + arg[1..] + Slashes(k)
                    && (k > 0 <==> (if arg[1..] == "" then m > 0 else arg[1..][|arg[1..]| - 1] == '\\'));
      InsideStep(arg, n, m, k);
    }
  }

  lemma InsideStep(arg: string, n: nat, m: nat, k: nat)
    requires arg != "" && arg[0] != '"' && m == if arg[0] == '\\' then n + 1 else 0
    requires Inside(arg[1..], m) == Slashes(m) + arg[1..] + Slashes(k)
    ensures Inside(arg, n) == Slashes(n) + arg + Slashes(k)
  {
    if arg[0] == '\\' {
      SlashMoves(arg, n);
    } else {
      Seqs.Units(arg[1..]);
      Seqs.Assoc(Slashes(n) + [arg[0]], arg[1..], Slashes(k));
      Seqs.Assoc(Slashes(n), [arg[0]], arg[1..]);
      Seqs.Uncons(arg);
      assert Slashes(0) == [];
    }
  }

  lemma SlashMoves(arg: string, n: nat)
    requires arg != "" && arg[0] == '\\'
    ensures Slashes(n + 1) + arg[1..] == Slashes(n) + arg
  {
  }

  lemma {:induction false} ProgramQuoted(name: string, rest: string)
    requires '"' !in name && Separated(rest)
    ensures ParseProgram(name + ['"'] + rest, true) == (name, rest)
    decreases |name|
  {
    var s := name + ['"'] + rest;
    if name == "" {
      assert s == ['"'] + rest && s[1..] == rest;
    } else {
      assert s[0] == name[0] && s[1..] == name[1..] + ['"'] + rest;
      ProgramQuoted(name[1..], rest);
      assert [name[0]] + name[1..] == name;
    }
  }

  lemma {:induction false} ProgramPlain(name: string, rest: string)
    requires Separated(rest) && forall i :: 0 <= i < |name| ==> !IsSpecial(name[i])
    ensures ParseProgram(name + rest, false) == (name, rest)
    decreases |name|
  {
    var s := name + rest;
    if name == "" {
      assert s == rest;
    } else {
      assert s[0] == name[0] && s[1..] == name[1..] + rest;
      ProgramPlain(name[1..], rest);
      assert [name[0]] + name[1..] == name;
    }
  }

  lemma {:induction false} ProgramHasNoQuote(s: string, inQuotes: bool)
    ensures '"' !in ParseProgram(s, inQuotes).0
    decreases |s|
  {
    if s != "" {
      ProgramHasNoQuote(s[1..], inQuotes);
      ProgramHasNoQuote(s[1..], !inQuotes);
    }
  }

  lemma ProgramRoundTrip(executable: string, rest: string)
    requires Separated(rest)
    ensures ProgramOk(executable) ==> ParseProgram(Quote(executable) + rest, false) == (executable, rest)
    ensures !ProgramOk(executable) ==> ParseProgram(Quote(executable) + rest, false).0 != executable
  {
    ProgramHasNoQuote(Quote(executable) + rest, false);
    if '"' !in executable {
      if NeedsQuotes(executable) {
        InsideNoQuote(executable, 0);
        var k: nat :| Inside(executable, 0) == Slashes(0) + executable + Slashes(k)
                      && (k > 0 <==> (if executable == "" then 0 > 0 else executable[|executable| - 1] == '\\'));
        var name := executable + Slashes(k);
        var s := Quote(executable) + rest;
        assert s[0] == '"' && s[1..] == name + ['"'] + rest;
        ProgramQuoted(name, rest);
        assert k == 0 ==> name == executable;
        assert k > 0 ==> |name| != |executable|;
      } else {
        ProgramPlain(executable, rest);
      }
    }
  }

  predicate NulFree(s: string) {
    forall i :: 0 <= i < |s| ==> s[i] != '\0'
  }

  /** It is read up to the first NUL. */
  lemma {:induction false} CStringExact(s: string)
    ensures CString(s) <= s && NulFree(CString(s))
    ensures |CString(s)| < |s| ==> s[|CString(s)|] == '\0'
    ensures CString(s) == s <==> NulFree(s)
  {
    if s != "" && s[0] != '\0' {
      CStringExact(s[1..]);
    }
  }

  lemma {:induction false} ParseArgNulFree(doubled: bool, s: string, n: nat, inQuotes: bool)
    requires NulFree(s)
    ensures NulFree(ParseArg(doubled, s, n, inQuotes).0) && NulFree(ParseArg(doubled, s, n, inQuotes).1)
    decreases |s|
  {
    if s != "" {
      ParseArgNulFree(doubled, s[1..], n + 1, inQuotes);
      ParseArgNulFree(doubled, s[1..], 0, inQuotes);
      ParseArgNulFree(doubled, s[1..], 0, !inQuotes);
      if |s| > 1 { ParseArgNulFree(doubled, s[2..], 0, inQuotes); }
    }
  }

  lemma {:induction false} ParseArgsNulFree(doubled: bool, s: string)
    requires NulFree(s)
    ensures forall a :: a in ParseArgs(doubled, s) ==> NulFree(a)
    decreases |s|
  {
    if s != "" {
      if IsBlank(s[0]) {
        ParseArgsNulFree(doubled, s[1..]);
      } else {
        ParseArgNulFree(doubled, s, 0, false);
        ParseArgsNulFree(doubled, ParseArg(doubled, s, 0, false).1);
      }
    }
  }

  lemma {:induction false} ParseProgramNulFree(s: string, inQuotes: bool)
    requires NulFree(s)
    ensures NulFree(ParseProgram(s, inQuotes).0) && NulFree(ParseProgram(s, inQuotes).1)
    decreases |s|
  {
    if s != "" {
      ParseProgramNulFree(s[1..], inQuotes);
      ParseProgramNulFree(s[1..], !inQuotes);
    }
  }

  /** No argument of a C string holds a NUL. */
  lemma ArgvNulFree(doubled: bool, s: string)
    requires NulFree(s)
    ensures forall a :: a in ParseCommandLine(doubled, s) ==> NulFree(a)
  {
    ParseProgramNulFree(s, false);
    ParseArgsNulFree(doubled, ParseProgram(s, false).1);
  }

  lemma {:induction false} InsideNulFree(arg: string, n: nat)
    requires NulFree(arg)
    ensures NulFree(Inside(arg, n))
    decreases |arg|
  {
    if arg != "" {
      InsideNulFree(arg[1..], n + 1);
      InsideNulFree(arg[1..], 0);
    }
  }

  lemma NulFreeConcat(a: string, b: string)
    requires NulFree(a) && NulFree(b)
    ensures NulFree(a + b)
  {
  }

  lemma QuoteNulFree(arg: string)
    requires NulFree(arg)
    ensures NulFree(Quote(arg))
  {
    InsideNulFree(arg, 0);
  }

  lemma {:induction false} TailNulFree(args: seq<string>)
    requires forall i :: 0 <= i < |args| ==> NulFree(args[i])
    ensures NulFree(Tail(args))
    decreases |args|
  {
    if args != [] {
      QuoteNulFree(args[0]);
      TailNulFree(args[1..]);
      NulFreeConcat([' '] + Quote(args[0]), Tail(args[1..]));
    }
  }

  lemma ParseWhole(doubled: bool, executable: string, args: seq<string>)
    ensures ParseCommandLine(doubled, Quote(executable) + Tail(args)) == [executable] + args <==> ProgramOk(executable)
  {
    var line := Quote(executable) + Tail(args);
    ParseTail(doubled, args);
    ProgramRoundTrip(executable, Tail(args));
    assert ParseCommandLine(doubled, line)[0] == ParseProgram(line, false).0;
    assert ([executable] + args)[0] == executable;
  }

  lemma LineNulFree(executable: string, args: seq<string>)
    requires NulFree(executable) && forall i :: 0 <= i < |args| ==> NulFree(args[i])
    ensures NulFree(Quote(executable) + Tail(args)) && NulFree(Tail(args))
  {
    TailNulFree(args);
    QuoteNulFree(executable);
    NulFreeConcat(Quote(executable), Tail(args));
  }

  ghost predicate AllNulFree(args: seq<string>) {
    forall i :: 0 <= i < |args| ==> NulFree(args[i])
  }

  /** Under either rule for doubled quotes, for every program name and argument
      list, the child's argv is exactly the list if and only if no string holds a
      NUL and the program name is one that survives; NUL-free arguments always do. */
  lemma CommandLineRoundTrip(doubled: bool, executable: string, args: seq<string>)
    ensures ParseCommandLine(doubled, CString(Quote(executable) + Tail(args))) == [executable] + args
            <==> ProgramOk(executable) && NulFree(executable) && AllNulFree(args)
    ensures AllNulFree(args) ==> ParseArgs(doubled, CString(Tail(args))) == args
  {
    var line := CString(Quote(executable) + Tail(args));
    CStringExact(Quote(executable) + Tail(args));
    ArgvNulFree(doubled, line);
    if ParseCommandLine(doubled, line) == [executable] + args {
      forall i | 0 <= i < |args| ensures NulFree(args[i]) {
        assert ([executable] + args)[i + 1] == args[i];
      }
      assert ([executable] + args)[0] == executable;
    }
    ParseTail(doubled, args);
    if AllNulFree(args) {
      TailNulFree(args);
      CStringExact(Tail(args));
    }
    if NulFree(executable) && AllNulFree(args) {
      LineNulFree(executable, args);
      ParseWhole(doubled, executable, args);
    }
  }
}
