/**
 * Resource templates (src/server.cpp): the loop that builds a regular
 * expression from a template, the loop that collects variable names, and the
 * matching of a URI. The regular expressions produced are literal characters
 * and the capture group [^/?#]+; their meaning is given here for that fragment.
 */
module UriTemplate {
  import opened Wrappers
  import Seqs

  datatype Token = Lit(c: char) | Var(name: string)

  // ---------------------------------------------------------- pattern builder

  predicate IsMeta(c: char) {
    c == '.' || c == '+' || c == '*' || c == '?' || c == '(' || c == ')' || c == '[' || c == ']'
    || c == '{' || c == '}' || c == '|' || c == '^' || c == '$' || c == '\\'
  }

  const GROUP := "([^/\\?\\#]+)"

  /** What the builder's scan finds: literals, and non-empty variables. */
  function Tokens(tpl: string, inVar: bool, name: string): seq<Token> {
    if tpl == "" then []
    else if tpl[0] == '{' then Tokens(tpl[1..], true, "")
    else if tpl[0] == '}' then
      (if inVar && name != "" then [Var(name)] else []) + Tokens(tpl[1..], false, "")
    else if inVar then Tokens(tpl[1..], true, name + [tpl[0]])
    else [Lit(tpl[0])] + Tokens(tpl[1..], false, "")
  }

  predicate IsBrace(c: char) {
    c == '{' || c == '}'
  }

  /** Where the text since the last brace before position i begins. */
  function TextStart(tpl: string, i: nat): (j: nat)
    requires i <= |tpl|
    ensures j <= i
  {
    if i == 0 || IsBrace(tpl[i - 1]) then i else TextStart(tpl, i - 1)
  }

  /** The last brace before position i is an opening one. */
  predicate Opened(tpl: string, i: nat)
    requires i <= |tpl|
  {
    var j := TextStart(tpl, i);
    j > 0 && tpl[j - 1] == '{'
  }

  /** What the position alone stands for: a '}' the variable it closes, if that has
      a name, and a character outside braces itself. */
  function TokenAt(tpl: string, i: nat): Option<Token>
    requires i < |tpl|
  {
    if tpl[i] == '}' && Opened(tpl, i) && TextStart(tpl, i) < i then Some(Var(tpl[TextStart(tpl, i)..i]))
    else if !IsBrace(tpl[i]) && !Opened(tpl, i) then Some(Lit(tpl[i]))
    else None
  }

  function TokensFrom(tpl: string, i: nat): seq<Token>
    requires i <= |tpl|
    decreases |tpl| - i
  {
    if i == |tpl| then []
    else (if TokenAt(tpl, i).Some? then [TokenAt(tpl, i).value] else []) + TokensFrom(tpl, i + 1)
  }

  /** The name being read at position i. */
  function NameAt(tpl: string, i: nat): string
    requires i <= |tpl|
  {
    if Opened(tpl, i) then tpl[TextStart(tpl, i)..i] else ""
  }

  /** The scan finds what each position stands for, in every template, balanced or not. */
  lemma {:induction false} TokensByPosition(tpl: string, i: nat)
    requires i <= |tpl|
    ensures Tokens(tpl[i..], Opened(tpl, i), NameAt(tpl, i)) == TokensFrom(tpl, i)
    decreases |tpl| - i
  {
    if i < |tpl| {
      Seqs.Next(tpl, i);
      TokensByPosition(tpl, i + 1);
      NameGrows(tpl, i);
      Seqs.Units(TokensFrom(tpl, i + 1));
    }
  }

  /** What the scan keeps from one position to the next. */
  lemma NameGrows(tpl: string, i: nat)
    requires i < |tpl|
    ensures Opened(tpl, i + 1) == (tpl[i] == '{' || (tpl[i] != '}' && Opened(tpl, i)))
    ensures NameAt(tpl, i + 1) == if Opened(tpl, i) && !IsBrace(tpl[i]) then NameAt(tpl, i) + [tpl[i]] else ""
  {
    if !IsBrace(tpl[i]) {
      var j := TextStart(tpl, i);
      assert tpl[j..i + 1] == tpl[j..i] + [tpl[i]];
    }
  }

  lemma TokensExact(tpl: string)
    ensures Tokens(tpl, false, "") == TokensFrom(tpl, 0)
  {
    TokensByPosition(tpl, 0);
    Seqs.Ends(tpl);
  }

  function RenderOne(t: Token): string {
    match t
    case Lit(c) => if IsMeta(c) then ['\\', c] else [c]
    case Var(_) => GROUP
  }

  function Render(ts: seq<Token>): string {
    if ts == [] then "" else RenderOne(ts[0]) + Render(ts[1..])
  }

  lemma RenderCons(t: Token, ts: seq<Token>)
    ensures Render([t] + ts) == RenderOne(t) + Render(ts)
  {
    assert ([t] + ts)[1..] == ts;
  }

  /** What one character adds to the pattern. */
  function Piece(c: char, inVar: bool, name: string): string {
    if c == '{' then ""
    else if c == '}' then (if inVar && name != "" then GROUP else "")
    else if inVar then ""
    else RenderOne(Lit(c))
  }

  /** The text of the variable being read, if one is. */
  function Pending(inVar: bool, name: string): string {
    if inVar then name else ""
  }

  lemma RenderNext(tpl: string, i: nat, inVar: bool, name: string, inVar': bool, name': string)
    requires i < |tpl|
    requires inVar' == (tpl[i] == '{' || (tpl[i] != '}' && inVar))
    requires Pending(inVar', name') == if tpl[i] != '{' && inVar' then name + [tpl[i]] else ""
    ensures Render(Tokens(tpl[i..], inVar, Pending(inVar, name)))
            == Piece(tpl[i], inVar, name) + Render(Tokens(tpl[i + 1..], inVar', Pending(inVar', name')))
  {
    Seqs.Next(tpl, i);
    var rest := Tokens(tpl[i + 1..], false, "");
    Seqs.Units(rest);
    RenderCons(Var(name), rest);
    RenderCons(Lit(tpl[i]), rest);
  }

  method UriTemplateToRegex(tpl: string) returns (pattern: string)
    ensures pattern == "^" + Render(Tokens(tpl, false, "")) + "$"
  {
    pattern := "^";
    var name, inVar := "", false;
    Seqs.Ends(tpl);
    ghost var goal := pattern + Render(Tokens(tpl, false, ""));
    for i := 0 to |tpl|
      invariant pattern + Render(Tokens(tpl[i..], inVar, Pending(inVar, name))) == goal
    {
      var c := tpl[i];
      ghost var name0, inVar0, pattern0 := name, inVar, pattern;
      if c == '{' {
        inVar := true;
        name := "";
      } else if c == '}' {
        if inVar && name != "" {
          pattern := pattern + GROUP;
        }
        inVar := false;
      } else if inVar {
        name := name + [c];
      } else if IsMeta(c) {
        pattern := pattern + ['\\', c];
      } else {
        pattern := pattern + [c];
      }
      RenderNext(tpl, i, inVar0, name0, inVar, name);
      assert pattern == pattern0 + Piece(c, inVar0, name0);
      Seqs.Assoc(pattern0, Piece(c, inVar0, name0), Render(Tokens(tpl[i + 1..], inVar, Pending(inVar, name))));
    }
    Seqs.Units(pattern);
    pattern := pattern + "$";
  }

  // ---------------------------------------------------------- reading patterns

  /** Regular expressions of the fragment: a character, or a capture group of one
      or more characters outside a set. */
  datatype Node = Literal(c: char) | NoneOf(excluded: set<char>)

  predicate IsWord(c: char) {
    'a' <= c <= 'z' || 'A' <= c <= 'Z' || '0' <= c <= '9' || c == '_'
  }

  /** SyntaxCharacter of ECMA-262 section 22.2.1: what a regular expression does not
      take literally. */
  predicate IsSyntax(c: char) {
    c in {'^', '$', '\\', '.', '*', '+', '?', '(', ')', '[', ']', '{', '}', '|'}
  }

  /** Exactly the syntax characters are escaped; every other literal stands for itself. */
  lemma EscapeExact(c: char)
    ensures RenderOne(Lit(c)) == if IsSyntax(c) then ['\\', c] else [c]
  {
  }

  /** The word characters by their ASCII codes: digits, letters and the underscore. */
  lemma WordExact(c: char)
    ensures IsWord(c)
            <==> 48 <= c as int <= 57 || 65 <= c as int <= 90 || 97 <= c as int <= 122 || c as int == 95
  {
  }

  /** The members of a class up to its ']', and what follows: plain characters and
      escaped ones that are no word characters; ranges are not in the fragment. */
  function ReadClass(s: string): (r: Option<(set<char>, string)>)
    ensures r.Some? ==> |r.value.1| < |s|
    decreases |s|
  {
    if s == "" || s[0] == '-' then None
    else if s[0] == ']' then Some(({}, s[1..]))
    else if s[0] != '\\' then Include(s[0], ReadClass(s[1..]))
    else if |s| > 1 && !IsWord(s[1]) then Include(s[1], ReadClass(s[2..]))
    else None
  }

  function Include(c: char, r: Option<(set<char>, string)>): (r': Option<(set<char>, string)>)
    ensures r'.Some? <==> r.Some?
    ensures r.Some? ==> r'.value.1 == r.value.1
  {
    if r.None? then None else Some(({c} + r.value.0, r.value.1))
  }

  /** A capture group of a negated class, one or more times. */
  function ReadGroup(s: string): (r: Option<(set<char>, string)>)
    ensures r.Some? ==> |r.value.1| < |s|
  {
    if !("([^" <= s) then None
    else
      var inside := ReadClass(s[3..]);
      if inside.None? || !("+)" <= inside.value.1) then None
      else Some((inside.value.0, inside.value.1[2..]))
  }

  /** ECMAScript syntax for the fragment: an unescaped metacharacter that does not
      open such a group is not part of it, nor is an escaped word character. */
  function ReadNodes(s: string): Option<seq<Node>>
    decreases |s|
  {
    if s == "$" then Some([])
    else if s == "" then None
    else if s[0] == '(' then
      var g := ReadGroup(s);
      if g.None? then None else Cons(NoneOf(g.value.0), ReadNodes(g.value.1))
    else if |s| > 1 && s[0] == '\\' && !IsWord(s[1]) then Cons(Literal(s[1]), ReadNodes(s[2..]))
    else if IsSyntax(s[0]) then None
    else Cons(Literal(s[0]), ReadNodes(s[1..]))
  }

  function Cons(a: Node, r: Option<seq<Node>>): Option<seq<Node>> {
    if r.None? then None else Some([a] + r.value)
  }

  function ReadPattern(pattern: string): Option<seq<Node>> {
    if pattern != "" && pattern[0] == '^' then ReadNodes(pattern[1..]) else None
  }

  /** regex_match: the captures `vs` are a way for the nodes to match all of s. */
  predicate RegexMatches(nodes: seq<Node>, s: string, vs: seq<string>)
    decreases |nodes|
  {
    if nodes == [] then s == "" && vs == []
    else match nodes[0]
      case Literal(c) => s != "" && s[0] == c && RegexMatches(nodes[1..], s[1..], vs)
      case NoneOf(excluded) =>
        && vs != [] && vs[0] != "" && (forall i :: 0 <= i < |vs[0]| ==> vs[0][i] !in excluded)
        && vs[0] <= s && RegexMatches(nodes[1..], s[|vs[0]|..], vs[1..])
  }

  /** What a template means: each literal itself, each variable one or more
      characters other than '/', '?' and '#'. */
  function NodeOf(t: Token): Node {
    match t
    case Lit(c) => Literal(c)
    case Var(_) => NoneOf({'/', '?', '#'})
  }

  function Nodes(ts: seq<Token>): (nodes: seq<Node>)
    ensures |nodes| == |ts| && forall i :: 0 <= i < |ts| ==> nodes[i] == NodeOf(ts[i])
  {
    seq(|ts|, i requires 0 <= i < |ts| => NodeOf(ts[i]))
  }

  lemma ReadsClass(tail: string)
    ensures ReadClass("/\\?\\#]" + tail) == Some(({'/', '?', '#'}, tail))
  {
    var s3 := "]" + tail;
    var s2 := ['\\', '#'] + s3;
    var s1 := ['\\', '?'] + s2;
    assert "/\\?\\#]" + tail == ['/'] + s1;
    assert s3[1..] == tail;
    ReadsEscaped('#', s3, {}, tail);
    ReadsEscaped('?', s2, {'#'} + {}, tail);
    assert (['/'] + s1)[1..] == s1;
    assert {'/'} + ({'?'} + ({'#'} + {})) == {'/', '?', '#'};
  }

  lemma ReadsEscaped(c: char, s: string, members: set<char>, tail: string)
    requires !IsWord(c) && ReadClass(s) == Some((members, tail))
    ensures ReadClass(['\\', c] + s) == Some(({c} + members, tail))
  {
    assert (['\\', c] + s)[2..] == s;
  }

  lemma ReadsGroup(s: string)
    ensures ReadGroup(GROUP + s) == Some(({'/', '?', '#'}, s))
  {
    var tail := "+)" + s;
    assert GROUP + s == "([^" + ("/\\?\\#]" + tail);
    assert (GROUP + s)[3..] == "/\\?\\#]" + tail;
    ReadsClass(tail);
    assert tail[2..] == s;
  }

  lemma ReadOne(t: Token, s: string)
    ensures ReadNodes(RenderOne(t) + s) == Cons(NodeOf(t), ReadNodes(s))
  {
    var r := RenderOne(t) + s;
    match t
    case Var(_) =>
      assert r[0] == '(';
      ReadsGroup(s);
    case Lit(c) =>
      if IsMeta(c) {
        assert r[0] == '\\' && r[1] == c && r[2..] == s;
      } else {
        assert r[0] == c && r[1..] == s;
        assert !IsSyntax(c);
      }
  }

  /** The pattern, read by its characters, is the meaning of the tokens: one group
      per variable, excluding exactly '/', '?' and '#', and one character per
      literal, so escaping leaves no other group. */
  lemma {:induction false} PatternReadsBack(ts: seq<Token>)
    ensures ReadPattern("^" + Render(ts) + "$") == Some(Nodes(ts))
    ensures ReadNodes(Render(ts) + "$") == Some(Nodes(ts))
    decreases |ts|
  {
    Seqs.Assoc("^", Render(ts), "$");
    Seqs.Cons('^', Render(ts) + "$");
    if ts == [] {
      Seqs.Units("$");
    } else {
      var rest := Render(ts[1..]) + "$";
      PatternReadsBack(ts[1..]);
      Seqs.Assoc(RenderOne(ts[0]), Render(ts[1..]), "$");
      ReadOne(ts[0], rest);
      assert Nodes(ts) == [Nodes(ts)[0]] + Nodes(ts[1..]);
    }
  }

  // ------------------------------------------------------------ name collector

  /** What the second loop collects; it also accumulates literal text. */
  function Names(tpl: string, text: string): seq<string> {
    if tpl == "" then []
    else if tpl[0] == '{' then Names(tpl[1..], "")
    else if tpl[0] == '}' then (if text != "" then [text] else []) + Names(tpl[1..], "")
    else if text != "" || IsWord(tpl[0]) then Names(tpl[1..], text + [tpl[0]])
    else Names(tpl[1..], text)
  }

  method CollectNames(tpl: string) returns (names: seq<string>)
    ensures names == Names(tpl, "")
  {
    names := [];
    var name := "";
    for i := 0 to |tpl|
      invariant names + Names(tpl[i..], name) == Names(tpl, "")
    {
      var c := tpl[i];
      assert tpl[i..][0] == c && tpl[i..][1..] == tpl[i + 1..];
      if c == '{' {
        name := "";
      } else if c == '}' {
        if name != "" { names := names + [name]; }
        name := "";
      } else if name != "" || IsWord(c) {
        name := name + [c];
      }
    }
    assert tpl[|tpl|..] == "";
  }

  function VarNames(ts: seq<Token>): seq<string> {
    if ts == [] then []
    else (if ts[0].Var? then [ts[0].name] else []) + VarNames(ts[1..])
  }

  // -------------------------------------------------------- the scanners agree

  predicate StartsWithWord(s: string) {
    s != "" && IsWord(s[0])
  }

  predicate HasWord(s: string) {
    exists i :: 0 <= i < |s| && IsWord(s[i])
  }

  /** The templates on which the two loops agree: every variable is empty or
      starts with a word character, and a stray '}' has no word character
      between it and the brace before it. */
  predicate Aligned(tpl: string, inVar: bool, text: string) {
    if tpl == "" then true
    else if tpl[0] == '{' then Aligned(tpl[1..], true, "")
    else if tpl[0] == '}' then
      (if inVar then text == "" || StartsWithWord(text) else !HasWord(text)) && Aligned(tpl[1..], false, "")
    else Aligned(tpl[1..], inVar, text + [tpl[0]])
  }

  /** What each loop records at one '}'. */
  datatype Closing = Closing(built: Option<string>, collected: Option<string>)

  function NonEmpty(s: string): Option<string> {
    if s == "" then None else Some(s)
  }

  /** The collector's text: the text since the last brace from its first word
      character on. */
  function FromWord(s: string): string {
    if s == "" || IsWord(s[0]) then s else FromWord(s[1..])
  }

  function Closings(tpl: string, inVar: bool, text: string): seq<Closing> {
    if tpl == "" then []
    else if tpl[0] == '{' then Closings(tpl[1..], true, "")
    else if tpl[0] == '}' then
      [Closing(if inVar then NonEmpty(text) else None, NonEmpty(FromWord(text)))] + Closings(tpl[1..], false, "")
    else Closings(tpl[1..], inVar, text + [tpl[0]])
  }

  function Built(cs: seq<Closing>): seq<string> {
    if cs == [] then []
    else (if cs[0].built.Some? then [cs[0].built.value] else []) + Built(cs[1..])
  }

  function Collected(cs: seq<Closing>): seq<string> {
    if cs == [] then []
    else (if cs[0].collected.Some? then [cs[0].collected.value] else []) + Collected(cs[1..])
  }

  lemma {:induction false} FromWordShape(s: string)
    ensures FromWord(s) == "" <==> !HasWord(s)
    ensures FromWord(s) != "" ==> StartsWithWord(FromWord(s))
    ensures FromWord(s) == s <==> s == "" || StartsWithWord(s)
    ensures |FromWord(s)| <= |s|
  {
    if s != "" && !IsWord(s[0]) {
      FromWordShape(s[1..]);
      assert forall i :: 1 <= i < |s| ==> s[i] == s[1..][i - 1];
    }
  }

  lemma {:induction false} FromWordAppend(s: string, c: char)
    ensures FromWord(s + [c]) == if FromWord(s) != "" || IsWord(c) then FromWord(s) + [c] else ""
  {
    if s == "" {
      assert s + [c] == [c] && [c][1..] == "";
    } else {
      assert (s + [c])[0] == s[0] && (s + [c])[1..] == s[1..] + [c];
      if !IsWord(s[0]) { FromWordAppend(s[1..], c); }
    }
  }

  lemma {:induction false} BuiltAreVars(tpl: string, inVar: bool, text: string)
    ensures VarNames(Tokens(tpl, inVar, if inVar then text else "")) == Built(Closings(tpl, inVar, text))
    decreases |tpl|
  {
    if tpl != "" {
      var rest := tpl[1..];
      if tpl[0] == '{' {
        BuiltAreVars(rest, true, "");
      } else if tpl[0] == '}' {
        BuiltAreVars(rest, false, "");
        var ts := Tokens(rest, false, "");
        if inVar && text != "" { assert ([Var(text)] + ts)[1..] == ts; } else { assert [] + ts == ts; }
      } else {
        BuiltAreVars(rest, inVar, text + [tpl[0]]);
        if !inVar {
          var ts := Tokens(rest, false, "");
          assert ([Lit(tpl[0])] + ts)[1..] == ts;
        }
      }
    }
  }

  lemma {:induction false} CollectedAreNames(tpl: string, inVar: bool, text: string)
    ensures Names(tpl, FromWord(text)) == Collected(Closings(tpl, inVar, text))
    decreases |tpl|
  {
    if tpl != "" {
      if tpl[0] == '{' {
        CollectedAreNames(tpl[1..], true, "");
      } else if tpl[0] == '}' {
        CollectedAreNames(tpl[1..], false, "");
      } else {
        CollectedAreNames(tpl[1..], inVar, text + [tpl[0]]);
        FromWordAppend(text, tpl[0]);
      }
    }
  }

  predicate ClosingOk(k: Closing) {
    && (k.collected.Some? ==> StartsWithWord(k.collected.value))
    && (k.built.Some? && StartsWithWord(k.built.value) ==> k.collected == k.built)
  }

  ghost predicate AllOk(cs: seq<Closing>) {
    forall i :: 0 <= i < |cs| ==> ClosingOk(cs[i])
  }

  ghost predicate AllPaired(cs: seq<Closing>) {
    forall i :: 0 <= i < |cs| ==> cs[i].built == cs[i].collected
  }

  lemma ConsClosing(k: Closing, cs: seq<Closing>)
    ensures AllOk([k] + cs) <==> ClosingOk(k) && AllOk(cs)
    ensures AllPaired([k] + cs) <==> k.built == k.collected && AllPaired(cs)
  {
    var all := [k] + cs;
    assert all[0] == k;
    assert forall i :: 0 <= i < |cs| ==> cs[i] == all[i + 1];
    assert forall i :: 1 <= i < |all| ==> all[i] == cs[i - 1];
  }

  lemma {:induction false} ClosingsOk(tpl: string, inVar: bool, text: string)
    ensures AllOk(Closings(tpl, inVar, text))
    ensures Aligned(tpl, inVar, text) <==> AllPaired(Closings(tpl, inVar, text))
    decreases |tpl|
  {
    if tpl != "" {
      if tpl[0] == '{' {
        ClosingsOk(tpl[1..], true, "");
      } else if tpl[0] == '}' {
        ClosingsOk(tpl[1..], false, "");
        FromWordShape(text);
        ConsClosing(Closing(if inVar then NonEmpty(text) else None, NonEmpty(FromWord(text))),
                    Closings(tpl[1..], false, ""));
      } else {
        ClosingsOk(tpl[1..], inVar, text + [tpl[0]]);
      }
    }
  }

  lemma {:induction false} EqualWhenPaired(cs: seq<Closing>)
    requires AllPaired(cs)
    ensures Built(cs) == Collected(cs)
    decreases |cs|
  {
    if cs != [] { EqualWhenPaired(cs[1..]); }
  }

  lemma {:induction false} CollectedStartWithWord(cs: seq<Closing>)
    requires AllOk(cs)
    ensures forall x :: x in Collected(cs) ==> StartsWithWord(x)
    decreases |cs|
  {
    if cs != [] { CollectedStartWithWord(cs[1..]); }
  }

  lemma {:induction false} BuiltMember(cs: seq<Closing>, i: nat)
    requires i < |cs| && cs[i].built.Some?
    ensures cs[i].built.value in Built(cs)
    decreases |cs|
  {
    if i > 0 { BuiltMember(cs[1..], i - 1); }
  }

  /** With word-initial variables the collector finds each of them, and more
      exactly at the stray braces. */
  lemma {:induction false} CollectsMore(cs: seq<Closing>)
    requires AllOk(cs)
    requires forall i :: 0 <= i < |cs| && cs[i].built.Some? ==> StartsWithWord(cs[i].built.value)
    ensures |Built(cs)| <= |Collected(cs)|
    ensures |Built(cs)| == |Collected(cs)| ==> AllPaired(cs)
    decreases |cs|
  {
    if cs != [] {
      CollectsMore(cs[1..]);
      assert ClosingOk(cs[0]);
      assert forall i :: 1 <= i < |cs| ==> cs[i] == cs[1..][i - 1];
    }
  }

  lemma PairedWhenEqual(cs: seq<Closing>)
    requires AllOk(cs)
    requires Built(cs) == Collected(cs)
    ensures AllPaired(cs)
  {
    CollectedStartWithWord(cs);
    forall i | 0 <= i < |cs| && cs[i].built.Some? ensures StartsWithWord(cs[i].built.value) {
      BuiltMember(cs, i);
    }
    CollectsMore(cs);
  }

  /** The names align with the capture groups if and only if the template is
      one of the aligned ones, for every template whatsoever. */
  lemma ScannersAgreeExact(tpl: string)
    ensures Names(tpl, "") == VarNames(Tokens(tpl, false, "")) <==> Aligned(tpl, false, "")
  {
    var cs := Closings(tpl, false, "");
    BuiltAreVars(tpl, false, "");
    CollectedAreNames(tpl, false, "");
    ClosingsOk(tpl, false, "");
    if Aligned(tpl, false, "") { EqualWhenPaired(cs); }
    if Built(cs) == Collected(cs) { PairedWhenEqual(cs); }
  }

  // ------------------------------------------------------------------ matching

  /** The same, with the class of the groups left out. */
  datatype Atom = Char(c: char) | Group

  function Shape(ts: seq<Token>): (atoms: seq<Atom>)
    ensures |atoms| == |ts|
    ensures forall i :: 0 <= i < |ts| ==> atoms[i] == if ts[i].Lit? then Char(ts[i].c) else Group
  {
    seq(|ts|, i requires 0 <= i < |ts| => if ts[i].Lit? then Char(ts[i].c) else Group)
  }

  predicate IsStop(c: char) {
    c == '/' || c == '?' || c == '#'
  }

  predicate ValueOk(v: string) {
    v != "" && forall i :: 0 <= i < |v| ==> !IsStop(v[i])
  }

  /** The groups `vs` are a way for the atoms to match all of s. */
  predicate Matches(atoms: seq<Atom>, s: string, vs: seq<string>)
    decreases |atoms|
  {
    if atoms == [] then s == "" && vs == []
    else if atoms[0].Char? then s != "" && s[0] == atoms[0].c && Matches(atoms[1..], s[1..], vs)
    else vs != [] && ValueOk(vs[0]) && vs[0] <= s && Matches(atoms[1..], s[|vs[0]|..], vs[1..])
  }

  /** On the patterns of templates this is regex_match. */
  lemma {:induction false} MatchesIsRegex(ts: seq<Token>, s: string, vs: seq<string>)
    ensures RegexMatches(Nodes(ts), s, vs) <==> Matches(Shape(ts), s, vs)
    decreases |ts|
  {
    if ts != [] {
      assert Nodes(ts)[1..] == Nodes(ts[1..]) && Shape(ts)[1..] == Shape(ts[1..]);
      if ts[0].Lit? {
        if s != "" { MatchesIsRegex(ts[1..], s[1..], vs); }
      } else if vs != [] && vs[0] <= s {
        MatchesIsRegex(ts[1..], s[|vs[0]|..], vs[1..]);
      }
    }
  }

  /** Simple string expansion: RFC 6570 section 3.2.2 without encoding. */
  function Fill(atoms: seq<Atom>, vs: seq<string>): string {
    if atoms == [] then ""
    else if atoms[0].Char? then [atoms[0].c] + Fill(atoms[1..], vs)
    else if vs == [] then Fill(atoms[1..], [])
    else vs[0] + Fill(atoms[1..], vs[1..])
  }

  function Groups(atoms: seq<Atom>): nat {
    if atoms == [] then 0 else (if atoms[0].Group? then 1 else 0) + Groups(atoms[1..])
  }

  ghost predicate Values(vs: seq<string>) {
    forall i :: 0 <= i < |vs| ==> ValueOk(vs[i])
  }

  /** Matching is the inverse of expansion. */
  lemma {:induction false} MatchesIsFill(atoms: seq<Atom>, s: string, vs: seq<string>)
    ensures Matches(atoms, s, vs) <==> |vs| == Groups(atoms) && Values(vs) && s == Fill(atoms, vs)
    decreases |atoms|
  {
    if atoms != [] {
      if atoms[0].Char? {
        if s != "" { MatchesIsFill(atoms[1..], s[1..], vs); }
        assert s == Fill(atoms, vs) <==> s != "" && s[0] == atoms[0].c && s[1..] == Fill(atoms[1..], vs);
      } else if vs != [] {
        var v, more := vs[0], Fill(atoms[1..], vs[1..]);
        assert s == v + more <==> v <= s && s[|v|..] == more;
        if v <= s { MatchesIsFill(atoms[1..], s[|v|..], vs[1..]); }
        assert Values(vs) <==> ValueOk(v) && Values(vs[1..]) by {
          assert forall i :: 0 <= i < |vs[1..]| ==> vs[1..][i] == vs[i + 1];
          assert forall i :: 1 <= i < |vs| ==> vs[i] == vs[1..][i - 1];
        }
      }
    }
  }

  // ---------------------------------------------------------------- uniqueness

  /** At most one variable between any two of the characters '/', '?', '#'. */
  predicate OnePerSegment(atoms: seq<Atom>, seen: bool) {
    if atoms == [] then true
    else if atoms[0].Group? then !seen && OnePerSegment(atoms[1..], true)
    else OnePerSegment(atoms[1..], seen && !IsStop(atoms[0].c))
  }

  ghost predicate UniqueMatch(atoms: seq<Atom>) {
    forall s, vs, ws :: Matches(atoms, s, vs) && Matches(atoms, s, ws) ==> vs == ws
  }

  /** Where the current segment of s ends. */
  function SegmentEnd(s: string): nat {
    if s == "" || IsStop(s[0]) then 0 else 1 + SegmentEnd(s[1..])
  }

  function LiteralRun(atoms: seq<Atom>): nat {
    if atoms == [] || atoms[0].Group? || IsStop(atoms[0].c) then 0 else 1 + LiteralRun(atoms[1..])
  }

  lemma {:induction false} RunEndsSegment(atoms: seq<Atom>, s: string, vs: seq<string>)
    requires OnePerSegment(atoms, true) && Matches(atoms, s, vs)
    ensures SegmentEnd(s) == LiteralRun(atoms)
    decreases |atoms|
  {
    if atoms != [] && !IsStop(atoms[0].c) {
      RunEndsSegment(atoms[1..], s[1..], vs);
    }
  }

  lemma {:induction false} ValueThenSegment(v: string, s: string)
    requires forall i :: 0 <= i < |v| ==> !IsStop(v[i])
    ensures SegmentEnd(v + s) == |v| + SegmentEnd(s)
    decreases |v|
  {
    if v == "" {
      assert v + s == s;
    } else {
      assert (v + s)[0] == v[0] && (v + s)[1..] == v[1..] + s;
      ValueThenSegment(v[1..], s);
    }
  }

  lemma {:induction false} MatchUnique(atoms: seq<Atom>, seen: bool, s: string, vs: seq<string>, ws: seq<string>)
    requires OnePerSegment(atoms, seen) && Matches(atoms, s, vs) && Matches(atoms, s, ws)
    ensures vs == ws
    decreases |atoms|
  {
    if atoms != [] {
      if atoms[0].Char? {
        MatchUnique(atoms[1..], seen && !IsStop(atoms[0].c), s[1..], vs, ws);
      } else {
        var v, w := vs[0], ws[0];
        RunEndsSegment(atoms[1..], s[|v|..], vs[1..]);
        RunEndsSegment(atoms[1..], s[|w|..], ws[1..]);
        ValueThenSegment(v, s[|v|..]);
        ValueThenSegment(w, s[|w|..]);
        assert s == v + s[|v|..] && s == w + s[|w|..];
        assert v == s[..|v|] && w == s[..|w|];
        MatchUnique(atoms[1..], true, s[|v|..], vs[1..], ws[1..]);
      }
    }
  }
}
