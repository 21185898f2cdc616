/** Template matching undoes expansion, and exactly when it is unambiguous. */
module UriTemplateTheorems {
  import opened UriTemplate
  import Seqs

  // ----------------------------------------------------------------- ambiguity

  function Literals(w: string): seq<Atom> {
    seq(|w|, i requires 0 <= i < |w| => Char(w[i]))
  }

  lemma {:induction false} FillLiterals(w: string, atoms: seq<Atom>, vs: seq<string>)
    ensures Fill(Literals(w) + atoms, vs) == w + Fill(atoms, vs)
    ensures Groups(Literals(w) + atoms) == Groups(atoms)
    decreases |w|
  {
    var all := Literals(w) + atoms;
    if w == "" {
      assert all == atoms;
    } else {
      assert all[0] == Char(w[0]) && all[1..] == Literals(w[1..]) + atoms;
      FillLiterals(w[1..], atoms, vs);
      assert [w[0]] + (w[1..] + Fill(atoms, vs)) == w + Fill(atoms, vs);
    }
  }

  /** Two variables meet in one segment: some literal text, then a group. */
  lemma {:induction false} SecondGroup(atoms: seq<Atom>) returns (w: string, rest: seq<Atom>)
    requires OnePerSegment(atoms, false) && !OnePerSegment(atoms, true)
    ensures atoms == Literals(w) + [Group] + rest
    ensures forall i :: 0 <= i < |w| ==> !IsStop(w[i])
    decreases |atoms|
  {
    if atoms[0].Group? {
      w, rest := "", atoms[1..];
    } else {
      w, rest := SecondGroup(atoms[1..]);
      assert atoms == [atoms[0]] + (Literals(w) + [Group] + rest);
      w := [atoms[0].c] + w;
      assert Literals(w) == [atoms[0]] + Literals(w[1..]);
    }
  }

  function Ones(n: nat): seq<string> {
    seq(n, _ => "a")
  }

  lemma FillTwo(w: string, rest: seq<Atom>, x: string, y: string)
    requires ValueOk(x) && ValueOk(y)
    ensures Matches([Group] + (Literals(w) + [Group] + rest),
                    x + w + y + Fill(rest, Ones(Groups(rest))), [x, y] + Ones(Groups(rest)))
  {
    var ones := Ones(Groups(rest));
    var r := Fill(rest, ones);
    var second := [Group] + rest;
    var all := [Group] + (Literals(w) + second);
    assert second[1..] == rest && ([y] + ones)[1..] == ones;
    assert Fill(second, [y] + ones) == y + r;
    FillLiterals(w, second, [y] + ones);
    var vs := [x, y] + ones;
    assert all[1..] == Literals(w) + second && vs[1..] == [y] + ones;
    assert Fill(all, vs) == x + (w + (y + r)) == x + w + y + r;
    assert Literals(w) + second == Literals(w) + [Group] + rest;
    assert Values(vs);
    MatchesIsFill(all, x + w + y + r, vs);
  }

  lemma TwoWays(w: string, rest: seq<Atom>) returns (s: string, vs: seq<string>, ws: seq<string>)
    requires forall i :: 0 <= i < |w| ==> !IsStop(w[i])
    ensures var all := [Group] + (Literals(w) + [Group] + rest);
            Matches(all, s, vs) && Matches(all, s, ws) && vs != ws
  {
    var long := "a" + w + "a";
    var r := Fill(rest, Ones(Groups(rest)));
    s := "a" + w + long + r;
    assert s == long + w + "a" + r;
    FillTwo(w, rest, "a", long);
    FillTwo(w, rest, long, "a");
    vs := ["a", long] + Ones(Groups(rest));
    ws := [long, "a"] + Ones(Groups(rest));
    assert vs[0] == "a" && ws[0] == long;
  }

  lemma {:induction false} Ambiguous(atoms: seq<Atom>) returns (s: string, vs: seq<string>, ws: seq<string>)
    requires !OnePerSegment(atoms, false)
    ensures Matches(atoms, s, vs) && Matches(atoms, s, ws) && vs != ws
    decreases |atoms|
  {
    var rest := atoms[1..];
    if atoms[0].Char? {
      s, vs, ws := Ambiguous(rest);
      s := [atoms[0].c] + s;
      assert s[1..] == s[1..];
    } else if !OnePerSegment(rest, false) {
      var s', vs', ws' := Ambiguous(rest);
      s, vs, ws := "a" + s', ["a"] + vs', ["a"] + ws';
      assert s[|"a"|..] == s' && vs[1..] == vs' && ws[1..] == ws';
    } else {
      var w, more := SecondGroup(rest);
      assert atoms == [Group] + (Literals(w) + [Group] + more);
      s, vs, ws := TwoWays(w, more);
    }
  }

  /** A pattern matches every URI in at most one way if and only if no segment
      between '/', '?' and '#' holds two variables. */
  lemma UniqueExact(atoms: seq<Atom>)
    ensures UniqueMatch(atoms) <==> OnePerSegment(atoms, false)
  {
    if OnePerSegment(atoms, false) {
      forall s, vs, ws | Matches(atoms, s, vs) && Matches(atoms, s, ws) ensures vs == ws {
        MatchUnique(atoms, false, s, vs, ws);
      }
    } else {
      var s, vs, ws := Ambiguous(atoms);
    }
  }

  // ---------------------------------------------------------------- extraction

  /** Lines 822-824: names paired with groups, later names overwriting. */
  function Bind(names: seq<string>, groups: seq<string>): map<string, string> {
    if names == [] || groups == [] then map[]
    else map[names[0] := groups[0]] + Bind(names[1..], groups[1..])
  }

  method BindVariables(names: seq<string>, groups: seq<string>) returns (variables: map<string, string>)
    ensures variables == Bind(names, groups)
  {
    variables := map[];
    var i := 0;
    while i < |groups| && i < |names|
      invariant 0 <= i <= |names| && i <= |groups|
      invariant variables + Bind(names[i..], groups[i..]) == Bind(names, groups)
    {
      assert names[i..][1..] == names[i + 1..] && groups[i..][1..] == groups[i + 1..];
      ghost var rest := Bind(names[i + 1..], groups[i + 1..]);
      assert variables + (map[names[i] := groups[i]] + rest) == variables[names[i] := groups[i]] + rest;
      variables := variables[names[i] := groups[i]];
      i := i + 1;
    }
  }

  predicate Named(names: seq<string>, groups: seq<string>, n: string, i: int) {
    0 <= i < |names| && i < |groups| && names[i] == n
  }

  /** A name is bound exactly when it has a group, to the group of its last occurrence. */
  lemma {:induction false} BindExact(names: seq<string>, groups: seq<string>, n: string)
    ensures n in Bind(names, groups) <==> exists i :: Named(names, groups, n, i)
    ensures forall i :: Named(names, groups, n, i) && (forall j :: j > i ==> !Named(names, groups, n, j)) ==>
              Bind(names, groups)[n] == groups[i]
    decreases |names|
  {
    if names != [] && groups != [] {
      var ns, gs := names[1..], groups[1..];
      BindExact(ns, gs, n);
      assert forall i :: Named(ns, gs, n, i) ==> Named(names, groups, n, i + 1);
      assert forall i :: i > 0 && Named(names, groups, n, i) ==> Named(ns, gs, n, i - 1);
      assert Named(names, groups, n, 0) <==> names[0] == n;
      forall i | Named(names, groups, n, i) && forall j :: j > i ==> !Named(names, groups, n, j)
        ensures Bind(names, groups)[n] == groups[i]
      {
        if i > 0 {
          assert Named(ns, gs, n, i - 1) && gs[i - 1] == groups[i];
          assert forall j :: j > i - 1 ==> !Named(ns, gs, n, j);
        }
      }
    }
  }

  predicate Covers(env: map<string, string>, names: seq<string>) {
    forall i :: 0 <= i < |names| ==> names[i] in env && ValueOk(env[names[i]])
  }

  function Lookup(names: seq<string>, env: map<string, string>): seq<string>
    requires Covers(env, names)
  {
    seq(|names|, i requires 0 <= i < |names| => env[names[i]])
  }

  function Expand(ts: seq<Token>, env: map<string, string>): string
    requires Covers(env, VarNames(ts))
  {
    if ts == [] then ""
    else
      assert ts[0].Var? ==> VarNames(ts)[0] == ts[0].name;
      assert forall i :: 0 <= i < |VarNames(ts[1..])| ==>
        VarNames(ts[1..])[i] == VarNames(ts)[if ts[0].Var? then i + 1 else i];
      (if ts[0].Lit? then [ts[0].c] else env[ts[0].name]) + Expand(ts[1..], env)
  }

  lemma {:induction false} ExpandIsFill(ts: seq<Token>, env: map<string, string>)
    requires Covers(env, VarNames(ts))
    ensures Groups(Shape(ts)) == |VarNames(ts)|
    ensures Expand(ts, env) == Fill(Shape(ts), Lookup(VarNames(ts), env))
    decreases |ts|
  {
    if ts != [] {
      assert Shape(ts)[1..] == Shape(ts[1..]);
      var names, rest := VarNames(ts), VarNames(ts[1..]);
      assert ts[0].Var? ==> names == [ts[0].name] + rest;
      assert ts[0].Lit? ==> names == rest;
      assert Covers(env, rest) by {
        forall i | 0 <= i < |rest| ensures rest[i] in env && ValueOk(env[rest[i]]) {
          assert rest[i] == names[if ts[0].Var? then i + 1 else i];
        }
      }
      ExpandIsFill(ts[1..], env);
      if ts[0].Var? {
        assert Lookup(names, env)[1..] == Lookup(rest, env);
      } else {
        assert Lookup(names, env) == Lookup(rest, env);
      }
    }
  }

  lemma {:induction false} BindLookup(names: seq<string>, env: map<string, string>)
    requires Covers(env, names)
    ensures Bind(names, Lookup(names, env)) == map n | n in names :: env[n]
    decreases |names|
  {
    if names != [] {
      assert Lookup(names, env)[1..] == Lookup(names[1..], env);
      BindLookup(names[1..], env);
      assert forall n :: n in names <==> n == names[0] || n in names[1..];
    }
  }

  /** For every aligned template without two variables in a segment and every
      assignment of values free of '/', '?' and '#': the generated pattern
      matches the expanded URI, in one way, and the variables the handler
      receives are the ones that were put in. */
  lemma MatchUndoesExpansion(tpl: string, env: map<string, string>)
    requires var ts := Tokens(tpl, false, "");
             Aligned(tpl, false, "") && OnePerSegment(Shape(ts), false) && Covers(env, VarNames(ts))
    ensures var ts := Tokens(tpl, false, "");
            var pattern := ReadPattern("^" + Render(ts) + "$");
            var uri := Expand(ts, env);
            && pattern.Some?
            && RegexMatches(pattern.value, uri, Lookup(VarNames(ts), env))
            && forall groups :: RegexMatches(pattern.value, uri, groups) ==>
                 Bind(Names(tpl, ""), groups) == map n | n in VarNames(ts) :: env[n]
  {
    var ts := Tokens(tpl, false, "");
    var names, atoms, uri := VarNames(ts), Shape(ts), Expand(ts, env);
    var vs := Lookup(names, env);
    PatternReadsBack(ts);
    ExpandIsFill(ts, env);
    assert Values(vs);
    MatchesIsFill(atoms, uri, vs);
    ScannersAgreeExact(tpl);
    BindLookup(names, env);
    MatchesIsRegex(ts, uri, vs);
    forall groups | RegexMatches(Nodes(ts), uri, groups) ensures groups == vs {
      MatchesIsRegex(ts, uri, groups);
      MatchUnique(atoms, false, uri, vs, groups);
    }
  }

  /** The usual sufficient condition: every variable is followed by the end or
      by a literal '/', '?' or '#'. */
  predicate Separated(ts: seq<Token>) {
    forall i :: 0 <= i < |ts| && ts[i].Var? ==> i + 1 == |ts| || (ts[i + 1].Lit? && IsStop(ts[i + 1].c))
  }

  lemma {:induction false} SeparatedIsUnique(ts: seq<Token>, seen: bool)
    requires Separated(ts)
    requires seen && ts != [] ==> ts[0].Lit? && IsStop(ts[0].c)
    ensures OnePerSegment(Shape(ts), seen)
    decreases |ts|
  {
    if ts != [] {
      assert Shape(ts)[1..] == Shape(ts[1..]);
      assert forall i :: 0 <= i < |ts[1..]| ==> ts[1..][i] == ts[i + 1];
      SeparatedIsUnique(ts[1..], ts[0].Var?);
    }
  }

  // ----------------------------------------------------- well-formed templates

  /** Names and literals as in sections 2.1 and 2.3 of RFC 6570, with balanced braces. */
  predicate TokenOk(t: Token) {
    match t
    case Lit(c) => !IsBrace(c)
    case Var(name) => name != "" && IsWord(name[0]) && forall i :: 0 <= i < |name| ==> !IsBrace(name[i])
  }

  predicate WellFormed(ts: seq<Token>) {
    forall i :: 0 <= i < |ts| ==> TokenOk(ts[i])
  }

  /** The template text of literals and variables. */
  function Source(ts: seq<Token>): string {
    if ts == [] then ""
    else (match ts[0] case Lit(c) => [c] case Var(name) => ['{'] + (name + ['}'])) + Source(ts[1..])
  }

  lemma {:induction false} ScanName(name: string, rest: string, acc: string)
    requires forall i :: 0 <= i < |name| ==> !IsBrace(name[i])
    requires StartsWithWord(acc + name)
    ensures Tokens(name + ['}'] + rest, true, acc) == [Var(acc + name)] + Tokens(rest, false, "")
    ensures Aligned(name + ['}'] + rest, true, acc) == Aligned(rest, false, "")
    decreases |name|
  {
    var s := name + ['}'] + rest;
    if name == "" {
      assert s[0] == '}' && s[1..] == rest && acc + name == acc;
    } else {
      assert s[0] == name[0] && s[1..] == name[1..] + ['}'] + rest;
      assert acc + [name[0]] + name[1..] == acc + name;
      ScanName(name[1..], rest, acc + [name[0]]);
    }
  }

  lemma SourceVar(name: string, rest: string)
    ensures ['{'] + (name + ['}']) + rest == ['{'] + (name + ['}'] + rest)
  {
  }

  /** Scanning undoes printing, and both scanners agree on every well-formed template. */
  lemma {:induction false} ScanUndoesSource(ts: seq<Token>, text: string)
    requires WellFormed(ts)
    ensures Tokens(Source(ts), false, "") == ts && Aligned(Source(ts), false, text)
    decreases |ts|
  {
    if ts != [] {
      var rest := Source(ts[1..]);
      Seqs.Uncons(ts);
      match ts[0]
      case Lit(c) =>
        Seqs.Cons(c, rest);
        ScanUndoesSource(ts[1..], "");
        ScanUndoesSource(ts[1..], text + [c]);
      case Var(name) =>
        SourceVar(name, rest);
        Seqs.Cons('{', name + ['}'] + rest);
        Seqs.Units(name);
        ScanName(name, rest, "");
        ScanUndoesSource(ts[1..], "");
    }
  }

  /**
   * The promise for well-formed templates whose variables end at the end of the
   * template or at a '/', '?' or '#': matching undoes expansion.
   */
  lemma WellFormedRoundTrip(ts: seq<Token>, env: map<string, string>, groups: seq<string>)
    requires WellFormed(ts) && Separated(ts) && Covers(env, VarNames(ts))
    ensures var pattern := ReadPattern("^" + Render(Tokens(Source(ts), false, "")) + "$");
            && pattern.Some?
            && (RegexMatches(pattern.value, Expand(ts, env), groups) <==> groups == Lookup(VarNames(ts), env))
            && Bind(Names(Source(ts), ""), Lookup(VarNames(ts), env)) == map n | n in VarNames(ts) :: env[n]
  {
    ScanUndoesSource(ts, "");
    SeparatedIsUnique(ts, false);
    MatchUndoesExpansion(Source(ts), env);
    PatternReadsBack(ts);
    MatchesIsRegex(ts, Expand(ts, env), groups);
    MatchesIsRegex(ts, Expand(ts, env), Lookup(VarNames(ts), env));
    if Matches(Shape(ts), Expand(ts, env), groups) {
      MatchUnique(Shape(ts), false, Expand(ts, env), groups, Lookup(VarNames(ts), env));
    }
  }
}
