/**
 * The client's SSE reader on a stream of frames that the network cuts anywhere:
 * a read ends the line it stops in, so a cut acts as a newline.
 */
module SseChunks {
  import opened SseFraming
  import opened SseTheorems
  import Seqs

  // ---------------------------------------------------------- cuts are newlines

  lemma SplitFirst(a: string) returns (line: string, rest: string)
    requires '\n' in a
    ensures a == line + "\n" + rest && '\n' !in line && |rest| < |a| && (EndsLine(rest) ==> EndsLine(a))
  {
    var k :| 0 <= k < |a| && a[k] == '\n';
    NewlineBefore(a, k);
    var n := Newline(a);
    line, rest := a[..n], a[n + 1..];
  }

  lemma {:induction false} UnfinishedSame(r: Reader, a: string)
    requires !EndsLine(a)
    ensures Read(r, a + "\n") == Read(r, a)
    decreases |a|
  {
    if '\n' !in a {
      ReadUnfinished(r, a);
      Seqs.Units(a + "\n");
      ReadLine(r, a, "");
    } else {
      var line, rest := SplitFirst(a);
      Seqs.Shift(line, "\n", rest, "\n");
      ReadLine(r, line, rest);
      ReadLine(r, line, rest + "\n");
      UnfinishedSame(FeedLine(r, line), rest);
    }
  }

  /** The chunks in a row, each unfinished one ended. */
  function Glue(chunks: seq<string>): string {
    if chunks == [] then ""
    else if |chunks| == 1 then chunks[0]
    else chunks[0] + (if EndsLine(chunks[0]) then "" else "\n") + Glue(chunks[1..])
  }

  lemma {:induction false} GlueReads(r: Reader, chunks: seq<string>)
    ensures ReadAll(r, chunks) == Read(r, Glue(chunks))
    decreases |chunks|
  {
    if |chunks| == 1 {
      assert ReadAll(Read(r, chunks[0]), chunks[1..]) == Read(r, chunks[0]);
    } else if chunks != [] {
      var a, rest := chunks[0], Glue(chunks[1..]);
      GlueReads(Read(r, a), chunks[1..]);
      if EndsLine(a) {
        Seqs.Units(a);
        ReadSplit(r, a, rest);
      } else {
        UnfinishedSame(r, a);
        ReadSplit(r, a + "\n", rest);
      }
    }
  }

  /** The text with a newline at every cut that is not at the start of a line. */
  function Patch(start: bool, text: string, cuts: set<nat>, off: nat): string
    decreases |text|
  {
    if text == "" then ""
    else (if off in cuts && !start then "\n" else "") + ([text[0]] + Patch(text[0] == '\n', text[1..], cuts, off + 1))
  }

  predicate StartAfter(start: bool, a: string) {
    if a == "" then start else a[|a| - 1] == '\n'
  }

  lemma {:induction false} PatchConcat(start: bool, a: string, b: string, cuts: set<nat>, off: nat)
    ensures Patch(start, a + b, cuts, off)
            == Patch(start, a, cuts, off) + Patch(StartAfter(start, a), b, cuts, off + |a|)
    decreases |a|
  {
    if a == "" {
      Seqs.Units(b);
      Seqs.Units(Patch(start, b, cuts, off));
    } else {
      var lead := if off in cuts && !start then "\n" else "";
      assert (a + b)[0] == a[0] && (a + b)[1..] == a[1..] + b;
      PatchConcat(a[0] == '\n', a[1..], b, cuts, off + 1);
      var p, q := Patch(a[0] == '\n', a[1..], cuts, off + 1), Patch(StartAfter(start, a), b, cuts, off + |a|);
      Seqs.Assoc(lead, [a[0]] + p, q);
      Seqs.Assoc([a[0]], p, q);
    }
  }

  lemma {:induction false} PatchNone(start: bool, a: string, cuts: set<nat>, off: nat)
    requires start || off !in cuts || a == ""
    requires forall k :: off < k < off + |a| ==> k !in cuts
    ensures Patch(start, a, cuts, off) == a
    decreases |a|
  {
    if a != "" {
      PatchNone(a[0] == '\n', a[1..], cuts, off + 1);
      Seqs.Uncons(a);
      Seqs.Units(a);
    }
  }

  lemma PatchCut(text: string, cuts: set<nat>, off: nat)
    requires text != "" && off in cuts
    ensures Patch(false, text, cuts, off) == "\n" + Patch(true, text, cuts, off)
  {
    Seqs.Units([text[0]] + Patch(text[0] == '\n', text[1..], cuts, off + 1));
  }

  /** Where the chunks were cut. */
  function Cuts(chunks: seq<string>, off: nat): set<nat> {
    if |chunks| <= 1 then {}
    else {off + |chunks[0]|} + Cuts(chunks[1..], off + |chunks[0]|)
  }

  lemma {:induction false} CutsAfter(chunks: seq<string>, off: nat)
    ensures forall k :: k in Cuts(chunks, off) ==> k >= off + (if chunks == [] then 0 else |chunks[0]|)
    decreases |chunks|
  {
    if |chunks| > 1 {
      CutsAfter(chunks[1..], off + |chunks[0]|);
    }
  }

  lemma EndsLater(a: string, b: string)
    requires EndsLine(a + b)
    ensures EndsLine(b) && (b == "" ==> EndsLine(a))
  {
    if b == "" {
      Seqs.Units(a);
    } else {
      assert (a + b)[|a + b| - 1] == b[|b| - 1];
    }
  }

  lemma PatchChunk(a: string, b: string, cuts: set<nat>, off: nat)
    requires EndsLine(a + b) && (forall k :: off < k < off + |a| ==> k !in cuts)
    requires !EndsLine(a) ==> off + |a| in cuts
    ensures Patch(true, a + b, cuts, off)
            == a + (if EndsLine(a) then "" else "\n") + Patch(true, b, cuts, off + |a|)
  {
    PatchBoth(a, b, cuts, off);
    if EndsLine(a) {
      Seqs.Units(a);
    } else {
      EndsLater(a, b);
      PatchCut(b, cuts, off + |a|);
      Seqs.Assoc(a, "\n", Patch(true, b, cuts, off + |a|));
    }
  }

  lemma PatchBoth(a: string, b: string, cuts: set<nat>, off: nat)
    requires forall k :: off < k < off + |a| ==> k !in cuts
    ensures Patch(true, a + b, cuts, off) == a + Patch(EndsLine(a), b, cuts, off + |a|)
  {
    PatchNone(true, a, cuts, off);
    PatchConcat(true, a, b, cuts, off);
  }

  lemma {:induction false} GlueIsPatch(chunks: seq<string>, cuts: set<nat>, off: nat)
    requires EndsLine(Join(chunks))
    requires forall k :: k > off ==> (k in cuts <==> k in Cuts(chunks, off))
    ensures Glue(chunks) == Patch(true, Join(chunks), cuts, off)
    decreases |chunks|
  {
    if |chunks| == 1 {
      Seqs.Units(chunks[0]);
      assert chunks[1..] == [];
      PatchNone(true, chunks[0], cuts, off);
    } else if chunks != [] {
      var a, rest := chunks[0], chunks[1..];
      CutsAfter(chunks, off);
      CutsAfter(rest, off + |a|);
      PatchChunk(a, Join(rest), cuts, off);
      EndsLater(a, Join(rest));
      GlueIsPatch(rest, cuts, off + |a|);
    }
  }

  // -------------------------------------------------------- texts of joined data

  lemma {:induction false} TextsConcat(a: string, d: string)
    requires '\n' !in d
    ensures Texts(a + "\n" + d) == Texts(a) + LineTexts(d)
    decreases |a|
  {
    TextsOfLine(d);
    if '\n' !in a {
      TextsOfLine(a);
      FirstLine(a, d);
    } else {
      var line, rest := SplitFirst(a);
      Seqs.Shift(line, "\n", rest, "\n" + d);
      Seqs.Assoc(a, "\n", d);
      Seqs.Assoc(rest, "\n", d);
      FirstLine(line, rest);
      FirstLine(line, rest + "\n" + d);
      TextsConcat(rest, d);
      Seqs.Assoc(LineTexts(line), Texts(rest), LineTexts(d));
    }
  }

  lemma TextsJoined(a: string, d: string)
    requires '\n' !in d
    ensures Texts(JoinData(a, d)) == Texts(a) + LineTexts(d)
  {
    if a == "" {
      TextsOfLine(d);
      Seqs.Units(LineTexts(d));
    } else {
      TextsConcat(a, d);
    }
  }

  // --------------------------------------------------------- a line cut to pieces

  predicate AllShort(texts: seq<string>, limit: nat) {
    forall t :: t in texts ==> |t| < limit
  }

  /** Since `base`, only short texts were parsed, and only short ones wait. */
  ghost predicate OnlyShort(r: Reader, base: seq<string>, limit: nat) {
    base <= r.parsed && AllShort(r.parsed[|base|..], limit) && AllShort(Texts(r.data), limit)
  }

  lemma BlankShort(r: Reader, base: seq<string>, limit: nat)
    requires OnlyShort(r, base, limit)
    ensures OnlyShort(FeedLine(r, ""), base, limit) && FeedLine(r, "").data == ""
  {
    var more := Texts(r.data);
    assert (r.parsed + more)[|base|..] == r.parsed[|base|..] + more;
  }

  /** A first piece of a data line that is not all of it, and a later piece,
      contribute only short data. */
  lemma HeadPiece(p: string, j: nat)
    requires Clean(p) && 0 < j < 6 + |p|
    ensures var l := StripCr(("data: " + p)[..j]);
            StartsWith(l, "data:") ==> '\n' !in StripSpaces(l[5..]) && |StripSpaces(l[5..])| < |p|
  {
    if j >= 6 {
      assert ("data: " + p)[..j] == "data: " + p[..j - 6];
      StripCrOf("data: ", p[..j - 6]);
      StrippedShape(p[..j - 6]);
      DataAfterPrefix(StripCr(p[..j - 6]));
    } else {
      assert ("data: " + p)[..j] == "data: "[..j];
      StripCrShape("data: "[..j]);
    }
  }

  lemma DataAfterPrefix(q: string)
    ensures StripSpaces(("data: " + q)[5..]) == StripSpaces(q)
  {
    assert ("data: " + q)[5..] == " " + q && (" " + q)[1..] == q;
  }

  lemma TailPiece(p: string, i: nat, j: nat)
    requires Clean(p) && 0 < i < j <= 6 + |p|
    ensures var l := StripCr(("data: " + p)[i..j]);
            StartsWith(l, "data:") ==> '\n' !in StripSpaces(l[5..]) && |StripSpaces(l[5..])| < |p|
  {
    var whole := "data: " + p;
    var piece := whole[i..j];
    StripCrShape(piece);
    var l := StripCr(piece);
    if StartsWith(l, "data:") {
      assert l[0] == piece[0] == whole[i] && whole[1] == 'a';
      assert forall c :: c in l[5..] ==> c in whole;
      StripSpacesShape(l[5..]);
    }
  }

  lemma PieceStep(r: Reader, base: seq<string>, p: string, i: nat, j: nat)
    requires Clean(p) && i < j <= 6 + |p| && !(i == 0 && j == 6 + |p|) && OnlyShort(r, base, |p|)
    ensures OnlyShort(FeedLine(r, ("data: " + p)[i..j]), base, |p|)
  {
    var piece := ("data: " + p)[i..j];
    var l := StripCr(piece);
    if i == 0 {
      assert ("data: " + p)[0..j] == ("data: " + p)[..j];
      HeadPiece(p, j);
    } else {
      TailPiece(p, i, j);
    }
    BlankShort(r, base, |p|);
    if StartsWith(l, "data:") {
      var d := StripSpaces(l[5..]);
      TextsJoined(r.data, d);
      LineTextsShort(d);
    }
  }

  /** The rest of a line, of which the reader has seen a..i of the current piece. */
  function RestOfLine(line: string, cuts: set<nat>, off: nat, a: nat, i: nat): string
    requires a <= i <= |line|
  {
    line[a..i] + Patch(false, line[i..], cuts, off + i)
  }

  /** The pieces in which it will be read. */
  function Pieces(line: string, cuts: set<nat>, off: nat, a: nat, i: nat): seq<string>
    requires a <= i <= |line|
    decreases |line| - i
  {
    if i == |line| then [line[a..]]
    else if off + i in cuts then [line[a..i]] + Pieces(line, cuts, off, i, i + 1)
    else Pieces(line, cuts, off, a, i + 1)
  }

  lemma RestNext(line: string, cuts: set<nat>, off: nat, a: nat, i: nat)
    requires a <= i < |line| && '\n' !in line
    ensures RestOfLine(line, cuts, off, a, i) ==
            if off + i in cuts then line[a..i] + ("\n" + RestOfLine(line, cuts, off, i, i + 1))
            else RestOfLine(line, cuts, off, a, i + 1)
  {
    var after := Patch(false, line[i + 1..], cuts, off + i + 1);
    assert line[i..][0] == line[i] && line[i..][1..] == line[i + 1..];
    assert line[i] in line;
    assert line[i..i + 1] == [line[i]];
    Seqs.Units([line[i]] + after);
    assert line[a..i] + [line[i]] == line[a..i + 1];
    Seqs.Assoc(line[a..i], [line[i]], after);
  }

  lemma Regroup(piece: string, tail: string, rest: string)
    ensures piece + ("\n" + tail) + "\n" + rest == piece + "\n" + (tail + "\n" + rest)
  {
  }

  lemma FeedMore(r: Reader, line: string, more: seq<string>)
    ensures Feed(r, [line] + more) == Feed(FeedLine(r, line), more)
  {
    Seqs.Cons(line, more);
  }

  lemma {:induction false} PiecesRead(
      r: Reader, line: string, cuts: set<nat>, off: nat, a: nat, i: nat, rest: string)
    requires '\n' !in line && a <= i <= |line|
    ensures Read(r, RestOfLine(line, cuts, off, a, i) + "\n" + rest)
            == Read(Feed(r, Pieces(line, cuts, off, a, i)), rest)
    decreases |line| - i
  {
    assert '\n' !in line[a..i];
    if i == |line| {
      Seqs.Units(line[a..i]);
      assert line[i..] == "" && line[a..i] == line[a..];
      ReadLine(r, line[a..i], rest);
      FeedMore(r, line[a..], []);
    } else {
      RestNext(line, cuts, off, a, i);
      if off + i in cuts {
        var tail := RestOfLine(line, cuts, off, i, i + 1);
        ReadLine(r, line[a..i], tail + "\n" + rest);
        Regroup(line[a..i], tail, rest);
        PiecesRead(FeedLine(r, line[a..i]), line, cuts, off, i, i + 1, rest);
        FeedMore(r, line[a..i], Pieces(line, cuts, off, i, i + 1));
      } else {
        PiecesRead(r, line, cuts, off, a, i + 1, rest);
      }
    }
  }

  ghost predicate CutBetween(cuts: set<nat>, from: nat, to: nat) {
    exists k :: k in cuts && from <= k < to
  }

  lemma CutLater(cuts: set<nat>, from: nat, to: nat)
    requires CutBetween(cuts, from, to) && from !in cuts
    ensures CutBetween(cuts, from + 1, to)
  {
  }

  lemma {:induction false} PiecesShort(
      r: Reader, base: seq<string>, p: string, line: string, cuts: set<nat>, off: nat, a: nat, i: nat)
    requires Clean(p) && line == "data: " + p && a < i <= |line| && OnlyShort(r, base, |p|)
    requires a > 0 || CutBetween(cuts, off + i, off + |line|)
    ensures OnlyShort(Feed(r, Pieces(line, cuts, off, a, i)), base, |p|)
    decreases |line| - i
  {
    if i == |line| {
      assert line[a..i] == line[a..];
      PieceStep(r, base, p, a, i);
      FeedMore(r, line[a..], []);
    } else if off + i in cuts {
      PieceStep(r, base, p, a, i);
      PiecesShort(FeedLine(r, line[a..i]), base, p, line, cuts, off, i, i + 1);
      FeedMore(r, line[a..i], Pieces(line, cuts, off, i, i + 1));
    } else {
      if a == 0 { CutLater(cuts, off + i, off + |line|); }
      PiecesShort(r, base, p, line, cuts, off, a, i + 1);
    }
  }

  // ---------------------------------------------------------------- one frame

  /** A cut lies strictly inside the data line of the frame at `off`. */
  ghost predicate CutInside(p: string, cuts: set<nat>, off: nat) {
    CutBetween(cuts, off + 1, off + 6 + |p|)
  }

  /** The end of a frame: the newline of the data line and one or two blank lines. */
  lemma PatchEnd(cuts: set<nat>, off: nat)
    ensures Patch(false, "\n\n", cuts, off) == if off in cuts then "\n" + "\n\n" else "\n" + "\n"
  {
    assert "\n\n"[1..] == "\n" && "\n"[1..] == "";
    assert Patch(true, "\n", cuts, off + 1) == "\n";
    assert Patch(true, "", cuts, off + 2) == "";
  }

  lemma PatchFrame(p: string, cuts: set<nat>, off: nat) returns (blanks: string)
    requires '\n' !in p
    ensures blanks == "\n" || blanks == "\n\n"
    ensures Patch(true, Frame(p), cuts, off) == RestOfLine("data: " + p, cuts, off, 0, 1) + "\n" + blanks
  {
    var line := "data: " + p;
    assert Frame(p) == line + "\n\n";
    PatchConcat(true, line, "\n\n", cuts, off);
    PatchEnd(cuts, off + |line|);
    blanks := if off + |line| in cuts then "\n\n" else "\n";
    assert line[|line| - 1] != '\n' by { assert line[|line| - 1] in line; }
    FirstChar(line, cuts, off);
    Seqs.Assoc(Patch(true, line, cuts, off), "\n", blanks);
  }

  lemma FirstChar(line: string, cuts: set<nat>, off: nat)
    requires line != "" && line[0] != '\n'
    ensures Patch(true, line, cuts, off) == RestOfLine(line, cuts, off, 0, 1)
  {
    assert line[0..1] == [line[0]];
    Seqs.Units([line[0]] + Patch(false, line[1..], cuts, off + 1));
  }

  lemma BlanksRead(r: Reader, blanks: string)
    requires blanks == "\n" || blanks == "\n\n"
    ensures Read(r, blanks) == FeedLine(r, "")
  {
    assert "\n" == "" + "\n" + "" && "\n\n" == "" + "\n" + "\n";
    ReadLine(r, "", "");
    ReadLine(r, "", "\n");
    ReadLine(FeedLine(r, ""), "", "");
  }

  lemma FrameRead(r: Reader, p: string, cuts: set<nat>, off: nat)
    requires Clean(p) && r.data == ""
    ensures FrameEffect(Read(r, Patch(true, Frame(p), cuts, off)), r, p, cuts, off)
  {
    var line := "data: " + p;
    assert '\n' !in line;
    var blanks := PatchFrame(p, cuts, off);
    PiecesRead(r, line, cuts, off, 0, 1, blanks);
    var fed := Feed(r, Pieces(line, cuts, off, 0, 1));
    BlanksRead(fed, blanks);
    if CutInside(p, cuts, off) {
      PiecesShort(r, r.parsed, p, line, cuts, off, 0, 1);
      BlankShort(fed, r.parsed, |p|);
    } else {
      WholePiece(line, cuts, off, 1);
      FeedMore(r, line, []);
      WholeLine(r, p);
    }
  }

  lemma {:induction false} WholePiece(line: string, cuts: set<nat>, off: nat, i: nat)
    requires 0 < i <= |line| && forall k :: off < k < off + |line| ==> k !in cuts
    ensures Pieces(line, cuts, off, 0, i) == [line]
    decreases |line| - i
  {
    if i < |line| {
      WholePiece(line, cuts, off, i + 1);
    } else {
      assert line[0..] == line;
    }
  }

  lemma WholeLine(r: Reader, p: string)
    requires Clean(p) && r.data == ""
    ensures var t := FeedLine(FeedLine(r, "data: " + p), ""); t.data == "" && t.parsed == r.parsed + [p]
  {
    FeedDataLine(r, p);
    StrippedShape(p);
    TextsOfLine(Stripped(p));
    DeliveredExact(p);
  }

  // ------------------------------------------------------------- whole streams

  function Init<T>(s: seq<T>): seq<T>
    requires s != []
  {
    s[..|s| - 1]
  }

  function Last<T>(s: seq<T>): T
    requires s != []
  {
    s[|s| - 1]
  }

  /** The stream the server writes, and its length. */
  function Frames(ps: seq<string>): string {
    if ps == [] then "" else Frames(Init(ps)) + Frame(Last(ps))
  }

  function Total(ps: seq<string>): nat {
    if ps == [] then 0 else Total(Init(ps)) + 8 + |Last(ps)|
  }

  predicate EachClean(ps: seq<string>) {
    forall i :: 0 <= i < |ps| ==> Clean(ps[i])
  }

  /** Some cut lies strictly inside some data line. */
  ghost predicate SomeInside(ps: seq<string>, cuts: set<nat>) {
    ps != [] && (SomeInside(Init(ps), cuts) || CutInside(Last(ps), cuts, Total(Init(ps))))
  }

  /** The length of the longest payload whose line is cut. */
  ghost function LongestCut(ps: seq<string>, cuts: set<nat>): nat {
    if ps == [] then 0
    else
      var m := LongestCut(Init(ps), cuts);
      if CutInside(Last(ps), cuts, Total(Init(ps))) && |Last(ps)| > m then |Last(ps)| else m
  }

  /** How many payloads of at least that length have their line cut. */
  ghost function LongCut(ps: seq<string>, cuts: set<nat>, limit: nat): nat {
    if ps == [] then 0
    else LongCut(Init(ps), cuts, limit)
         + (if CutInside(Last(ps), cuts, Total(Init(ps))) && |Last(ps)| >= limit then 1 else 0)
  }

  function CountLong(texts: seq<string>, limit: nat): nat {
    if texts == [] then 0 else CountLong(Init(texts), limit) + (if |Last(texts)| >= limit then 1 else 0)
  }

  lemma {:induction false} CountAppend(a: seq<string>, b: seq<string>, limit: nat)
    ensures CountLong(a + b, limit) == CountLong(a, limit) + CountLong(b, limit)
    decreases |b|
  {
    if b == [] {
      Seqs.Units(a);
    } else {
      assert Init(a + b) == a + Init(b) && Last(a + b) == Last(b);
      CountAppend(a, Init(b), limit);
    }
  }

  lemma {:induction false} CountShort(texts: seq<string>, limit: nat)
    requires AllShort(texts, limit)
    ensures CountLong(texts, limit) == 0
  {
    if texts != [] {
      assert Last(texts) in texts;
      CountShort(Init(texts), limit);
    }
  }

  lemma {:induction false} LongestIsCut(ps: seq<string>, cuts: set<nat>)
    requires EachClean(ps)
    ensures SomeInside(ps, cuts) ==> LongCut(ps, cuts, LongestCut(ps, cuts)) >= 1
    ensures !SomeInside(ps, cuts) ==> LongestCut(ps, cuts) == 0
  {
    if ps != [] {
      LongestIsCut(Init(ps), cuts);
    }
  }

  /** What reading one frame does. */
  ghost predicate FrameEffect(t: Reader, r: Reader, p: string, cuts: set<nat>, off: nat) {
    && t.data == "" && r.parsed <= t.parsed
    && if CutInside(p, cuts, off) then AllShort(t.parsed[|r.parsed|..], |p|) else t.parsed == r.parsed + [p]
  }

  /** The reader after the frames, each read as the cuts break it up. */
  function ReadFrames(ps: seq<string>, cuts: set<nat>): Reader {
    if ps == [] then START
    else Read(ReadFrames(Init(ps), cuts), Patch(true, Frame(Last(ps)), cuts, Total(Init(ps))))
  }

  lemma FrameSize(p: string)
    ensures |Frame(p)| == 8 + |p| && EndsLine(Frame(p))
  {
  }

  lemma PatchEnds(p: string, cuts: set<nat>, off: nat)
    requires Clean(p)
    ensures EndsLine(Patch(true, Frame(p), cuts, off))
  {
    var blanks := PatchFrame(p, cuts, off);
  }

  lemma EndsTogether(a: string, b: string)
    requires EndsLine(a) && EndsLine(b)
    ensures EndsLine(a + b)
  {
    if b == "" {
      Seqs.Units(a);
    } else {
      assert (a + b)[|a + b| - 1] == b[|b| - 1];
    }
  }

  lemma {:induction false} FramesEnd(ps: seq<string>)
    ensures |Frames(ps)| == Total(ps) && EndsLine(Frames(ps))
  {
    if ps != [] {
      FramesEnd(Init(ps));
      FrameSize(Last(ps));
      EndsTogether(Frames(Init(ps)), Frame(Last(ps)));
    }
  }

  lemma PatchNext(ps: seq<string>, p: string, cuts: set<nat>)
    ensures Patch(true, Frames(ps) + Frame(p), cuts, 0)
            == Patch(true, Frames(ps), cuts, 0) + Patch(true, Frame(p), cuts, Total(ps))
  {
    FramesEnd(ps);
    PatchConcat(true, Frames(ps), Frame(p), cuts, 0);
  }

  lemma ReadSplitAs(r: Reader, g: string, a: string, b: string)
    requires g == a + b && EndsLine(a)
    ensures Read(r, g) == Read(Read(r, a), b)
  {
    ReadSplit(r, a, b);
  }

  lemma {:induction false} FramesRead(ps: seq<string>, cuts: set<nat>, g: string)
    requires EachClean(ps) && g == Patch(true, Frames(ps), cuts, 0)
    ensures EndsLine(g) && Read(START, g) == ReadFrames(ps, cuts)
    decreases |ps|
  {
    if ps != [] {
      var init, p := Init(ps), Last(ps);
      var a, b := Patch(true, Frames(init), cuts, 0), Patch(true, Frame(p), cuts, Total(init));
      FramesRead(init, cuts, a);
      PatchNext(init, p, cuts);
      PatchEnds(p, cuts, Total(init));
      EndsTogether(a, b);
      ReadSplitAs(START, g, a, b);
    }
  }

  lemma NextFrame(ps: seq<string>, cuts: set<nat>) returns (first: seq<string>)
    requires ps != [] && EachClean(ps) && ReadFrames(Init(ps), cuts).data == ""
    ensures var r, t := ReadFrames(Init(ps), cuts), ReadFrames(ps, cuts);
            && t.data == "" && t.parsed == r.parsed + first
            && if CutInside(Last(ps), cuts, Total(Init(ps))) then AllShort(first, |Last(ps)|) else first == [Last(ps)]
  {
    var r := ReadFrames(Init(ps), cuts);
    FrameRead(r, Last(ps), cuts, Total(Init(ps)));
    first := ReadFrames(ps, cuts).parsed[|r.parsed|..];
  }

  /** Frame by frame: what is parsed falls short of the payloads by the cut ones,
      when long texts are counted. */
  lemma {:induction false} StreamCounts(ps: seq<string>, cuts: set<nat>, limit: nat)
    requires EachClean(ps) && limit >= LongestCut(ps, cuts)
    ensures ReadFrames(ps, cuts).data == ""
    ensures CountLong(ps, limit) == CountLong(ReadFrames(ps, cuts).parsed, limit) + LongCut(ps, cuts, limit)
    ensures !SomeInside(ps, cuts) ==> ReadFrames(ps, cuts).parsed == ps
    decreases |ps|
  {
    if ps != [] {
      StreamCounts(Init(ps), cuts, limit);
      var first := NextFrame(ps, cuts);
      CountNext(ps, cuts, limit, ReadFrames(Init(ps), cuts).parsed, first);
    }
  }

  lemma CountNext(ps: seq<string>, cuts: set<nat>, limit: nat, before: seq<string>, first: seq<string>)
    requires ps != [] && limit >= LongestCut(ps, cuts)
    requires CountLong(Init(ps), limit) == CountLong(before, limit) + LongCut(Init(ps), cuts, limit)
    requires !SomeInside(Init(ps), cuts) ==> before == Init(ps)
    requires if CutInside(Last(ps), cuts, Total(Init(ps))) then AllShort(first, |Last(ps)|) else first == [Last(ps)]
    ensures CountLong(ps, limit) == CountLong(before + first, limit) + LongCut(ps, cuts, limit)
    ensures !SomeInside(ps, cuts) ==> before + first == ps
  {
    CountAppend(before, first, limit);
    if CutInside(Last(ps), cuts, Total(Init(ps))) {
      CountShort(first, limit);
    } else {
      CountOne(Last(ps), limit);
      assert ps == Init(ps) + [Last(ps)];
    }
  }

  lemma CountOne(p: string, limit: nat)
    ensures CountLong([p], limit) == if |p| >= limit then 1 else 0
  {
    assert Init([p]) == [];
  }

  /**
   * For every sequence of clean payloads and every way the network cuts the
   * stream: the client parses exactly the payloads, once each and in order, if
   * and only if no cut lies strictly inside a data line.
   */
  lemma AnyCutExact(chunks: seq<string>, ps: seq<string>)
    requires EachClean(ps) && Join(chunks) == Frames(ps)
    ensures ReadAll(START, chunks).parsed == ps <==> !SomeInside(ps, Cuts(chunks, 0))
  {
    var cuts := Cuts(chunks, 0);
    ChunksRead(chunks, ps);
    StreamCounts(ps, cuts, LongestCut(ps, cuts));
    LongestIsCut(ps, cuts);
  }

  lemma ChunksRead(chunks: seq<string>, ps: seq<string>)
    requires EachClean(ps) && Join(chunks) == Frames(ps)
    ensures ReadAll(START, chunks) == ReadFrames(ps, Cuts(chunks, 0))
  {
    var cuts := Cuts(chunks, 0);
    FramesEnd(ps);
    GlueReads(START, chunks);
    GlueIsPatch(chunks, cuts, 0);
    FramesRead(ps, cuts, Glue(chunks));
  }

  /** One frame and one cut: it survives at its start and from the end of its line on. */
  lemma SplitExact(p: string, k: nat)
    requires Clean(p) && k <= |Frame(p)|
    ensures ReadAll(START, [Frame(p)[..k], Frame(p)[k..]]).parsed == [p] <==> k == 0 || k >= 6 + |p|
  {
    var a, b := Frame(p)[..k], Frame(p)[k..];
    TwoChunks(a, b);
    assert a + b == Frame(p);
    OneFrame(p);
    AnyCutExact([a, b], [p]);
    OneCut(p, k);
  }

  lemma TwoChunks(a: string, b: string)
    ensures Join([a, b]) == a + b && Cuts([a, b], 0) == {|a|}
  {
    assert [a, b][1..] == [b] && [b][1..] == [];
    Seqs.Units(b);
    assert Join([b]) == b + Join([]);
  }

  lemma OneFrame(p: string)
    ensures Frames([p]) == Frame(p)
  {
    assert Init([p]) == [];
    Seqs.Units(Frame(p));
  }

  lemma OneCut(p: string, k: nat)
    ensures SomeInside([p], {k}) <==> 0 < k < 6 + |p|
  {
    assert Init([p]) == [];
    assert k in {k};
    assert SomeInside([p], {k}) <==> CutInside(p, {k}, 0);
  }
}
