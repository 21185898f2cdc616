/** The framing round trip between the server's writer and the client's reader. */
module SseTheorems {
  import opened SseFraming
  import Seqs

  /** The server's frame (push_to_session_sse). */
  function Frame(payload: string): string {
    "data: " + payload + "\n\n"
  }

  // ---------------------------------------------------- splits at line ends

  predicate EndsLine(s: string) {
    s == "" || s[|s| - 1] == '\n'
  }

  lemma {:induction false} NewlineAt(s: string, k: nat)
    requires k <= |s| && '\n' !in s[..k] && (k < |s| ==> s[k] == '\n')
    ensures Newline(s) == k
  {
    if k > 0 {
      assert s[0] == s[..k][0];
      assert s[1..][..k - 1] == s[..k][1..];
      NewlineAt(s[1..], k - 1);
    }
  }

  lemma {:induction false} NewlineBefore(s: string, k: nat)
    requires k < |s| && s[k] == '\n'
    ensures Newline(s) <= k
  {
    if k > 0 && s[0] != '\n' {
      NewlineBefore(s[1..], k - 1);
    }
  }

  lemma FirstLine(line: string, rest: string)
    requires '\n' !in line
    ensures var s := line + "\n" + rest; s[..Newline(s)] == line && After(s) == rest
  {
    var s := line + "\n" + rest;
    assert s[..|line|] == line && s[|line| + 1..] == rest;
    NewlineAt(s, |line|);
  }

  /** Feeding a whole first line and then the rest is feeding the text. */
  lemma ReadLine(r: Reader, line: string, rest: string)
    requires '\n' !in line
    ensures Read(r, line + "\n" + rest) == Read(FeedLine(r, line), rest)
  {
    FirstLine(line, rest);
    NextLine(r, line + "\n" + rest);
  }

  lemma {:induction false} ReadSplit(r: Reader, a: string, b: string)
    requires EndsLine(a)
    ensures Read(r, a + b) == Read(Read(r, a), b)
    decreases |a|
  {
    if a == "" {
      assert a + b == b;
    } else {
      var n := Newline(a);
      NewlineBefore(a, |a| - 1);
      var line, rest := a[..n], a[n + 1..];
      assert a == line + "\n" + rest && a + b == line + "\n" + (rest + b);
      ReadLine(r, line, rest);
      ReadLine(r, line, rest + b);
      assert EndsLine(rest);
      ReadSplit(FeedLine(r, line), rest, b);
    }
  }

  function Join(chunks: seq<string>): string {
    if chunks == [] then "" else chunks[0] + Join(chunks[1..])
  }

  /** However a stream is cut at line ends, the reader ends in the same state. */
  lemma {:induction false} ReadAllSplit(r: Reader, chunks: seq<string>)
    requires forall i :: 0 <= i < |chunks| - 1 ==> EndsLine(chunks[i])
    ensures ReadAll(r, chunks) == Read(r, Join(chunks))
    decreases |chunks|
  {
    if chunks != [] {
      ReadAllSplit(Read(r, chunks[0]), chunks[1..]);
      if |chunks| == 1 {
        assert chunks[0] + "" == chunks[0];
      } else {
        ReadSplit(r, chunks[0], Join(chunks[1..]));
      }
    }
  }

  // ------------------------------------------------------------- one payload

  /** Payloads that survive framing: one line, not empty, no outer blank or return, no second prefix. */
  predicate Clean(p: string) {
    p != "" && '\n' !in p && p[0] != ' ' && p[|p| - 1] != '\r' && !StartsWith(p, "data:")
  }

  lemma {:induction false} StripCrOf(a: string, b: string)
    requires a != "" && a[|a| - 1] != '\r'
    ensures StripCr(a + b) == a + StripCr(b)
    decreases |b|
  {
    if b == "" {
      assert a + b == a;
    } else if b[|b| - 1] == '\r' {
      assert (a + b)[..|a + b| - 1] == a + b[..|b| - 1];
      StripCrOf(a, b[..|b| - 1]);
    }
  }

  lemma {:induction false} StripCrShape(s: string)
    ensures StripCr(s) <= s
    ensures StripCr(s) == "" || StripCr(s)[|StripCr(s)| - 1] != '\r'
    ensures StripCr(s) == s <==> (s == "" || s[|s| - 1] != '\r')
    decreases |s|
  {
    if s != "" && s[|s| - 1] == '\r' {
      StripCrShape(s[..|s| - 1]);
    }
  }

  lemma {:induction false} StripSpacesShape(s: string)
    ensures |StripSpaces(s)| <= |s|
    ensures StripSpaces(s) == s[|s| - |StripSpaces(s)|..]
    ensures StripSpaces(s) == s <==> (s == "" || s[0] != ' ')
    ensures '\n' !in s ==> '\n' !in StripSpaces(s)
    decreases |s|
  {
    if s != "" && s[0] == ' ' {
      StripSpacesShape(s[1..]);
    }
  }

  /** What is left of a payload once the line is stripped. */
  function Stripped(p: string): string {
    StripSpaces(StripCr(p))
  }

  lemma StrippedShape(p: string)
    requires '\n' !in p
    ensures var d := Stripped(p);
            '\n' !in d && |d| <= |p| && (d == "" || d[|d| - 1] != '\r')
            && (d == p <==> (p == "" || (p[0] != ' ' && p[|p| - 1] != '\r')))
  {
    StripCrShape(p);
    StripSpacesShape(StripCr(p));
  }

  lemma FeedDataLine(r: Reader, p: string)
    ensures FeedLine(r, "data: " + p) == r.(data := JoinData(r.data, Stripped(p)))
  {
    StripCrOf("data: ", p);
    var l := "data: " + StripCr(p);
    assert l[..5] == "data:" && l[0] == 'd' && "event:"[0] == 'e';
    assert l[5..] == " " + StripCr(p) && l[5..][1..] == StripCr(p);
  }

  lemma TextsOfLine(d: string)
    requires '\n' !in d
    ensures Texts(d) == LineTexts(d)
  {
    assert d[..|d|] == d;
    NewlineAt(d, |d|);
    assert After(d) == "";
    assert LineTexts(d) + [] == LineTexts(d);
  }

  /** What one frame hands to the parser. */
  function Delivered(p: string): seq<string> {
    LineTexts(Stripped(p))
  }

  lemma ReadFrame(r: Reader, p: string)
    requires r.data == "" && '\n' !in p
    ensures var t := Read(r, Frame(p));
            && t.data == "" && t.parsed == r.parsed + Delivered(p)
            && t.event == if Stripped(p) != "" then "" else r.event
  {
    var line := "data: " + p;
    assert '\n' !in line;
    assert Frame(p) == line + "\n" + "\n" && "\n" == "" + "\n" + "";
    ReadLine(r, line, "\n");
    FeedDataLine(r, p);
    ReadLine(FeedLine(r, line), "", "");
    StrippedShape(p);
    TextsOfLine(Stripped(p));
    assert r.parsed + [] == r.parsed;
  }

  /** A frame delivers its payload exactly when the payload is clean. */
  lemma DeliveredExact(p: string)
    requires '\n' !in p
    ensures Delivered(p) == [p] <==> Clean(p)
    ensures |Delivered(p)| <= 1
  {
    var d := Stripped(p);
    StrippedShape(p);
    StripCrShape(d);
    if StartsWith(d, "data:") {
      StripSpacesShape(d[5..]);
      assert |Delivered(p)[0]| < |p|;
    }
  }

  // ------------------------------------------------------------ whole streams

  /** Frames, and lines that carry no data: comments, other fields, blank lines. */
  datatype Item = Payload(p: string) | Noise(line: string)

  function Text(item: Item): string {
    match item
    case Payload(p) => Frame(p)
    case Noise(line) => line + "\n"
  }

  function Stream(items: seq<Item>): string {
    if items == [] then "" else Text(items[0]) + Stream(items[1..])
  }

  function Payloads(items: seq<Item>): seq<string> {
    if items == [] then []
    else (if items[0].Payload? then [items[0].p] else []) + Payloads(items[1..])
  }

  predicate NoiseOk(items: seq<Item>) {
    forall i :: i in items && i.Noise? ==> '\n' !in i.line && !StartsWith(StripCr(i.line), "data:")
  }

  predicate AllClean(items: seq<Item>) {
    forall i :: i in items && i.Payload? ==> Clean(i.p)
  }

  predicate OneLiners(items: seq<Item>) {
    forall i :: i in items && i.Payload? ==> '\n' !in i.p
  }

  /** What a stream of one-line payloads hands to the parser. */
  function StreamTexts(items: seq<Item>): seq<string> {
    if items == [] then []
    else (if items[0].Payload? then Delivered(items[0].p) else []) + StreamTexts(items[1..])
  }

  lemma ReadNoise(r: Reader, line: string)
    requires r.data == "" && '\n' !in line && !StartsWith(StripCr(line), "data:")
    ensures var t := Read(r, line + "\n"); t.data == "" && t.parsed == r.parsed
  {
    assert line + "\n" == line + "\n" + "";
    ReadLine(r, line, "");
  }

  lemma {:induction false} ReadStream(r: Reader, items: seq<Item>)
    requires r.data == "" && NoiseOk(items) && OneLiners(items)
    ensures Read(r, Stream(items)).parsed == r.parsed + StreamTexts(items)
    decreases |items|
  {
    if items != [] {
      assert items[0] in items;
      match items[0] {
        case Payload(p) => ReadFrame(r, p);
        case Noise(line) => ReadNoise(r, line);
      }
      var t := Read(r, Text(items[0]));
      ReadStream(t, items[1..]);
      ReadSplit(r, Text(items[0]), Stream(items[1..]));
      Seqs.Assoc(r.parsed, t.parsed[|r.parsed|..], StreamTexts(items[1..]));
      assert t.parsed == r.parsed + t.parsed[|r.parsed|..];
    }
  }

  lemma {:induction false} StreamTextsExact(items: seq<Item>)
    requires OneLiners(items)
    ensures |StreamTexts(items)| <= |Payloads(items)|
    ensures StreamTexts(items) == Payloads(items) <==> AllClean(items)
  {
    if items != [] {
      var rest := items[1..];
      assert items[0] in items && items == [items[0]] + rest;
      StreamTextsExact(rest);
      if items[0].Payload? {
        var p := items[0].p;
        DeliveredExact(p);
        HeadsDecide(p, Delivered(p), StreamTexts(rest), Payloads(rest));
      }
      AllCleanCons(items);
      assert [] + StreamTexts(rest) == StreamTexts(rest) && [] + Payloads(rest) == Payloads(rest);
    }
  }

  lemma AllCleanCons(items: seq<Item>)
    requires items != []
    ensures AllClean(items) <==> (items[0].Payload? ==> Clean(items[0].p)) && AllClean(items[1..])
  {
    assert items == [items[0]] + items[1..];
    assert forall i :: i in items <==> i == items[0] || i in items[1..];
  }

  lemma HeadsDecide(p: string, head: seq<string>, texts: seq<string>, rest: seq<string>)
    requires |head| <= 1 && |texts| <= |rest|
    ensures head + texts == [p] + rest <==> head == [p] && texts == rest
  {
    if head + texts == [p] + rest {
      assert |head| == 1 && (head + texts)[0] == p;
      assert texts == (head + texts)[1..] && rest == ([p] + rest)[1..];
    }
  }

  // ---------------------------------------------- payloads with newlines in them

  predicate NoNewlines(texts: seq<string>) {
    forall t :: t in texts ==> '\n' !in t
  }

  lemma {:induction false} TextsNoNewlines(data: string)
    ensures NoNewlines(Texts(data))
    decreases |data|
  {
    if data != "" {
      var line := data[..Newline(data)];
      StripCrShape(line);
      assert forall c :: c in StripCr(line) ==> c in line;
      if StartsWith(StripCr(line), "data:") {
        assert forall c :: c in StripCr(line)[5..] ==> c in StripCr(line);
        StripSpacesShape(StripCr(line)[5..]);
      }
      TextsNoNewlines(After(data));
    }
  }

  lemma {:induction false} FeedNoNewlines(r: Reader, lines: seq<string>)
    requires NoNewlines(r.parsed)
    ensures NoNewlines(Feed(r, lines).parsed)
    decreases |lines|
  {
    if lines != [] {
      TextsNoNewlines(r.data);
      FeedNoNewlines(FeedLine(r, lines[0]), lines[1..]);
    }
  }

  lemma {:induction false} PayloadListed(items: seq<Item>, i: Item)
    requires i in items && i.Payload?
    ensures i.p in Payloads(items)
  {
    if items[0] != i {
      PayloadListed(items[1..], i);
    }
  }

  /**
   * For every stream of frames and data-free lines, cut at line ends in any way:
   * the client parses exactly the payloads, once each and in order, if and only
   * if every payload is clean.
   */
  lemma StreamExact(chunks: seq<string>, items: seq<Item>)
    requires Join(chunks) == Stream(items) && NoiseOk(items)
    requires forall i :: 0 <= i < |chunks| - 1 ==> EndsLine(chunks[i])
    ensures ReadAll(START, chunks).parsed == Payloads(items) <==> AllClean(items)
  {
    ReadAllSplit(START, chunks);
    if OneLiners(items) {
      ReadStream(START, items);
      assert [] + StreamTexts(items) == StreamTexts(items);
      StreamTextsExact(items);
    } else {
      var i :| i in items && i.Payload? && '\n' in i.p;
      PayloadListed(items, i);
      FeedNoNewlines(START, Lines(Stream(items)));
    }
  }

  // -------------------------------------------- events of several data lines

  /** The lines of one event: data lines, with comments and other fields between. */
  function LineOf(item: Item): string {
    match item
    case Payload(p) => "data: " + p
    case Noise(line) => line
  }

  function EventLines(items: seq<Item>): string {
    if items == [] then "" else LineOf(items[0]) + "\n" + EventLines(items[1..])
  }

  predicate NoBlankLine(items: seq<Item>) {
    forall i :: i in items && i.Noise? ==> StripCr(i.line) != ""
  }

  /** The data collected line by line. */
  function Collect(data: string, items: seq<Item>): string
    decreases |items|
  {
    if items == [] then data
    else Collect(if items[0].Payload? then JoinData(data, Stripped(items[0].p)) else data, items[1..])
  }

  /** An event's data is cut again at the newlines that joined it. */
  lemma {:induction false} TextsJoin(data: string, d: string)
    ensures Texts(data + "\n" + d) == Texts(data) + Texts(d)
    decreases |data|
  {
    var n := Newline(data);
    if n == |data| {
      assert data[..n] == data;
      FirstLine(data, d);
      TextsOfLine(data);
    } else {
      var line, rest := data[..n], data[n + 1..];
      Regroup(data, n, d);
      FirstLine(line, rest + "\n" + d);
      TextsJoin(rest, d);
      Seqs.Assoc(LineTexts(line), Texts(rest), Texts(d));
    }
  }

  lemma Regroup(data: string, n: nat, d: string)
    requires n < |data| && data[n] == '\n'
    ensures data + "\n" + d == data[..n] + "\n" + (data[n + 1..] + "\n" + d)
  {
  }

  lemma {:induction false} CollectTexts(data: string, items: seq<Item>)
    requires OneLiners(items)
    ensures Texts(Collect(data, items)) == Texts(data) + StreamTexts(items)
    decreases |items|
  {
    if items == [] {
      Seqs.Units(Texts(data));
    } else {
      assert items[0] in items;
      var rest := StreamTexts(items[1..]);
      if items[0].Payload? {
        var p := items[0].p;
        var d := Stripped(p);
        StrippedShape(p);
        TextsOfLine(d);
        TextsJoin(data, d);
        Seqs.Units(Delivered(p));
        CollectTexts(JoinData(data, d), items[1..]);
        Seqs.Assoc(Texts(data), Delivered(p), rest);
      } else {
        CollectTexts(data, items[1..]);
        Seqs.Units(rest);
      }
    }
  }

  lemma FeedOther(r: Reader, line: string)
    requires !StartsWith(StripCr(line), "data:") && StripCr(line) != ""
    ensures FeedLine(r, line) == r.(event := FeedLine(r, line).event)
  {
  }

  function Absorb(r: Reader, items: seq<Item>): Reader
    decreases |items|
  {
    if items == [] then r else Absorb(FeedLine(r, LineOf(items[0])), items[1..])
  }

  lemma {:induction false} AbsorbCollects(r: Reader, items: seq<Item>)
    requires NoiseOk(items) && NoBlankLine(items)
    ensures Absorb(r, items).data == Collect(r.data, items) && Absorb(r, items).parsed == r.parsed
    decreases |items|
  {
    if items != [] {
      assert items[0] in items;
      match items[0]
      case Payload(p) =>
        FeedDataLine(r, p);
        AbsorbCollects(FeedLine(r, LineOf(items[0])), items[1..]);
      case Noise(line) =>
        FeedOther(r, line);
        AbsorbCollects(FeedLine(r, line), items[1..]);
    }
  }

  lemma {:induction false} ReadEventLines(r: Reader, items: seq<Item>, more: string)
    requires NoiseOk(items) && OneLiners(items)
    ensures Read(r, EventLines(items) + more) == Read(Absorb(r, items), more)
    decreases |items|
  {
    if items == [] {
      Seqs.Units(more);
    } else {
      assert items[0] in items;
      var line, rest := LineOf(items[0]), EventLines(items[1..]);
      Seqs.Assoc(line + "\n", rest, more);
      ReadLine(r, line, rest + more);
      ReadEventLines(FeedLine(r, line), items[1..], more);
    }
  }

  /** An event of any number of data lines hands over each line's payload, in order,
      if and only if they are clean; nothing is left for the next event. */
  lemma EventExact(r: Reader, items: seq<Item>)
    requires r.data == "" && NoiseOk(items) && OneLiners(items) && NoBlankLine(items)
    ensures var t := Read(r, EventLines(items) + "\n");
            && t.data == "" && t.parsed == r.parsed + StreamTexts(items)
            && (t.parsed == r.parsed + Payloads(items) <==> AllClean(items))
  {
    ReadEventLines(r, items, "\n");
    AbsorbCollects(r, items);
    assert "\n" == "" + "\n" + "";
    ReadLine(Absorb(r, items), "", "");
    CollectTexts("", items);
    Seqs.Units(StreamTexts(items));
    Seqs.Units(r.parsed);
    StreamTextsExact(items);
    SamePrefix(r.parsed, StreamTexts(items), Payloads(items));
  }

  lemma SamePrefix(a: seq<string>, b: seq<string>, c: seq<string>)
    ensures a + b == a + c <==> b == c
  {
    if a + b == a + c {
      assert b == (a + b)[|a|..] && c == (a + c)[|a|..];
    }
  }

  /** An event field names the event and touches nothing else. */
  lemma EventName(r: Reader, name: string)
    requires '\n' !in name
    ensures Read(r, "event: " + name + "\n") == r.(event := Stripped(name))
  {
    var line := "event: " + name;
    assert '\n' !in line && line + "\n" == line + "\n" + "";
    ReadLine(r, line, "");
    StripCrOf("event: ", name);
    var l := "event: " + StripCr(name);
    assert l[..6] == "event:" && l[6..] == " " + StripCr(name) && l[6..][1..] == StripCr(name);
  }

  // ------------------------------------------------------- pieces of lines

  lemma LineTextsShort(line: string)
    ensures forall t :: t in LineTexts(line) ==> |t| <= |line|
  {
    StripCrShape(line);
    if StartsWith(StripCr(line), "data:") {
      StripSpacesShape(StripCr(line)[5..]);
    }
  }

  lemma ReadUnfinished(r: Reader, line: string)
    requires line != "" && '\n' !in line
    ensures Read(r, line) == FeedLine(r, line)
  {
    assert line[..|line|] == line;
    NewlineAt(line, |line|);
    NextLine(r, line);
  }
}
