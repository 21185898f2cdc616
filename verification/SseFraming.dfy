/**
 * Server-sent events: the frame the server writes (src/http_transport.cpp) and
 * the reader of the HTTP client transport (src/http_client_transport.cpp). The
 * reader hands texts to the JSON parser; `parsed` records those texts in order.
 */
module SseFraming {
  import opened Wrappers
  import Seqs

  // -------------------------------------------------------------------- lines

  /** The position of the first newline, or the length. */
  function Newline(s: string): (n: nat)
    ensures n <= |s| && '\n' !in s[..n] && (n < |s| ==> s[n] == '\n')
  {
    if s == "" || s[0] == '\n' then 0
    else
      var n := 1 + Newline(s[1..]);
      assert s[..n] == [s[0]] + s[1..][..n - 1];
      n
  }

  /** The lines a read sees: the last one may lack its newline. */
  function Lines(s: string): seq<string>
    decreases |s|
  {
    if s == "" then [] else [s[..Newline(s)]] + Lines(After(s))
  }

  /** The text after the first line. */
  function After(s: string): (t: string)
    ensures |t| < |s| || s == ""
  {
    var n := Newline(s);
    if n < |s| then s[n + 1..] else ""
  }

  function StripCr(s: string): string {
    if s != "" && s[|s| - 1] == '\r' then StripCr(s[..|s| - 1]) else s
  }

  function StripSpaces(s: string): string {
    if s != "" && s[0] == ' ' then StripSpaces(s[1..]) else s
  }

  predicate StartsWith(s: string, prefix: string) {
    prefix <= s
  }

  // ------------------------------------------------------------------- reader

  datatype Reader = Reader(event: string, data: string, parsed: seq<string>)

  const START := Reader("", "", [])

  /** What handle_sse_frame hands to the parser for one line of the data. */
  function LineTexts(line: string): seq<string> {
    var l := StripCr(line);
    if StartsWith(l, "data:") then [StripSpaces(l[5..])]
    else if l != "" then [l]
    else []
  }

  /** What handle_sse_frame hands to the parser for a whole event. */
  function Texts(data: string): seq<string>
    decreases |data|
  {
    if data == "" then [] else LineTexts(data[..Newline(data)]) + Texts(After(data))
  }

  function JoinData(data: string, d: string): string {
    if data != "" then data + "\n" + d else d
  }

  function FeedLine(r: Reader, line: string): Reader {
    var l := StripCr(line);
    if l == "" then
      if r.data != "" then Reader("", "", r.parsed + Texts(r.data)) else r
    else if StartsWith(l, "event:") then r.(event := StripSpaces(l[6..]))
    else if StartsWith(l, "data:") then r.(data := JoinData(r.data, StripSpaces(l[5..])))
    else r
  }

  function Feed(r: Reader, lines: seq<string>): Reader
    decreases |lines|
  {
    if lines == [] then r else Feed(FeedLine(r, lines[0]), lines[1..])
  }

  function Read(r: Reader, chunk: string): Reader {
    Feed(r, Lines(chunk))
  }

  function ReadAll(r: Reader, chunks: seq<string>): Reader
    decreases |chunks|
  {
    if chunks == [] then r else ReadAll(Read(r, chunks[0]), chunks[1..])
  }

  // --------------------------------------------------------------- the object

  method PopTrailingCr(s: string) returns (r: string)
    ensures r == StripCr(s)
  {
    r := s;
    while r != "" && r[|r| - 1] == '\r'
      invariant StripCr(r) == StripCr(s)
      decreases |r|
    {
      r := r[..|r| - 1];
    }
  }

  method EraseLeadingSpaces(s: string) returns (r: string)
    ensures r == StripSpaces(s)
  {
    r := s;
    while r != "" && r[0] == ' '
      invariant StripSpaces(r) == StripSpaces(s)
      decreases |r|
    {
      r := r[1..];
    }
  }

  /** The messages that come of the texts: those that parse, in order. */
  function Decoded<J>(parse: string -> Option<J>, texts: seq<string>): seq<J> {
    if texts == [] then []
    else
      var last := parse(texts[|texts| - 1]);
      Decoded(parse, texts[..|texts| - 1]) + (if last.Some? then [last.value] else [])
  }

  /** `parse` is the JSON parser, None where it throws; `parsed` records the texts
      of every dispatched event, `messages` what the message handler received. */
  class SseReader<!J> {
    const parse: string -> Option<J>
    const hasHandler: bool
    var event: string
    var data: string
    var messages: seq<J>
    ghost var parsed: seq<string>

    ghost function View(): Reader
      reads this
    {
      Reader(event, data, parsed)
    }

    /** A handler receives exactly the texts that parse; no handler, nothing. */
    ghost predicate Valid()
      reads this
    {
      messages == if hasHandler then Decoded(parse, parsed) else []
    }

    constructor (parse: string -> Option<J>, hasHandler: bool)
      ensures this.parse == parse && this.hasHandler == hasHandler && View() == START && Valid()
    {
      this.parse, this.hasHandler := parse, hasHandler;
      event, data, messages, parsed := "", "", [], [];
    }

    /** One read of the stream: nothing of an unfinished last line is kept. */
    method OnSseRead(chunk: string)
      requires Valid()
      modifies this
      ensures View() == Read(old(View()), chunk) && Valid()
    {
      var rest := chunk;
      while rest != ""
        invariant Read(View(), rest) == Read(old(View()), chunk) && Valid()
        decreases |rest|
      {
        NextLine(View(), rest);
        OnLine(rest[..Newline(rest)]);
        rest := After(rest);
      }
    }

    method OnLine(raw: string)
      requires Valid()
      modifies this
      ensures View() == FeedLine(old(View()), raw) && Valid()
    {
      var line := PopTrailingCr(raw);
      if line == "" {
        if data != "" {
          HandleSseFrame(data);
          event, data := "", "";
        }
      } else if StartsWith(line, "event:") {
        event := EraseLeadingSpaces(line[6..]);
      } else if StartsWith(line, "data:") {
        var d := EraseLeadingSpaces(line[5..]);
        data := JoinData(data, d);
      }
    }

    method HandleSseFrame(body: string)
      requires Valid()
      modifies this`parsed, this`messages
      ensures parsed == old(parsed) + Texts(body) && Valid()
    {
      if !hasHandler {
        parsed := parsed + Texts(body);
        return;
      }
      var rest := body;
      while rest != ""
        invariant parsed + Texts(rest) == old(parsed) + Texts(body) && Valid()
        decreases |rest|
      {
        Seqs.Assoc(parsed, LineTexts(rest[..Newline(rest)]), Texts(After(rest)));
        HandleFrameLine(rest[..Newline(rest)]);
        rest := After(rest);
      }
    }

    method HandleFrameLine(raw: string)
      requires Valid() && hasHandler
      modifies this`parsed, this`messages
      ensures parsed == old(parsed) + LineTexts(raw) && Valid()
    {
      var line := PopTrailingCr(raw);
      if StartsWith(line, "data:") {
        var payload := EraseLeadingSpaces(line[5..]);
        Deliver(payload);
      } else if line != "" {
        Deliver(line);
      }
    }

    /** The try block: a text that does not parse is ignored. */
    method Deliver(text: string)
      requires Valid() && hasHandler
      modifies this`parsed, this`messages
      ensures parsed == old(parsed) + [text] && Valid()
    {
      parsed := parsed + [text];
      assert parsed[..|parsed| - 1] == old(parsed);
      var j := parse(text);
      if j.Some? {
        messages := messages + [j.value];
      }
    }
  }

  lemma NextLine(r: Reader, rest: string)
    requires rest != ""
    ensures Read(r, rest) == Read(FeedLine(r, rest[..Newline(rest)]), After(rest))
  {
    var tail := Lines(After(rest));
    assert ([rest[..Newline(rest)]] + tail)[1..] == tail;
  }
}
