/**
 * List replies as a client reads them off the wire (src/server.cpp,
 * handle_list_request), and the walk that follows their cursors.
 */
module ListReplies {
  import opened Wrappers
  import opened Json
  import opened ListPaging
  import opened ListCache
  import Decimal

  /** The key under which each list is sent. */
  function WireKey(k: Kind): string {
    match k
    case Tools => "tools"
    case Resources => "resources"
    case Templates => "resourceTemplates"
    case Prompts => "prompts"
  }

  /** What a client reads off a result: the array under the key, and the cursor. */
  function ReadItems(k: Kind, r: Reply): Option<seq<Json>> {
    if r.Result? && Has(r.value, WireKey(k)) && r.value.fields[WireKey(k)].JArr?
    then Some(r.value.fields[WireKey(k)].items) else None
  }

  function ReadCursor(r: Reply): Option<string> {
    if r.Result? && Has(r.value, "nextCursor") && r.value.fields["nextCursor"].JStr?
    then Some(r.value.fields["nextCursor"].s) else None
  }

  /** A reply tells the client the items and the cursor of its page, and no more. */
  lemma PageReplyReads(k: Kind, items: seq<Json>, next: Option<string>)
    ensures var r := PageReply(k, Page(items, next));
            && ReadItems(k, r) == Some(items) && ReadCursor(r) == next
            && r.value.fields.Keys == {WireKey(k)} + (if next.Some? then {"nextCursor"} else {})
  {
  }

  /** The offset a client's parameters stand for, when they stand for one in the list. */
  predicate InList(s: State, k: Kind, params: Json, supplied: seq<Json>) {
    var items := Produce(s, k, supplied);
    StartOf(params).Offset? && (StartOf(params).n < |items| || StartOf(params).n == 0)
  }

  /** The replies a client gets by sending back, as its cursor, the string it finds
      under "nextCursor" while there is one. */
  function Replies(s: State, k: Kind, params: Json, supplied: seq<Json>): seq<Reply>
    requires s.pageSize > 0 && |Produce(s, k, supplied)| + s.pageSize <= SIZE_LIMIT && InList(s, k, params, supplied)
    decreases |Produce(s, k, supplied)| - StartOf(params).n
  {
    var reply := ReplyTo(s, k, params, supplied);
    PagedReply(s, k, params, supplied);
    if ReadCursor(reply).None? then [reply]
    else
      [reply] + Replies(s, k, JObj(map["cursor" := JStr(ReadCursor(reply).value)]), supplied)
  }

  /** One paged reply: a full page and the cursor of the next, or the rest. */
  lemma PagedReply(s: State, k: Kind, params: Json, supplied: seq<Json>)
    requires s.pageSize > 0 && |Produce(s, k, supplied)| + s.pageSize <= SIZE_LIMIT && InList(s, k, params, supplied)
    ensures var items, o, reply := Produce(s, k, supplied), StartOf(params).n, ReplyTo(s, k, params, supplied);
            if o + s.pageSize < |items| then
              && ReadItems(k, reply) == Some(items[o..o + s.pageSize])
              && ReadCursor(reply) == Some(Decimal.ToText(o + s.pageSize))
              && StartOf(JObj(map["cursor" := JStr(ReadCursor(reply).value)])) == Offset(o + s.pageSize)
            else
              ReadItems(k, reply) == Some(items[o..]) && ReadCursor(reply).None?
  {
    var items, o := Produce(s, k, supplied), StartOf(params).n;
    var end := Min(o + s.pageSize, |items|);
    PagedReplyIs(s, k, params, supplied);
    PageReplyReads(k, items[o..end], if end < |items| then Some(Decimal.ToText(end)) else None);
    if o + s.pageSize < |items| {
      NextDecodes(o + s.pageSize);
    } else {
      assert items[o..end] == items[o..];
    }
  }

  lemma PagedReplyIs(s: State, k: Kind, params: Json, supplied: seq<Json>)
    requires s.pageSize > 0 && |Produce(s, k, supplied)| + s.pageSize <= SIZE_LIMIT && InList(s, k, params, supplied)
    ensures var items, o := Produce(s, k, supplied), StartOf(params).n;
            var end := Min(o + s.pageSize, |items|);
            ReplyTo(s, k, params, supplied)
            == PageReply(k, Page(items[o..end], if end < |items| then Some(Decimal.ToText(end)) else None))
  {
    PageInside(Produce(s, k, supplied), s.pageSize, StartOf(params).n);
  }

  /** The replies as the pages a client reads. */
  function PageOf(k: Kind, r: Reply): Page {
    if ReadItems(k, r).Some? then Page(ReadItems(k, r).value, ReadCursor(r)) else BadRange
  }

  function PagesOf(k: Kind, replies: seq<Reply>): seq<Page> {
    seq(|replies|, i requires 0 <= i < |replies| => PageOf(k, replies[i]))
  }

  lemma {:induction false} RepliesAreTiles(
      s: State, k: Kind, params: Json, supplied: seq<Json>, items: seq<Json>, o: nat)
    requires s.pageSize > 0 && |items| + s.pageSize <= SIZE_LIMIT && InList(s, k, params, supplied)
    requires items == Produce(s, k, supplied) && StartOf(params) == Offset(o)
    ensures PagesOf(k, Replies(s, k, params, supplied)) == Tiles(items, s.pageSize, o)
    decreases |items| - o
  {
    var reply := ReplyTo(s, k, params, supplied);
    PagedReply(s, k, params, supplied);
    if o + s.pageSize < |items| {
      var more := JObj(map["cursor" := JStr(ReadCursor(reply).value)]);
      RepliesAreTiles(s, k, more, supplied, items, o + s.pageSize);
      MorePages(k, reply, Replies(s, k, more, supplied));
    } else {
      MorePages(k, reply, []);
    }
  }

  lemma MorePages(k: Kind, reply: Reply, rest: seq<Reply>)
    ensures PagesOf(k, [reply] + rest) == [PageOf(k, reply)] + PagesOf(k, rest)
  {
  }

  /** A client that starts without a cursor gets the whole list, in
      max(1, ceil(n / size)) replies, all but the last full, by following what the
      replies say. */
  lemma RepliesComplete(s: State, k: Kind, supplied: seq<Json>)
    requires s.pageSize > 0 && |Produce(s, k, supplied)| + s.pageSize <= SIZE_LIMIT
    ensures var items, replies := Produce(s, k, supplied), Replies(s, k, JObj(map[]), supplied);
            && (forall i :: 0 <= i < |replies| ==> ReadItems(k, replies[i]).Some?)
            && Concat(PagesOf(k, replies)) == items && |replies| == PageCount(|items|, s.pageSize)
            && Tiled(PagesOf(k, replies), s.pageSize)
  {
    RepliesAreTiles(s, k, JObj(map[]), supplied, Produce(s, k, supplied), 0);
    TilesRead(k, Replies(s, k, JObj(map[]), supplied), Produce(s, k, supplied), s.pageSize);
  }

  lemma TilesRead(k: Kind, replies: seq<Reply>, items: seq<Json>, size: nat)
    requires size > 0 && PagesOf(k, replies) == Tiles(items, size, 0)
    ensures forall i :: 0 <= i < |replies| ==> ReadItems(k, replies[i]).Some?
    ensures Concat(PagesOf(k, replies)) == items && |replies| == PageCount(|items|, size)
    ensures Tiled(PagesOf(k, replies), size)
  {
    TilesComplete(items, size, 0);
    TilesCount(items, size, 0);
    assert items[0..] == items && |PagesOf(k, replies)| == |replies|;
    EnoughIsCount(|replies|, |items|, size);
    forall i | 0 <= i < |replies| ensures ReadItems(k, replies[i]).Some? {
      assert PagesOf(k, replies)[i].Page?;
    }
  }

  /** Without paging one reply holds the whole list and no cursor. */
  lemma WholeReply(s: State, k: Kind, params: Json, supplied: seq<Json>)
    requires s.pageSize == 0
    ensures var r := Uncached(s, k, params, supplied);
            ReadItems(k, r) == Some(Produce(s, k, supplied)) && ReadCursor(r).None?
  {
  }

  /** Which cursors are refused: with paging, exactly the strings that are not all
      digits are errors of the client, and numbers from 2^64 on internal errors. */
  lemma CursorErrors(s: State, k: Kind, cursor: string, supplied: seq<Json>)
    requires s.pageSize > 0
    ensures var r := ReplyTo(s, k, JObj(map["cursor" := JStr(cursor)]), supplied);
            && (r == Error(-32602, "Invalid cursor") <==> !Decimal.AllDigits(cursor))
            && (r == Error(-32603, "stoull")
                <==> Decimal.AllDigits(cursor) && Decimal.FromText(cursor) >= 0x1_0000_0000_0000_0000)
  {
  }

  /** Each list request produces its own list: of the copies once run() froze them,
      of the live registry before, or of the user's handler. */
  lemma ProducesOwnList(
      s: State, k: Kind, supplied: seq<Json>, tools: Source, resources: Source, templates: Source, prompts: Source)
    requires (if s.frozen then s.copy else s.live) == Registry(tools, resources, templates, prompts)
    ensures var source := match k
                          case Tools => tools
                          case Resources => resources
                          case Templates => templates
                          case Prompts => prompts;
            Produce(s, k, supplied) == if source.UserHandler? then supplied else source.items
  {
  }

  // ------------------------------------------------------------ cache and life

  /** Invalidating, or setting the page size, takes effect at once: the next reply
      of every kind is computed afresh, whatever was cached and by whomever. */
  lemma InvalidateExact(s: State, n: nat, k: Kind, params: Json, supplied: seq<Json>)
    ensures var t := Apply(s, Invalidate);
            && t == s.(cache := map[]) && ReplyTo(t, k, params, supplied) == Uncached(s, k, params, supplied)
    ensures var t := Apply(s, SetPageSize(n));
            && t == s.(pageSize := n, cache := map[])
            && ReplyTo(t, k, params, supplied) == Uncached(s.(pageSize := n), k, params, supplied)
  {
  }

  /** The first reply is remembered exactly when caching is on, the registries are
      frozen and there is no paging: then, until the cache is cleared, it is the
      reply to every later request, and otherwise each is computed afresh. */
  lemma RememberedExact(s: State, k: Kind, params: Json, supplied: seq<Json>, later: seq<Json>)
    requires k !in s.cache
    ensures var t := FillBoth(s, k, supplied);
            ReplyTo(t, k, params, later)
            == if s.enabled && s.frozen && s.pageSize == 0 then ReplyTo(s, k, params, supplied)
               else Uncached(s, k, params, later)
  {
    if Cacheable(s) {
      FillAtOnce(s, k, supplied);
    }
  }

  /** When messages are delivered: a connected transport delivers through the loop,
      or on its own thread from its start on; run() needs a transport, and none of
      its steps but a failed start takes deliveries back. */
  lemma DeliveryExact(s: State, d: Delivery)
    ensures var t := Apply(s, Connect(d)); CanDeliver(t.host) == s.host.looping && t.host.running == s.host.running
    ensures var t := Apply(s, BeginRun);
            if s.host.transport.None? then t == s
            else
              t.host.running && CanDeliver(t.host)
              == (s.host.attached && (s.host.looping || s.host.transport == Some(OwnThread)))
    ensures var t := Apply(s, StartFails);
            s.host.starting ==> !t.host.running && CanDeliver(t.host) == (s.host.attached && s.host.looping)
    ensures var t := Apply(s, EnterLoop);
            && (CanDeliver(s.host) ==> CanDeliver(t.host))
            && (s.host.starting && s.host.attached && !s.host.stopped ==> CanDeliver(t.host))
  {
  }

  /** stop() ends deliveries, and a further run() alone does not bring them back. */
  lemma StopExact(s: State)
    ensures var t := Apply(s, Stop);
            && t == s.(host := t.host)
            && (!s.host.stopped ==> !t.host.running && !CanDeliver(t.host) && !CanDeliver(Apply(t, BeginRun).host))
  {
  }
}
