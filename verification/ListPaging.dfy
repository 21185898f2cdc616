/** Pagination of list requests (src/server.cpp, handle_list_request). */
module ListPaging {
  import opened Wrappers
  import opened Json
  import opened Decimal

  const SIZE_LIMIT: nat := 0x1_0000_0000_0000_0000 // std::size_t holds 64 bits

  // ------------------------------------------------------------------ cursors

  datatype Start = Offset(n: nat) | BadCursor | Overflow

  /** A missing, empty or non-string cursor starts over; stoull throws from 2^64 on. */
  function StartOf(params: Json): Start {
    if !Has(params, "cursor") || !params.fields["cursor"].JStr? then Offset(0)
    else
      var cur := params.fields["cursor"].s;
      if !AllDigits(cur) then BadCursor
      else if FromText(cur) < SIZE_LIMIT then Offset(FromText(cur))
      else Overflow
  }

  function CursorParams(cursor: string): Json {
    JObj(map["cursor" := JStr(cursor)])
  }

  // -------------------------------------------------------------------- pages

  datatype Page = Page(items: seq<Json>, next: Option<string>) | BadRange

  function Min(a: nat, b: nat): nat {
    if a < b then a else b
  }

  /** The slice, with size_t addition; BadRange when its end precedes its start. */
  function PageAt(items: seq<Json>, size: nat, offset: nat): Page {
    var end := Min((offset + size) % SIZE_LIMIT, |items|);
    var begin := Min(offset, |items|);
    if end < begin then BadRange
    else Page(items[begin..end], if end < |items| then Some(ToText(end)) else None)
  }

  /** The range is bad exactly when the addition wraps to a place inside the list. */
  lemma BadRangeExact(items: seq<Json>, size: nat, offset: nat)
    requires 0 < size < SIZE_LIMIT && offset < SIZE_LIMIT && |items| < SIZE_LIMIT
    ensures PageAt(items, size, offset).BadRange?
            <==> SIZE_LIMIT <= offset + size < SIZE_LIMIT + |items|
  {
    if offset + size >= SIZE_LIMIT {
      assert (offset + size) % SIZE_LIMIT == offset + size - SIZE_LIMIT;
    }
  }

  // --------------------------------------------------------------- the walk

  /** The pages a client gets by following nextCursor from the given parameters. */
  function Walk(items: seq<Json>, size: nat, params: Json): seq<Page>
    requires size > 0 && |items| + size <= SIZE_LIMIT
    requires StartOf(params).Offset? && (StartOf(params).n < |items| || StartOf(params).n == 0)
    decreases |items| - StartOf(params).n
  {
    var o := StartOf(params).n;
    var page := PageAt(items, size, o);
    PageInside(items, size, o);
    if page.next.None? then [page]
    else
      NextDecodes(o + size);
      [page] + Walk(items, size, CursorParams(page.next.value))
  }

  lemma PageInside(items: seq<Json>, size: nat, o: nat)
    requires size > 0 && |items| + size <= SIZE_LIMIT && (o < |items| || o == 0)
    ensures var end := Min(o + size, |items|);
            PageAt(items, size, o) == Page(items[o..end], if end < |items| then Some(ToText(end)) else None)
  {
    if |items| > 0 || size < SIZE_LIMIT {
      assert (o + size) % SIZE_LIMIT == o + size;
    }
  }

  /** Every issued cursor is a decimal that decodes to the offset it was made from. */
  lemma NextDecodes(end: nat)
    requires end < SIZE_LIMIT
    ensures AllDigits(ToText(end)) && StartOf(CursorParams(ToText(end))) == Offset(end)
  {
    TextRoundTrip(end);
  }

  function Concat(pages: seq<Page>): seq<Json> {
    if pages == [] then []
    else (if pages[0].Page? then pages[0].items else []) + Concat(pages[1..])
  }

  /** All pages but the last are full and have a successor. */
  predicate Tiled(pages: seq<Page>, size: nat) {
    pages != [] && pages[|pages| - 1].Page? && |pages[|pages| - 1].items| <= size && pages[|pages| - 1].next.None?
    && forall i :: 0 <= i < |pages| - 1 ==> pages[i].Page? && |pages[i].items| == size && pages[i].next.Some?
  }

  /** The list cut at o, o + size, o + 2 * size, ... */
  function Tiles(items: seq<Json>, size: nat, o: nat): seq<Page>
    requires size > 0 && o <= |items|
    decreases |items| - o
  {
    if o + size < |items|
    then [Page(items[o..o + size], Some(ToText(o + size)))] + Tiles(items, size, o + size)
    else [Page(items[o..], None)]
  }

  /** Following the cursors, with their text and their wrapping arithmetic, cuts the list. */
  lemma {:induction false} WalkIsTiles(items: seq<Json>, size: nat, params: Json, o: nat)
    requires size > 0 && |items| + size <= SIZE_LIMIT
    requires StartOf(params) == Offset(o) && (o < |items| || o == 0)
    ensures Walk(items, size, params) == Tiles(items, size, o)
    decreases |items| - o
  {
    PageInside(items, size, o);
    if o + size < |items| {
      NextDecodes(o + size);
      WalkIsTiles(items, size, CursorParams(ToText(o + size)), o + size);
    } else {
      assert items[o..|items|] == items[o..];
    }
  }

  lemma {:induction false} TilesComplete(items: seq<Json>, size: nat, o: nat)
    requires size > 0 && o <= |items|
    ensures Tiled(Tiles(items, size, o), size)
    ensures Concat(Tiles(items, size, o)) == items[o..]
    decreases |items| - o
  {
    if o + size < |items| {
      TilesComplete(items, size, o + size);
      Prepend(Page(items[o..o + size], Some(ToText(o + size))), Tiles(items, size, o + size), size);
      assert items[o..o + size] + items[o + size..] == items[o..];
    } else {
      LastTile(items[o..], size);
    }
  }

  lemma LastTile(items: seq<Json>, size: nat)
    requires |items| <= size
    ensures Tiled([Page(items, None)], size) && Concat([Page(items, None)]) == items
  {
  }

  lemma {:induction false} TilesCount(items: seq<Json>, size: nat, o: nat)
    requires size > 0 && o <= |items|
    ensures Enough(|Tiles(items, size, o)|, |items| - o, size)
    decreases |items| - o
  {
    if o + size < |items| {
      TilesCount(items, size, o + size);
      EnoughMore(|Tiles(items, size, o + size)|, |items| - o - size, size);
    }
  }

  lemma Prepend(page: Page, rest: seq<Page>, size: nat)
    requires Tiled(rest, size) && page.Page? && |page.items| == size && page.next.Some?
    ensures Tiled([page] + rest, size) && Concat([page] + rest) == page.items + Concat(rest)
  {
    assert ([page] + rest)[1..] == rest;
  }

  /** k pages of the given size are just enough for m items, and at least one. */
  predicate Enough(k: nat, m: nat, size: nat) {
    k >= 1 && m <= k * size && (k > 1 ==> (k - 1) * size < m)
  }

  lemma EnoughMore(k: nat, m: nat, size: nat)
    requires Enough(k, m, size) && m > 0
    ensures Enough(k + 1, m + size, size)
  {
    assert (k + 1) * size == k * size + size;
    assert k * size == (k - 1) * size + size;
  }

  function PageCount(n: nat, size: nat): nat
    requires size > 0
  {
    if n == 0 then 1 else (n + size - 1) / size
  }

  /** From the start: max(1, ceil(n / size)) pages, all but the last full, giving the list. */
  lemma WalkComplete(items: seq<Json>, size: nat)
    requires size > 0 && |items| + size <= SIZE_LIMIT
    ensures Tiled(Walk(items, size, JObj(map[])), size)
    ensures Concat(Walk(items, size, JObj(map[]))) == items
    ensures |Walk(items, size, JObj(map[]))| == PageCount(|items|, size)
  {
    WalkIsTiles(items, size, JObj(map[]), 0);
    TilesComplete(items, size, 0);
    TilesCount(items, size, 0);
    EnoughIsCount(|Walk(items, size, JObj(map[]))|, |items|, size);
    assert items[0..] == items;
  }

  lemma EnoughIsCount(k: nat, m: nat, size: nat)
    requires size > 0 && Enough(k, m, size)
    ensures k == PageCount(m, size)
  {
    if m == 0 {
      NoMultiple(k - 1, size);
    } else {
      assert k * size == (k - 1) * size + size;
      QuotientUnique(m + size - 1, size, k);
    }
  }

  lemma NoMultiple(d: nat, size: nat)
    ensures d * size >= 0
  {
  }

  lemma QuotientUnique(x: nat, size: nat, q: nat)
    requires size > 0 && q * size <= x < q * size + size
    ensures x / size == q
  {
    var p := x / size;
    assert x == p * size + x % size;
    if p < q {
      assert q * size == p * size + (q - p) * size;
      Grows(q - p, size);
    } else if q < p {
      assert p * size == q * size + (p - q) * size;
      Grows(p - q, size);
    }
  }

  lemma Grows(d: nat, size: nat)
    requires d >= 1
    ensures d * size >= size
  {
    assert d * size == (d - 1) * size + size;
  }
}
