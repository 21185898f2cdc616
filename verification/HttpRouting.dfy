/** Where bodies and frames go: one body per POST, frames only to the session's
    own active streams, none after the session is removed. */
module HttpRouting {
  import opened HttpSessions
  import WQ = WriteQueue

  // -------------------------------------------------------- stream lists

  /** Every listed stream is in one list once, the list of the session its GET
      named; a stream about to be listed is in none. */
  ghost predicate Routed(s: State) {
    && (forall sid, i :: sid in s.reg.lists && 0 <= i < |s.reg.lists[sid]| ==>
          s.reg.lists[sid][i] in s.streams && s.streams[s.reg.lists[sid][i]].home == sid)
    && (forall sid :: sid in s.reg.lists ==> Distinct(s.reg.lists[sid]))
    && (forall g :: g in s.gets && s.gets[g].GetOpened? ==>
          && s.gets[g].stream in s.streams
          && (forall sid :: sid in s.reg.lists ==> s.gets[g].stream !in s.reg.lists[sid]))
    && (forall g :: g in s.gets && s.gets[g].GetFound? ==> s.gets[g].conn in s.conns)
    && (forall g, h :: g in s.gets && h in s.gets && g != h && s.gets[g].GetOpened? && s.gets[h].GetOpened? ==>
          s.gets[g].stream != s.gets[h].stream)
  }

  lemma ShrinkRouted(s: State, s': State)
    requires Routed(s) && Shrinks(s, s')
    ensures Routed(s')
  {
    forall sid, i | sid in s'.reg.lists && 0 <= i < |s'.reg.lists[sid]|
      ensures s'.reg.lists[sid][i] in s'.streams && s'.streams[s'.reg.lists[sid][i]].home == sid
    {
      assert Sublist(s'.reg.lists[sid], s.reg.lists[sid]);
      assert s'.reg.lists[sid][i] in s.reg.lists[sid];
    }
  }

  lemma GetRouted(s: State, e: Step)
    requires Routed(s)
    ensures Routed(GetStep(s, e))
  {
    match e
    case GetFind(g, c, sid) => FindRouted(s, g, c, sid);
    case GetOpen(g, st) => OpenRouted(s, g, st);
    case GetList(g, now) => ListRouted(s, g, now);
    case _ =>
  }

  lemma FindRouted(s: State, g: GetId, c: ConnId, sid: Sid)
    requires Routed(s)
    ensures Routed(FindForGet(s, g, c, sid))
  {
  }

  lemma OpenRouted(s: State, g: GetId, st: StreamId)
    requires Routed(s)
    ensures Routed(GetStep(s, GetOpen(g, st)))
  {
  }

  lemma ListRouted(s: State, g: GetId, now: int)
    requires Routed(s)
    ensures Routed(GetStep(s, GetList(g, now)))
  {
  }

  lemma PostRouted(s: State, e: Step)
    requires Routed(s)
    ensures Routed(PostStep(s, e))
  {
    var s' := PostStep(s, e);
    assert forall sid :: sid in s'.reg.lists ==>
        s'.reg.lists[sid] == [] || (sid in s.reg.lists && s'.reg.lists[sid] == s.reg.lists[sid]);
  }

  lemma StepRouted(s: State, e: Step)
    requires Routed(s)
    ensures Routed(Apply(s, e))
  {
    if e.GetFind? || e.GetOpen? || e.GetList? {
      GetRouted(s, e);
    } else if e.InitCheck? || e.InitCreate? || e.InitFinish? || e.Find? || e.Forward? || e.Touch? || e.Emit? {
      PostRouted(s, e);
    } else {
      ShrinkRouted(s, NetStep(s, e));
    }
  }

  // ------------------------------------------------------------ what is written

  /** Old output is kept and new connections start empty. */
  ghost predicate Extends(conns: map<ConnId, Conn>, conns': map<ConnId, Conn>) {
    && conns.Keys <= conns'.Keys
    && (forall c :: c in conns ==> conns[c].out <= conns'[c].out)
    && (forall c :: c in conns' && c !in conns ==> conns'[c].out == [])
  }

  /** Nothing but status lines and stream headers is added. */
  ghost predicate GrowsPlain(conns: map<ConnId, Conn>, conns': map<ConnId, Conn>) {
    && Extends(conns, conns')
    && (forall c, i :: c in conns && |conns[c].out| <= i < |conns'[c].out| ==>
          conns'[c].out[i].Status? || conns'[c].out[i].StreamHeaders?)
  }

  lemma WriteGrows(cfg: Config, conns: map<ConnId, Conn>, c: ConnId, item: Item)
    ensures var w := Write(cfg, conns, c, item);
            && w.Keys == conns.Keys
            && (forall d :: d in conns ==> conns[d].out <= w[d].out)
            && (forall d, i :: d in conns && |conns[d].out| <= i < |w[d].out| ==> d == c && w[d].out[i] == item)
  {
  }

  lemma StatusPlain(conns: map<ConnId, Conn>, conns': map<ConnId, Conn>, c: ConnId, code: nat)
    requires MayAdd(conns, conns', c, Status(code))
    ensures GrowsPlain(conns, conns')
  {
  }

  lemma ConnectPlain(s: State, c: ConnId)
    ensures GrowsPlain(s.conns, NetStep(s, Connect(c)).conns)
  {
  }

  lemma NetPlain(s: State, e: Step)
    requires !e.Push?
    ensures GrowsPlain(s.conns, NetStep(s, e).conns)
  {
    var after := NetStep(s, e).conns;
    if WritesStatus(e) {
      StatusPlain(s.conns, after, e.c, StatusCode(s, e));
    } else if e.Connect? {
      ConnectPlain(s, e.c);
    } else {
      assert SameOut(s.conns, after);
    }
  }

  lemma GetPlain(s: State, e: Step)
    ensures GrowsPlain(s.conns, GetStep(s, e).conns)
  {
    if e.GetFind? && e.g !in s.gets && e.c in s.conns && e.sid !in s.reg.table {
      StatusPlain(s.conns, GetStep(s, e).conns, e.c, 404);
    }
  }

  lemma SamePlain(conns: map<ConnId, Conn>)
    ensures GrowsPlain(conns, conns)
  {
  }

  lemma PostPlain(s: State, e: Step)
    requires !e.Emit?
    ensures GrowsPlain(s.conns, PostStep(s, e).conns)
  {
    SamePlain(s.conns);
    var after := PostStep(s, e).conns;
    if after != s.conns {
      match e
      case InitCheck(p, c) => StatusPlain(s.conns, after, c, 429);
      case InitCreate(p, now) => StatusPlain(s.conns, after, s.posts[p].conn, 429);
      case Find(p, c, sid) => StatusPlain(s.conns, after, c, 404);
      case Forward(p) => StatusPlain(s.conns, after, s.posts[p].conn, 400);
      case _ =>
    }
  }

  /** How many listed active streams sit on connection c. */
  function Hits(streams: map<StreamId, Stream>, list: seq<StreamId>, c: ConnId): nat {
    if list == [] then 0
    else Hits(streams, list[1..], c)
         + (if list[0] in streams && streams[list[0]].active && streams[list[0]].conn == c then 1 else 0)
  }

  lemma {:induction false} HitsWitness(streams: map<StreamId, Stream>, list: seq<StreamId>, c: ConnId)
    ensures Hits(streams, list, c) > 0 <==>
            exists st :: st in list && st in streams && streams[st].active && streams[st].conn == c
  {
    if list != [] {
      HitsWitness(streams, list[1..], c);
      assert list == [list[0]] + list[1..];
    }
  }

  function Copies(item: Item, n: nat): seq<Item> {
    seq(n, _ => item)
  }

  /** f applied n times. */
  function Times(f: Conn -> Conn, conn: Conn, n: nat): Conn
    decreases n
  {
    if n == 0 then conn else Times(f, f(conn), n - 1)
  }

  /** How many of n copies an open queue takes: as many as fit. */
  function Room(q: WQ.Queue, data: string, n: nat): nat {
    if n == 0 || WQ.Fits(q, data, n) then n else Room(q, data, n - 1)
  }

  function Taken(q: WQ.Queue, data: string, n: nat): nat {
    if q.active then Room(q, data, n) else 0
  }

  lemma {:induction false} RoomNext(q: WQ.Queue, data: string, n: nat)
    requires q.active
    ensures Room(q, data, n + 1) ==
            if WQ.Overflows(q, data) then 0 else 1 + Room(WQ.EnqueueAndArm(q, data).0, data, n)
  {
    WQ.FitsNext(q, data, n);
    if n > 0 {
      RoomNext(q, data, n - 1);
    }
  }

  lemma OfferOnce(cfg: Config, conn: Conn, item: Item)
    ensures var q, data, next := conn.queue.q, cfg.render(item), Offer(cfg, item)(conn);
            && next == Accept(cfg, conn, item) && next.queue.q == WQ.EnqueueAndArm(q, data).0
            && next.out == (if WQ.Takes(q, data) then conn.out + [item] else conn.out)
  {
  }

  lemma TakenNext(q: WQ.Queue, data: string, n: nat)
    ensures Taken(q, data, n + 1) ==
            (if WQ.Takes(q, data) then 1 else 0) + Taken(WQ.EnqueueAndArm(q, data).0, data, n)
  {
    if q.active {
      RoomNext(q, data, n);
      if n > 0 { RoomNext(q, data, n - 1); }
    }
  }

  lemma {:induction false} OffersExact(cfg: Config, conn: Conn, item: Item, n: nat)
    ensures Times(Offer(cfg, item), conn, n).out
            == conn.out + Copies(item, Taken(conn.queue.q, cfg.render(item), n))
    decreases n
  {
    if n == 0 {
      assert conn.out + [] == conn.out;
    } else {
      var next := Accept(cfg, conn, item);
      OfferOnce(cfg, conn, item);
      OffersExact(cfg, next, item, n - 1);
      TakenNext(conn.queue.q, cfg.render(item), n - 1);
      CopiesNext(conn.out, item, Taken(next.queue.q, cfg.render(item), n - 1));
    }
  }

  lemma CopiesNext(out: seq<Item>, item: Item, n: nat)
    ensures (out + [item]) + Copies(item, n) == out + Copies(item, n + 1)
  {
  }

  /** A push changes a connection once for each listed active stream on it. */
  lemma {:induction false} ForEachExact(
      f: Conn -> Conn, conns: map<ConnId, Conn>, streams: map<StreamId, Stream>, list: seq<StreamId>, c: ConnId)
    requires c in conns
    ensures ForEachStream(f, conns, streams, list)[c] == Times(f, conns[c], Hits(streams, list, c))
    decreases |list|
  {
    if list != [] {
      var st := list[0];
      if st in streams && streams[st].active && streams[st].conn in conns {
        var d := streams[st].conn;
        ForEachExact(f, conns[d := f(conns[d])], streams, list[1..], c);
      } else {
        ForEachExact(f, conns, streams, list[1..], c);
      }
    }
  }

  /** Each connection accepts exactly as many frames as there are listed active
      streams on it, up to the room its queue has, and nothing goes elsewhere. */
  lemma PushAllExact(
      cfg: Config, conns: map<ConnId, Conn>, streams: map<StreamId, Stream>, list: seq<StreamId>, item: Item, c: ConnId)
    requires c in conns
    ensures var n := Taken(conns[c].queue.q, cfg.render(item), Hits(streams, list, c));
            PushAll(cfg, conns, streams, list, item)[c].out == conns[c].out + Copies(item, n)
  {
    ForEachExact(Offer(cfg, item), conns, streams, list, c);
    OffersExact(cfg, conns[c], item, Hits(streams, list, c));
  }

  lemma {:induction false} TakenAtMost(q: WQ.Queue, data: string, n: nat)
    ensures Taken(q, data, n) <= n
  {
    if n > 0 {
      TakenAtMost(q, data, n - 1);
    }
  }

  // ----------------------------------------------------------- invariants

  predicate IsPostStep(e: Step) {
    e.InitCheck? || e.InitCreate? || e.InitFinish? || e.Find? || e.Forward? || e.Touch? || e.Emit?
  }

  lemma StepPlain(s: State, e: Step)
    requires !e.Emit? && !e.Push?
    ensures GrowsPlain(s.conns, Apply(s, e).conns)
  {
    if e.GetFind? || e.GetOpen? || e.GetList? {
      GetPlain(s, e);
    } else if IsPostStep(e) {
      PostPlain(s, e);
    } else {
      NetPlain(s, e);
    }
  }

  /** A frame on a connection is a frame of a session that connection streams. */
  ghost predicate FramesHome(s: State) {
    forall c, i :: c in s.conns && 0 <= i < |s.conns[c].out| && s.conns[c].out[i].StreamFrame? ==>
      HomeOn(s.streams, c, s.conns[c].out[i].sid)
  }

  ghost predicate HomeOn(streams: map<StreamId, Stream>, c: ConnId, sid: Sid) {
    exists st :: st in streams && streams[st].conn == c && streams[st].home == sid
  }

  /** Streams are never forgotten and never change hands. */
  ghost predicate StreamsKept(streams: map<StreamId, Stream>, streams': map<StreamId, Stream>) {
    forall st :: st in streams ==>
      && st in streams' && streams'[st].conn == streams[st].conn && streams'[st].home == streams[st].home
      && (streams'[st].active ==> streams[st].active)
  }

  lemma StepStreams(s: State, e: Step)
    ensures StreamsKept(s.streams, Apply(s, e).streams)
  {
  }

  lemma HomeKept(streams: map<StreamId, Stream>, streams': map<StreamId, Stream>, c: ConnId, sid: Sid)
    requires StreamsKept(streams, streams') && HomeOn(streams, c, sid)
    ensures HomeOn(streams', c, sid)
  {
    var st :| st in streams && streams[st].conn == c && streams[st].home == sid;
    assert st in streams';
  }

  lemma PlainHome(s: State, s': State)
    requires FramesHome(s) && GrowsPlain(s.conns, s'.conns) && StreamsKept(s.streams, s'.streams)
    ensures FramesHome(s')
  {
    forall c, i | c in s'.conns && 0 <= i < |s'.conns[c].out| && s'.conns[c].out[i].StreamFrame?
      ensures HomeOn(s'.streams, c, s'.conns[c].out[i].sid)
    {
      assert c in s.conns && i < |s.conns[c].out| && s'.conns[c].out[i] == s.conns[c].out[i];
      HomeKept(s.streams, s'.streams, c, s.conns[c].out[i].sid);
    }
  }

  /** Frames of sid appear only on connections of sid's own streams. */
  lemma PushHome(s: State, sid: Sid, body: Body)
    requires Routed(s) && FramesHome(s)
    ensures FramesHome(PushTo(s, sid, body))
  {
    var s' := PushTo(s, sid, body);
    if sid in s.reg.table && sid in s.reg.lists {
      var list := s.reg.lists[sid];
      forall c, i | c in s'.conns && 0 <= i < |s'.conns[c].out| && s'.conns[c].out[i].StreamFrame?
        ensures HomeOn(s'.streams, c, s'.conns[c].out[i].sid)
      {
        PushAllExact(s.cfg, s.conns, s.streams, list, StreamFrame(sid, body), c);
        TakenAtMost(s.conns[c].queue.q, s.cfg.render(StreamFrame(sid, body)), Hits(s.streams, list, c));
        HitsWitness(s.streams, list, c);
        if i < |s.conns[c].out| {
          assert s'.conns[c].out[i] == s.conns[c].out[i];
        } else {
          var st :| st in list && st in s.streams && s.streams[st].active && s.streams[st].conn == c;
          assert s.streams[st].home == sid;
        }
      }
    }
  }

  lemma StepHome(s: State, e: Step)
    requires Routed(s) && FramesHome(s)
    ensures FramesHome(Apply(s, e))
  {
    StepStreams(s, e);
    match e
    case Push(sid, body) => PushHome(s, sid, body);
    case Emit(p, body) =>
      if p in s.posts && s.posts[p].phase.Handling? {
        if s.posts[p].first.None? {
          WriteGrows(s.cfg, s.conns, s.posts[p].conn, PostBody(p, body));
          BodyHome(s, p, body);
        } else {
          PushHome(s, s.posts[p].phase.sid, body);
        }
      }
    case _ => StepPlain(s, e); PlainHome(s, Apply(s, e));
  }

  lemma BodyHome(s: State, p: PostId, body: Body)
    requires FramesHome(s) && p in s.posts && s.posts[p].phase.Handling? && s.posts[p].first.None?
    ensures FramesHome(EmitBody(s, p, body))
  {
    var s' := EmitBody(s, p, body);
    WriteGrows(s.cfg, s.conns, s.posts[p].conn, PostBody(p, body));
    forall c, i | c in s'.conns && 0 <= i < |s'.conns[c].out| && s'.conns[c].out[i].StreamFrame?
      ensures HomeOn(s'.streams, c, s'.conns[c].out[i].sid)
    {
      assert i < |s.conns[c].out| && s'.conns[c].out[i] == s.conns[c].out[i];
    }
  }

  // ------------------------------------------------------------------- fresh ids

  lemma {:induction false} FreshId(used: set<nat>) returns (id: nat)
    ensures forall x :: x in used ==> x < id
  {
    if used == {} {
      id := 0;
    } else {
      var x :| x in used;
      var below := FreshId(used - {x});
      id := if x < below then below else x + 1;
      assert forall y :: y in used ==> y == x || y in used - {x};
    }
  }
}
