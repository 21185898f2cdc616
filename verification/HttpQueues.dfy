/**
 * The session machine together with the write queues of its connections: what
 * reaches the sockets is what the handlers enqueued, in order, as far as each
 * queue's cap, policy and shutdown let it.
 */
module HttpQueues {
  import opened HttpSessions
  import opened HttpRouting
  import WQ = WriteQueue

  function Rendered(cfg: Config, out: seq<Item>): seq<string> {
    seq(|out|, i requires 0 <= i < |out| => cfg.render(out[i]))
  }

  /** The queue is sound and what it accepted is the connection's items. */
  ghost predicate QueueOk(cfg: Config, conn: Conn) {
    WQ.Sound(conn.queue) && conn.queue.accepted == Rendered(cfg, conn.out)
  }

  ghost predicate Fine(s: State, c: ConnId) {
    c in s.conns ==> QueueOk(s.cfg, s.conns[c])
  }

  /** A shut queue issues nothing more and takes nothing more. */
  ghost predicate Settled(conn: Conn, conn': Conn) {
    conn.queue.closed ==> conn'.queue.closed && conn'.queue.issued == conn.queue.issued && conn'.out == conn.out
  }

  ghost predicate Moves(s: State, s': State, c: ConnId) {
    && s'.cfg == s.cfg && Fine(s', c)
    && (c in s.conns ==> c in s'.conns && Settled(s.conns[c], s'.conns[c]))
  }

  // ------------------------------------------------------------ one connection

  lemma RenderedMore(cfg: Config, out: seq<Item>, item: Item)
    ensures Rendered(cfg, out + [item]) == Rendered(cfg, out) + [cfg.render(item)]
  {
  }

  lemma AcceptMoves(cfg: Config, conn: Conn, item: Item)
    requires QueueOk(cfg, conn)
    ensures QueueOk(cfg, Accept(cfg, conn, item)) && Settled(conn, Accept(cfg, conn, item))
  {
    WQ.EnqueueCallSound(conn.queue, cfg.render(item));
    RenderedMore(cfg, conn.out, item);
  }

  lemma {:induction false} TimesMoves(cfg: Config, conn: Conn, item: Item, n: nat)
    requires QueueOk(cfg, conn)
    ensures var conn' := Times(Offer(cfg, item), conn, n); QueueOk(cfg, conn') && Settled(conn, conn')
    decreases n
  {
    if n > 0 {
      OfferOnce(cfg, conn, item);
      AcceptMoves(cfg, conn, item);
      TimesMoves(cfg, Accept(cfg, conn, item), item, n - 1);
    }
  }

  lemma TurnMoves(cfg: Config, conn: Conn, q: WQ.Step)
    requires QueueOk(cfg, conn) && !q.Enqueue?
    ensures var conn' := conn.(queue := WQ.Apply(conn.queue, q)); QueueOk(cfg, conn') && Settled(conn, conn')
  {
    WQ.StepSound(conn.queue, q);
  }

  // ---------------------------------------------------------------- the steps

  lemma StillMoves(s: State, s': State, c: ConnId)
    requires Fine(s, c) && s'.cfg == s.cfg && (c in s'.conns <==> c in s.conns)
    requires c in s.conns ==> s'.conns[c].queue == s.conns[c].queue && s'.conns[c].out == s.conns[c].out
    ensures Moves(s, s', c)
  {
  }

  lemma WriteMoves(s: State, s': State, d: ConnId, item: Item, c: ConnId)
    requires Fine(s, c) && s'.cfg == s.cfg
    requires s'.conns == s.conns || s'.conns == Write(s.cfg, s.conns, d, item)
    ensures Moves(s, s', c)
  {
    if c in s.conns && c == d && s'.conns != s.conns {
      AcceptMoves(s.cfg, s.conns[c], item);
    }
  }

  lemma PushMoves(s: State, sid: Sid, body: Body, c: ConnId)
    requires Fine(s, c)
    ensures Moves(s, PushTo(s, sid, body), c)
  {
    if sid in s.reg.table && sid in s.reg.lists && c in s.conns {
      var item := StreamFrame(sid, body);
      ForEachExact(Offer(s.cfg, item), s.conns, s.streams, s.reg.lists[sid], c);
      TimesMoves(s.cfg, s.conns[c], item, Hits(s.streams, s.reg.lists[sid], c));
    }
  }

  lemma EmitMoves(s: State, p: PostId, body: Body, c: ConnId)
    requires Fine(s, c) && p in s.posts && s.posts[p].phase.Handling?
    ensures Moves(s, EmitBody(s, p, body), c)
  {
    if s.posts[p].first.None? {
      WriteMoves(s, EmitBody(s, p, body), s.posts[p].conn, PostBody(p, body), c);
    } else {
      PushMoves(s, s.posts[p].phase.sid, body, c);
    }
  }

  lemma PostMoves(s: State, e: Step, c: ConnId)
    requires Fine(s, c)
    ensures Moves(s, PostStep(s, e), c)
  {
    match e
    case InitCheck(p, d) => WriteMoves(s, CheckCap(s, p, d), d, Status(429), c);
    case InitCreate(p, now) =>
      if p in s.posts { WriteMoves(s, CreateSession(s, p, now), s.posts[p].conn, Status(429), c); }
    case Find(p, d, sid) => WriteMoves(s, FindSession(s, p, d, sid), d, Status(404), c);
    case Forward(p) => if p in s.posts { WriteMoves(s, ForwardPost(s, p), s.posts[p].conn, Status(400), c); }
    case Emit(p, body) => if p in s.posts && s.posts[p].phase.Handling? { EmitMoves(s, p, body, c); }
    case _ => StillMoves(s, PostStep(s, e), c);
  }

  lemma TurnAwayMoves(s: State, d: ConnId, code: nat, c: ConnId)
    requires Fine(s, c)
    ensures Moves(s, TurnAwayConn(s, d, code), c)
  {
    if c in s.conns && c == d {
      AcceptMoves(s.cfg, s.conns[c], Status(code));
    }
  }

  lemma OpenMoves(s: State, g: GetId, st: StreamId, c: ConnId)
    requires Fine(s, c)
    ensures Moves(s, GetStep(s, GetOpen(g, st)), c)
  {
    if g in s.gets && s.gets[g].GetFound? && c in s.conns && s.gets[g].conn == c {
      AcceptMoves(s.cfg, s.conns[c].(hook := GetStep(s, GetOpen(g, st)).conns[c].hook), StreamHeaders(s.gets[g].sid));
    }
  }

  lemma FindMoves(s: State, g: GetId, d: ConnId, sid: Sid, c: ConnId)
    requires Fine(s, c)
    ensures Moves(s, FindForGet(s, g, d, sid), c)
  {
    TurnAwayMoves(s, d, 404, c);
    assert FindForGet(s, g, d, sid).conns == s.conns || FindForGet(s, g, d, sid).conns == TurnAwayConn(s, d, 404).conns;
  }

  lemma GetMoves(s: State, e: Step, c: ConnId)
    requires Fine(s, c)
    ensures Moves(s, GetStep(s, e), c)
  {
    match e
    case GetFind(g, d, sid) => FindMoves(s, g, d, sid, c);
    case GetOpen(g, st) => OpenMoves(s, g, st, c);
    case _ => StillMoves(s, GetStep(s, e), c);
  }

  lemma ErrorMoves(s: State, d: ConnId, c: ConnId)
    requires Fine(s, c)
    ensures Moves(s, OnError(s, d), c)
  {
    StillMoves(s, OnError(s, d), c);
  }

  lemma QueueStepMoves(s: State, d: ConnId, q: WQ.Step, c: ConnId)
    requires Fine(s, c) && !q.Enqueue?
    ensures Moves(s, ApplyQueue(s, d, q), c) && Moves(s, OnError(ApplyQueue(s, d, q), d), c)
  {
    if c in s.conns && c == d {
      TurnMoves(s.cfg, s.conns[c], q);
    }
    ErrorMoves(ApplyQueue(s, d, q), d, c);
  }

  lemma TurnsMove(s: State, d: ConnId, q: WQ.Step, c: ConnId)
    requires Fine(s, c)
    ensures Moves(s, QueueTurn(s, d, q), c)
  {
    StillMoves(s, s, c);
    if !q.Enqueue? {
      QueueStepMoves(s, d, q, c);
    }
  }

  lemma CloseMoves(s: State, st: StreamId, c: ConnId)
    requires Fine(s, c)
    ensures Moves(s, CloseStream(s, st), c)
  {
    if st in s.closing && st in s.streams {
      var popped := s.(closing := s.closing - {st});
      QueueStepMoves(popped, s.streams[st].conn, WQ.Shutdown, c);
    }
  }

  lemma StatusMoves(s: State, e: Step, c: ConnId)
    requires Fine(s, c) && WritesStatus(e)
    ensures Moves(s, StatusStep(s, e), c)
  {
    match e
    case Delete(d, sid) => WriteMoves(s, StatusStep(s, e), d, Status(StatusCode(s, e)), c);
    case Reply(d, code) => WriteMoves(s, StatusStep(s, e), d, Status(code), c);
    case TurnAway(d, code) => TurnAwayMoves(s, d, code, c);
  }

  lemma AcceptSocketMoves(s: State, d: ConnId, c: ConnId)
    requires Fine(s, c)
    ensures Moves(s, AcceptSocket(s, d), c)
  {
    assert Rendered(s.cfg, []) == [];
  }

  lemma ClosingMoves(s: State, e: Step, c: ConnId)
    requires Fine(s, c) && (e.Close? || e.ConnError? || e.Queue?)
    ensures Moves(s, NetStep(s, e), c)
  {
    match e
    case Close(st) => CloseMoves(s, st, c);
    case ConnError(d) => ErrorMoves(s, d, c);
    case Queue(d, q) => TurnsMove(s, d, q, c);
  }

  lemma NetMoves(s: State, e: Step, c: ConnId)
    requires Fine(s, c)
    ensures Moves(s, NetStep(s, e), c)
  {
    match e
    case Connect(d) => AcceptSocketMoves(s, d, c);
    case Close(st) => ClosingMoves(s, e, c);
    case ConnError(d) => ClosingMoves(s, e, c);
    case Queue(d, q) => ClosingMoves(s, e, c);
    case Push(sid, body) => PushMoves(s, sid, body, c);
    case _ => if WritesStatus(e) { StatusMoves(s, e, c); } else { StillMoves(s, NetStep(s, e), c); }
  }

  lemma StepMoves(s: State, e: Step, c: ConnId)
    requires Fine(s, c)
    ensures Moves(s, Apply(s, e), c)
  {
    if e.GetFind? || e.GetOpen? || e.GetList? {
      GetMoves(s, e, c);
    } else if IsPostStep(e) {
      PostMoves(s, e, c);
    } else {
      NetMoves(s, e, c);
    }
  }

  lemma {:induction false} RunMoves(s: State, es: seq<Step>, c: ConnId)
    requires Fine(s, c)
    ensures Moves(s, Run(s, es), c)
    decreases |es|
  {
    if es != [] {
      StepMoves(s, es[0], c);
      RunMoves(Apply(s, es[0]), es[1..], c);
    }
  }

  /** On every run and for every connection: at most one write is outstanding,
      the bytes handed to the socket are the items the handlers enqueued, in
      order, and until a shutdown the rest of them is still queued. */
  lemma WireOrder(cfg: Config, es: seq<Step>, c: ConnId)
    requires c in Run(Start(cfg), es).conns
    ensures var conn := Run(Start(cfg), es).conns[c];
            && conn.queue.arming + conn.queue.inflight <= 1
            && conn.queue.issued <= Rendered(cfg, conn.out)
            && (!conn.queue.closed ==> conn.queue.issued + conn.queue.q.items == Rendered(cfg, conn.out))
  {
    RunMoves(Start(cfg), es, c);
  }

  /** Closing a stream's connection ends its output for good. */
  lemma ClosedIsSilent(s: State, st: StreamId, es: seq<Step>)
    requires st in s.closing && st in s.streams && s.streams[st].conn in s.conns && Fine(s, s.streams[st].conn)
    ensures var c := s.streams[st].conn;
            var t := Run(CloseStream(s, st), es);
            && c in t.conns && t.conns[c].queue.closed
            && t.conns[c].queue.issued == s.conns[c].queue.issued && t.conns[c].out == s.conns[c].out
  {
    var c := s.streams[st].conn;
    CloseMoves(s, st, c);
    ShutConn(s, st);
    RunMoves(CloseStream(s, st), es, c);
  }

  lemma ShutConn(s: State, st: StreamId)
    requires st in s.closing && st in s.streams && s.streams[st].conn in s.conns
    ensures var c := s.streams[st].conn;
            var conn := CloseStream(s, st).conns[c];
            conn.queue.closed && conn.queue.issued == s.conns[c].queue.issued && conn.out == s.conns[c].out
  {
  }

  // -------------------------------------------------------------- progress

  /** The connection's own turns. */
  function Turns(c: ConnId, qs: seq<WQ.Step>): seq<Step> {
    seq(|qs|, i requires 0 <= i < |qs| => Queue(c, qs[i]))
  }

  predicate OnlyWrites(qs: seq<WQ.Step>) {
    forall i :: 0 <= i < |qs| ==> qs[i] == WQ.Arm || qs[i] == WQ.Complete(true)
  }

  function WithQueue(s: State, c: ConnId, queue: WQ.System): State
    requires c in s.conns
  {
    s.(conns := s.conns[c := s.conns[c].(queue := queue)])
  }

  lemma TurnRuns(s: State, c: ConnId, q: WQ.Step)
    requires c in s.conns && (q == WQ.Arm || q == WQ.Complete(true))
    ensures Apply(s, Queue(c, q)) == WithQueue(s, c, WQ.Apply(s.conns[c].queue, q))
  {
  }

  lemma QueueTwice(s: State, c: ConnId, a: WQ.System, b: WQ.System)
    requires c in s.conns
    ensures WithQueue(WithQueue(s, c, a), c, b) == WithQueue(s, c, b)
    ensures WithQueue(s, c, s.conns[c].queue) == s
  {
    var conns := s.conns[c := s.conns[c].(queue := a)];
    assert conns[c := conns[c].(queue := b)] == s.conns[c := s.conns[c].(queue := b)];
    assert s.conns[c := s.conns[c]] == s.conns;
  }

  /** The turns of one connection run its queue and leave the others alone. */
  lemma {:induction false} TurnsRun(s: State, c: ConnId, qs: seq<WQ.Step>)
    requires c in s.conns && OnlyWrites(qs)
    ensures Run(s, Turns(c, qs)) == WithQueue(s, c, WQ.Run(s.conns[c].queue, qs))
    decreases |qs|
  {
    var queue := s.conns[c].queue;
    if qs == [] {
      QueueTwice(s, c, queue, queue);
    } else {
      var es := Turns(c, qs);
      assert es[0] == Queue(c, qs[0]) && es[1..] == Turns(c, qs[1..]);
      TurnRuns(s, c, qs[0]);
      TurnsRun(WithQueue(s, c, WQ.Apply(queue, qs[0])), c, qs[1..]);
      QueueTwice(s, c, WQ.Apply(queue, qs[0]), WQ.Run(queue, qs));
    }
  }

  /** No wakeup is lost: on every run, as long as a connection's queue is open, its
      own turns alone bring everything the handlers enqueued to the socket. */
  lemma WireDrains(cfg: Config, es: seq<Step>, c: ConnId) returns (qs: seq<WQ.Step>)
    requires c in Run(Start(cfg), es).conns && Run(Start(cfg), es).conns[c].queue.q.active
    ensures OnlyWrites(qs)
    ensures var s := Run(Start(cfg), es);
            var t := Run(s, Turns(c, qs));
            && c in t.conns && t.conns[c].out == s.conns[c].out
            && t.conns[c].queue.issued == Rendered(cfg, s.conns[c].out)
  {
    var s := Run(Start(cfg), es);
    RunMoves(Start(cfg), es, c);
    qs := WQ.Drains(s.conns[c].queue);
    TurnsRun(s, c, qs);
  }
}
