/**
 * Connection slots (src/http_transport.cpp): active_connection_count_ goes up
 * when a socket is accepted and down in on_release, which on_error runs when its
 * exchange finds the connection active. Handlers that write active = false
 * themselves take that chance away.
 */
module HttpSlots {
  import opened HttpSessions
  import opened HttpRouting
  import WQ = WriteQueue

  /** Inactive means released once, or cleared by a handler and never released. */
  predicate SlotOk(conn: Conn) {
    if conn.active then conn.released == 0 && !conn.cleared
    else conn.released == if conn.cleared then 0 else 1
  }

  function Unreleased(conns: map<ConnId, Conn>): set<ConnId> {
    set c | c in conns && conns[c].released == 0
  }

  function Cleared(conns: map<ConnId, Conn>): set<ConnId> {
    set c | c in conns && conns[c].cleared
  }

  function Active(conns: map<ConnId, Conn>): set<ConnId> {
    set c | c in conns && conns[c].active
  }

  /** The counter is the number of connections whose slot was not given back. */
  ghost predicate SlotsOk(s: State) {
    && (forall c :: c in s.conns ==> SlotOk(s.conns[c]))
    && s.live == |Unreleased(s.conns)|
    && (s.cfg.maxConnections > 0 ==> s.live <= s.cfg.maxConnections)
  }

  // -------------------------------------------------------------------- frames

  ghost predicate SameFlags(conns: map<ConnId, Conn>, conns': map<ConnId, Conn>) {
    && conns'.Keys == conns.Keys
    && forall c :: c in conns ==>
         && conns'[c].active == conns[c].active && conns'[c].cleared == conns[c].cleared
         && conns'[c].released == conns[c].released
  }

  lemma FlagsKeep(s: State, s': State)
    requires SlotsOk(s) && SameFlags(s.conns, s'.conns) && s'.live == s.live && s'.cfg == s.cfg
    ensures SlotsOk(s')
  {
    assert Unreleased(s'.conns) == Unreleased(s.conns);
  }

  lemma WriteFlags(cfg: Config, conns: map<ConnId, Conn>, c: ConnId, item: Item)
    ensures SameFlags(conns, Write(cfg, conns, c, item))
  {
  }

  lemma {:induction false} TimesFlags(cfg: Config, item: Item, conn: Conn, n: nat)
    ensures var after := Times(Offer(cfg, item), conn, n);
            after.active == conn.active && after.cleared == conn.cleared && after.released == conn.released
    decreases n
  {
    if n > 0 {
      OfferOnce(cfg, conn, item);
      TimesFlags(cfg, item, Accept(cfg, conn, item), n - 1);
    }
  }

  lemma PushFlags(s: State, sid: Sid, body: Body)
    ensures SameFlags(s.conns, PushTo(s, sid, body).conns)
  {
    if sid in s.reg.table && sid in s.reg.lists {
      var item := StreamFrame(sid, body);
      forall c | c in s.conns
        ensures var conn := PushTo(s, sid, body).conns[c];
                && conn.active == s.conns[c].active && conn.cleared == s.conns[c].cleared
                && conn.released == s.conns[c].released
      {
        ForEachExact(Offer(s.cfg, item), s.conns, s.streams, s.reg.lists[sid], c);
        TimesFlags(s.cfg, item, s.conns[c], Hits(s.streams, s.reg.lists[sid], c));
      }
    }
  }

  lemma MaybeFlags(cfg: Config, conns: map<ConnId, Conn>, conns': map<ConnId, Conn>, c: ConnId, code: nat)
    requires conns' == conns || conns' == Write(cfg, conns, c, Status(code))
    ensures SameFlags(conns, conns')
  {
    WriteFlags(cfg, conns, c, Status(code));
  }

  lemma PostFlags(s: State, e: Step)
    ensures SameFlags(s.conns, PostStep(s, e).conns)
  {
    match e
    case InitCheck(p, c) => MaybeFlags(s.cfg, s.conns, CheckCap(s, p, c).conns, c, 429);
    case InitCreate(p, now) =>
      if p in s.posts { MaybeFlags(s.cfg, s.conns, CreateSession(s, p, now).conns, s.posts[p].conn, 429); }
    case Find(p, c, sid) => MaybeFlags(s.cfg, s.conns, FindSession(s, p, c, sid).conns, c, 404);
    case Forward(p) => if p in s.posts { MaybeFlags(s.cfg, s.conns, ForwardPost(s, p).conns, s.posts[p].conn, 400); }
    case Emit(p, body) => if p in s.posts && s.posts[p].phase.Handling? { EmitFlags(s, p, body); }
    case _ => assert PostStep(s, e).conns == s.conns;
  }

  lemma EmitFlags(s: State, p: PostId, body: Body)
    requires p in s.posts && s.posts[p].phase.Handling?
    ensures SameFlags(s.conns, EmitBody(s, p, body).conns)
  {
    WriteFlags(s.cfg, s.conns, s.posts[p].conn, PostBody(p, body));
    PushFlags(s, s.posts[p].phase.sid, body);
  }

  // -------------------------------------------------------- steps that count

  lemma ErrorSlots(s: State, c: ConnId)
    requires SlotsOk(s)
    ensures SlotsOk(OnError(s, c))
  {
    var s' := OnError(s, c);
    if c in s.conns && s.conns[c].active {
      assert c in Unreleased(s.conns);
      assert Unreleased(s'.conns) == Unreleased(s.conns) - {c};
    }
  }

  lemma QueueFlags(s: State, c: ConnId, q: WQ.Step)
    ensures SameFlags(s.conns, ApplyQueue(s, c, q).conns)
  {
  }

  lemma QueueSlots(s: State, c: ConnId, q: WQ.Step)
    requires SlotsOk(s)
    ensures SlotsOk(ApplyQueue(s, c, q)) && SlotsOk(QueueTurn(s, c, q))
  {
    QueueFlags(s, c, q);
    FlagsKeep(s, ApplyQueue(s, c, q));
    ErrorSlots(ApplyQueue(s, c, q), c);
  }

  lemma CloseSlots(s: State, st: StreamId)
    requires SlotsOk(s)
    ensures SlotsOk(CloseStream(s, st))
  {
    if st in s.closing && st in s.streams {
      var c := s.streams[st].conn;
      var popped := s.(closing := s.closing - {st});
      QueueSlots(popped, c, WQ.Shutdown);
      ErrorSlots(CloseQueue(popped, c), c);
    }
  }

  lemma TurnAwaySlots(s: State, c: ConnId, code: nat)
    requires SlotsOk(s)
    ensures SlotsOk(TurnAwayConn(s, c, code))
  {
    assert Unreleased(TurnAwayConn(s, c, code).conns) == Unreleased(s.conns);
  }

  lemma AcceptSlots(s: State, c: ConnId)
    requires SlotsOk(s)
    ensures SlotsOk(AcceptSocket(s, c))
  {
    var s' := AcceptSocket(s, c);
    if s'.live != s.live {
      assert Unreleased(s'.conns) == Unreleased(s.conns) + {c};
    }
  }

  lemma StatusSlots(s: State, e: Step)
    requires SlotsOk(s) && WritesStatus(e)
    ensures SlotsOk(StatusStep(s, e))
  {
    match e
    case Delete(c, sid) =>
      var removed := if sid in s.reg.table then Remove(s, {sid}) else s;
      WriteFlags(s.cfg, s.conns, c, Status(StatusCode(s, e)));
      FlagsKeep(s, ReplyStatus(removed, c, StatusCode(s, e)));
    case Reply(c, code) =>
      WriteFlags(s.cfg, s.conns, c, Status(code));
      FlagsKeep(s, ReplyStatus(s, c, code));
    case TurnAway(c, code) => TurnAwaySlots(s, c, code);
  }

  lemma NetSlots(s: State, e: Step)
    requires SlotsOk(s)
    ensures SlotsOk(NetStep(s, e))
  {
    match e
    case Connect(c) => AcceptSlots(s, c);
    case Close(st) => CloseSlots(s, st);
    case ConnError(c) => ErrorSlots(s, c);
    case Queue(c, q) => QueueSlots(s, c, q);
    case Push(sid, body) => PushFlags(s, sid, body); FlagsKeep(s, PushTo(s, sid, body));
    case _ => if WritesStatus(e) { StatusSlots(s, e); }
  }

  lemma GetSlots(s: State, e: Step)
    requires SlotsOk(s)
    ensures SlotsOk(GetStep(s, e))
  {
    if e.GetFind? {
      TurnAwaySlots(s, e.c, 404);
    } else {
      FlagsKeep(s, GetStep(s, e));
    }
  }

  lemma StepSlots(s: State, e: Step)
    requires SlotsOk(s)
    ensures SlotsOk(Apply(s, e))
  {
    if e.GetFind? || e.GetOpen? || e.GetList? {
      GetSlots(s, e);
    } else if IsPostStep(e) {
      PostFlags(s, e);
      FlagsKeep(s, PostStep(s, e));
    } else {
      NetSlots(s, e);
    }
  }

  lemma {:induction false} RunSlots(s: State, es: seq<Step>)
    requires SlotsOk(s)
    ensures SlotsOk(Run(s, es))
    decreases |es|
  {
    if es != [] {
      StepSlots(s, es[0]);
      RunSlots(Apply(s, es[0]), es[1..]);
    }
  }

  /** On every run: an inactive connection has given back its slot, once, if and
      only if no handler cleared it; the counter is the number of slots that were
      not given back, and it respects the cap. */
  lemma SlotsExact(cfg: Config, es: seq<Step>)
    ensures var s := Run(Start(cfg), es);
            && (forall c :: c in s.conns && !s.conns[c].active ==>
                  s.conns[c].released <= 1 && (s.conns[c].released == 1 <==> !s.conns[c].cleared))
            && (forall c :: c in s.conns && s.conns[c].active ==> s.conns[c].released == 0)
            && s.live == |Unreleased(s.conns)|
            && (cfg.maxConnections > 0 ==> s.live <= cfg.maxConnections)
  {
    assert Unreleased(map[]) == {};
    RunSlots(Start(cfg), es);
  }

  // ------------------------------------------------------------ slots that are lost

  /** The step answers on connection c and writes its flag: a request that is
      turned away, or a GET that names no session. */
  predicate ClearsDirectly(s: State, e: Step, c: ConnId) {
    || (e.TurnAway? && e.c == c)
    || (e.GetFind? && e.c == c && e.g !in s.gets && e.sid !in s.reg.table)
  }

  lemma NetClears(s: State, e: Step, c: ConnId)
    requires c in s.conns && !IsPostStep(e) && !e.GetFind? && !e.GetOpen? && !e.GetList?
    ensures NetStep(s, e).conns[c].cleared == (s.conns[c].cleared || (s.conns[c].active && ClearsDirectly(s, e, c)))
  {
    match e
    case Push(sid, body) => PushFlags(s, sid, body);
    case Close(st) => CloseKeeps(s, st, c);
    case ConnError(d) => ErrorKeeps(s, d, c);
    case Queue(d, q) => QueueKeeps(s, d, q, c); ErrorKeeps(ApplyQueue(s, d, q), d, c);
    case _ => if WritesStatus(e) { StatusClears(s, e, c); }
  }

  lemma ErrorKeeps(s: State, d: ConnId, c: ConnId)
    requires c in s.conns
    ensures OnError(s, d).conns[c].cleared == s.conns[c].cleared
  {
  }

  lemma QueueKeeps(s: State, d: ConnId, q: WQ.Step, c: ConnId)
    requires c in s.conns
    ensures ApplyQueue(s, d, q).conns[c].cleared == s.conns[c].cleared
  {
  }

  lemma CloseKeeps(s: State, st: StreamId, c: ConnId)
    requires c in s.conns
    ensures CloseStream(s, st).conns[c].cleared == s.conns[c].cleared
  {
    if st in s.streams {
      var popped, d := s.(closing := s.closing - {st}), s.streams[st].conn;
      QueueKeeps(popped, d, WQ.Shutdown, c);
      ErrorKeeps(CloseQueue(popped, d), d, c);
    }
  }

  lemma StatusClears(s: State, e: Step, c: ConnId)
    requires c in s.conns && WritesStatus(e)
    ensures StatusStep(s, e).conns[c].cleared == (s.conns[c].cleared || (s.conns[c].active && ClearsDirectly(s, e, c)))
  {
    match e
    case Delete(d, sid) => WriteFlags(s.cfg, s.conns, d, Status(StatusCode(s, e)));
    case Reply(d, code) => WriteFlags(s.cfg, s.conns, d, Status(code));
    case TurnAway(d, code) =>
  }

  lemma GetClears(s: State, e: Step, c: ConnId)
    requires c in s.conns && (e.GetFind? || e.GetOpen? || e.GetList?)
    ensures GetStep(s, e).conns.Keys == s.conns.Keys
    ensures GetStep(s, e).conns[c].cleared == (s.conns[c].cleared || (s.conns[c].active && ClearsDirectly(s, e, c)))
  {
  }

  /** A step loses the slot of an active connection exactly when it writes the
      flag directly; a lost slot stays lost. */
  lemma ClearExact(s: State, e: Step, c: ConnId)
    requires c in s.conns
    ensures c in Apply(s, e).conns
    ensures Apply(s, e).conns[c].cleared == (s.conns[c].cleared || (s.conns[c].active && ClearsDirectly(s, e, c)))
  {
    if e.GetFind? || e.GetOpen? || e.GetList? {
      GetClears(s, e, c);
    } else if IsPostStep(e) {
      PostFlags(s, e);
    } else {
      NetClears(s, e, c);
    }
  }

  /** No continuation gives a lost slot back. */
  lemma {:induction false} LostForever(s: State, es: seq<Step>, c: ConnId)
    requires SlotsOk(s) && c in s.conns && s.conns[c].cleared
    ensures var t := Run(s, es);
            c in t.conns && t.conns[c].cleared && !t.conns[c].active && t.conns[c].released == 0
    decreases |es|
  {
    if es != [] {
      StepSlots(s, es[0]);
      ClearExact(s, es[0], c);
      LostForever(Apply(s, es[0]), es[1..], c);
    }
  }

  /** A GET that names an unknown session is enough. */
  lemma SlotLost(cfg: Config) returns (es: seq<Step>)
    ensures var s := Run(Start(cfg), es);
            0 in s.conns && !s.conns[0].active && s.conns[0].released == 0 && s.live == 1
  {
    es := [Connect(0), GetFind(0, 0, 7)];
    var s0 := Start(cfg);
    var s1 := Apply(s0, es[0]);
    var s2 := Apply(s1, es[1]);
    assert es[1..] == [es[1]] && [es[1]][1..] == [];
    assert Run(s0, es) == Run(s1, [es[1]]) == Run(s2, []);
  }

  // --------------------------------------------------------- running out of slots

  /** Some continuation accepts a new connection. */
  ghost predicate CanStillAccept(s: State) {
    exists es, c :: c !in s.conns && c in Run(s, es).conns
  }

  lemma ClearedGrows(s: State, e: Step)
    ensures Cleared(s.conns) <= Cleared(Apply(s, e).conns)
  {
    forall c | c in Cleared(s.conns) ensures c in Cleared(Apply(s, e).conns) {
      ClearExact(s, e, c);
    }
  }

  lemma Bigger<T>(a: set<T>, b: set<T>)
    requires a <= b
    ensures |a| <= |b|
  {
    assert b == a + (b - a);
  }

  lemma ClearedUnreleased(s: State)
    requires SlotsOk(s)
    ensures |Cleared(s.conns)| <= s.live
  {
    assert Cleared(s.conns) <= Unreleased(s.conns);
    Bigger(Cleared(s.conns), Unreleased(s.conns));
  }

  lemma StepKeys(s: State, e: Step)
    requires s.cfg.maxConnections > 0 && s.live >= s.cfg.maxConnections
    ensures Apply(s, e).conns.Keys == s.conns.Keys
  {
  }

  lemma {:induction false} RunFull(s: State, es: seq<Step>)
    requires SlotsOk(s) && s.cfg.maxConnections > 0 && |Cleared(s.conns)| >= s.cfg.maxConnections
    ensures Run(s, es).conns.Keys == s.conns.Keys
    decreases |es|
  {
    if es != [] {
      var s' := Apply(s, es[0]);
      ClearedUnreleased(s);
      StepKeys(s, es[0]);
      StepSlots(s, es[0]);
      ClearedGrows(s, es[0]);
      Bigger(Cleared(s.conns), Cleared(s'.conns));
      RunFull(s', es[1..]);
    }
  }

  lemma ErrorFrees(s: State, c: ConnId)
    requires c in s.conns && s.conns[c].active
    ensures var s' := Apply(s, ConnError(c));
            && Active(s'.conns) == Active(s.conns) - {c} && s'.conns.Keys == s.conns.Keys
            && Cleared(s'.conns) == Cleared(s.conns) && s'.cfg == s.cfg
  {
  }

  /** Errors on the active connections free every slot that is not lost. */
  lemma {:induction false} FreeAll(s: State) returns (es: seq<Step>)
    requires SlotsOk(s)
    ensures var s' := Run(s, es);
            && SlotsOk(s') && Active(s'.conns) == {} && s'.conns.Keys == s.conns.Keys
            && Cleared(s'.conns) == Cleared(s.conns) && s'.cfg == s.cfg
    decreases |Active(s.conns)|
  {
    if Active(s.conns) == {} {
      es := [];
    } else {
      var c :| c in Active(s.conns);
      ErrorFrees(s, c);
      StepSlots(s, ConnError(c));
      var rest := FreeAll(Apply(s, ConnError(c)));
      es := [ConnError(c)] + rest;
      assert es[1..] == rest;
    }
  }

  lemma AllFreed(s: State)
    requires SlotsOk(s) && Active(s.conns) == {}
    ensures Unreleased(s.conns) == Cleared(s.conns)
  {
    assert forall c :: c in s.conns && s.conns[c].active ==> c in Active(s.conns);
  }

  lemma {:induction false} RunThen(s: State, es: seq<Step>, e: Step)
    ensures Run(s, es + [e]) == Apply(Run(s, es), e)
    decreases |es|
  {
    if es == [] {
      assert es + [e] == [e] && [e][1..] == [];
      assert Run(s, [e]) == Run(Apply(s, e), []);
    } else {
      assert (es + [e])[0] == es[0] && (es + [e])[1..] == es[1..] + [e];
      RunThen(Apply(s, es[0]), es[1..], e);
    }
  }

  /** A capped server can ever accept another connection if and only if fewer
      slots were lost than it has. */
  lemma LockoutExact(s: State)
    requires SlotsOk(s) && s.cfg.maxConnections > 0
    ensures CanStillAccept(s) <==> |Cleared(s.conns)| < s.cfg.maxConnections
  {
    if |Cleared(s.conns)| < s.cfg.maxConnections {
      var es := FreeAll(s);
      var free := Run(s, es);
      AllFreed(free);
      var c := FreshId(s.conns.Keys);
      RunThen(s, es, Connect(c));
      assert c !in s.conns && c in Run(s, es + [Connect(c)]).conns;
    } else {
      forall es, c | c !in s.conns ensures c !in Run(s, es).conns {
        RunFull(s, es);
      }
    }
  }
}
