/**
 * What each request to the Streamable HTTP transport is answered and does
 * (src/http_transport.cpp), its lock sections run one after the other.
 */
module HttpReplies {
  import opened Wrappers
  import opened HttpSessions
  import opened HttpLifecycle
  import opened HttpRouting
  import WQ = WriteQueue

  /** The item is offered to the write queue of connection c, and to no other. */
  ghost predicate Offered(s: State, s': State, c: ConnId, item: Item) {
    && s'.conns.Keys == s.conns.Keys
    && (forall d :: d in s.conns && d != c ==> s'.conns[d] == s.conns[d])
    && (c in s.conns ==>
          && s'.conns[c].queue == WQ.EnqueueCall(s.conns[c].queue, s.cfg.render(item))
          && s'.conns[c].out == s.conns[c].out
             + (if WQ.Takes(s.conns[c].queue.q, s.cfg.render(item)) then [item] else []))
  }

  // ------------------------------------------------------------------- POST

  /** A message or batch that is not an initialize reaches the server exactly when
      its session is known and initialized, and is then not answered yet; an
      unknown session is a 404, an uninitialized one a 400. */
  lemma PostExact(s: State, p: PostId, c: ConnId, sid: Sid)
    requires p !in s.posts
    ensures var s' := Apply(Apply(s, Find(p, c, sid)), Forward(p));
            && s'.reg == s.reg && s'.streams == s.streams
            && if sid !in s.reg.table then s'.received == s.received && Offered(s, s', c, Status(404))
               else if sid !in s.reg.initialized then s'.received == s.received && Offered(s, s', c, Status(400))
               else s'.received == s.received + [sid] && s'.conns == s.conns
                    && p in s'.posts && s'.posts[p] == Post(c, Handling(sid, false), None)
  {
    if sid !in s.reg.table {
      RefusedStays(s, p, c, 404);
    } else {
      var s1 := s.(posts := s.posts[p := Post(c, Found(sid), None)]);
      assert Apply(s, Find(p, c, sid)) == s1;
      FoundForwards(s1, p, c, sid);
    }
  }

  /** The initialized check decides. */
  lemma FoundForwards(s: State, p: PostId, c: ConnId, sid: Sid)
    requires p in s.posts && s.posts[p] == Post(c, Found(sid), None)
    ensures Apply(s, Forward(p))
            == if sid !in s.reg.initialized then Refuse(s, p, c, 400)
               else s.(posts := s.posts[p := Post(c, Handling(sid, false), None)], received := s.received + [sid])
    ensures Offered(s, Refuse(s, p, c, 400), c, Status(400))
  {
  }

  /** A refused message goes no further. */
  lemma RefusedStays(s: State, p: PostId, c: ConnId, code: nat)
    requires p !in s.posts
    ensures var s' := Refuse(s, p, c, code); Apply(s', Forward(p)) == s' && Offered(s, s', c, Status(code))
  {
  }

  /** An initialize gets a new, uninitialized, empty session exactly when the cap
      leaves room for one; otherwise a 429 and nothing else. */
  lemma InitializeExact(s: State, p: PostId, c: ConnId, now: int)
    requires Lifecycle(s) && p !in s.posts
    ensures var s' := Apply(Apply(s, InitCheck(p, c)), InitCreate(p, now));
            var sid := s.reg.nextSid;
            if s.cfg.maxSessions == 0 || |s.reg.table| < s.cfg.maxSessions then
              && sid !in s.reg.table && s'.reg.table == s.reg.table + {sid} && sid !in s'.reg.initialized
              && s'.reg.lists == s.reg.lists[sid := []] && s'.reg.touched == s.reg.touched[sid := now]
              && s'.conns == s.conns && p in s'.posts && s'.posts[p] == Post(c, Handling(sid, true), None)
            else
              s'.reg == s.reg && Offered(s, s', c, Status(429))
  {
    NextSidFresh(s);
    if Full(s) {
      InitializeRefused(s, p, c, now);
    } else {
      var s1 := Apply(s, InitCheck(p, c));
      assert s1 == s.(posts := s.posts[p := Post(c, Checked, None)]);
    }
  }

  lemma InitializeRefused(s: State, p: PostId, c: ConnId, now: int)
    requires p !in s.posts && Full(s)
    ensures var s' := Apply(Apply(s, InitCheck(p, c)), InitCreate(p, now));
            s'.reg == s.reg && Offered(s, s', c, Status(429))
  {
  }

  lemma NextSidFresh(s: State)
    requires Lifecycle(s)
    ensures s.reg.nextSid !in s.reg.table && s.reg.nextSid !in s.reg.initialized
  {
    forall sid | sid in s.reg.creator ensures sid < s.reg.nextSid {
      assert OwnerOk(s, sid);
    }
  }

  /** The answer to an initialize decides: a result that was not thrown over keeps
      the session and marks it; an error body, a throw or silence removes it. */
  lemma InitializeEnds(s: State, p: PostId, sid: Sid, body: Body, threw: bool)
    requires p in s.posts && s.posts[p].phase == Handling(sid, true) && s.posts[p].first.None? && sid in s.reg.table
    ensures var s1 := Apply(s, Emit(p, body));
            var s2 := Apply(s1, InitFinish(p, threw));
            && Offered(s, s1, s.posts[p].conn, PostBody(p, body)) && s2.conns == s1.conns
            && s2.reg.table == (if threw || body.isError then s.reg.table - {sid} else s.reg.table)
            && s2.reg.initialized == (if threw || body.isError then s.reg.initialized else s.reg.initialized + {sid})
    ensures Apply(s, InitFinish(p, threw)).reg.table == s.reg.table - {sid}
    ensures Apply(s, InitFinish(p, threw)).reg.initialized == s.reg.initialized
  {
  }

  /** The first emission of a POST is its body, every later one a frame for the
      session's streams. */
  lemma EmitExact(s: State, p: PostId, body: Body)
    requires p in s.posts && s.posts[p].phase.Handling?
    ensures var s', sid := Apply(s, Emit(p, body)), s.posts[p].phase.sid;
            if s.posts[p].first.None? then
              && Offered(s, s', s.posts[p].conn, PostBody(p, body))
              && s'.posts == s.posts[p := s.posts[p].(first := Some(body))]
            else s' == Apply(s, Push(sid, body))
  {
  }

  // ------------------------------------------------------------ streams

  /** A push reaches exactly the connections of the session's listed active
      streams, as often as they have such streams and their queues have room; a
      session that is not in the table gets nothing. */
  lemma PushReaches(s: State, sid: Sid, body: Body, c: ConnId)
    requires Lifecycle(s) && c in s.conns
    ensures var s', item := Apply(s, Push(sid, body)), StreamFrame(sid, body);
            && s'.reg == s.reg && s'.streams == s.streams && c in s'.conns
            && s'.conns[c].out == s.conns[c].out +
                 (if sid in s.reg.table
                  then Copies(item, Taken(s.conns[c].queue.q, s.cfg.render(item), Hits(s.streams, s.reg.lists[sid], c)))
                  else [])
  {
    if sid in s.reg.table {
      PushAllExact(s.cfg, s.conns, s.streams, s.reg.lists[sid], StreamFrame(sid, body), c);
    } else {
      assert s.conns[c].out + [] == s.conns[c].out;
    }
  }

  /** The state after the three sections of a GET. */
  function Opened(s: State, g: GetId, c: ConnId, sid: Sid, st: StreamId, now: int): State {
    Apply(Apply(Apply(s, GetFind(g, c, sid)), GetOpen(g, st)), GetList(g, now))
  }

  /** A GET for a known session opens one active stream on its connection, at the
      end of that session's list, after the stream headers. */
  lemma GetExact(s: State, g: GetId, c: ConnId, sid: Sid, st: StreamId, now: int)
    requires Lifecycle(s) && g !in s.gets && c in s.conns && st !in s.streams && sid in s.reg.table
    ensures var s' := Opened(s, g, c, sid, st, now);
            && s'.streams == s.streams[st := Stream(c, sid, true)]
            && s'.reg.lists == s.reg.lists[sid := s.reg.lists[sid] + [st]]
            && s'.reg.touched == s.reg.touched[sid := now] && s'.reg.table == s.reg.table
            && Offered(s, s', c, StreamHeaders(sid)) && s'.conns[c].hook == Some(st)
            && s'.conns[c].active == s.conns[c].active
  {
    var s1 := s.(gets := s.gets[g := GetFound(c, sid)]);
    assert Apply(s, GetFind(g, c, sid)) == s1;
    OpenExact(s1, g, c, sid, st);
    ListExact(Apply(s1, GetOpen(g, st)), g, st, sid, now);
  }

  lemma OpenExact(s: State, g: GetId, c: ConnId, sid: Sid, st: StreamId)
    requires g in s.gets && s.gets[g] == GetFound(c, sid) && c in s.conns && st !in s.streams
    ensures var s' := Apply(s, GetOpen(g, st));
            && s'.streams == s.streams[st := Stream(c, sid, true)] && s'.reg == s.reg
            && g in s'.gets && s'.gets[g] == GetOpened(st)
            && Offered(s, s', c, StreamHeaders(sid)) && s'.conns[c].hook == Some(st)
            && s'.conns[c].active == s.conns[c].active
  {
  }

  lemma ListExact(s: State, g: GetId, st: StreamId, sid: Sid, now: int)
    requires g in s.gets && s.gets[g] == GetOpened(st) && st in s.streams && s.streams[st].home == sid
    requires sid in s.reg.lists && sid in s.reg.touched
    ensures var s' := Apply(s, GetList(g, now));
            && s'.streams == s.streams && s'.conns == s.conns && s'.reg.table == s.reg.table
            && s'.reg.lists == s.reg.lists[sid := s.reg.lists[sid] + [st]]
            && s'.reg.touched == s.reg.touched[sid := now]
  {
  }

  /** A GET for an unknown session is a 404 and opens nothing. */
  lemma GetUnknown(s: State, g: GetId, c: ConnId, sid: Sid, st: StreamId, now: int)
    requires g !in s.gets && c in s.conns && sid !in s.reg.table
    ensures var s' := Opened(s, g, c, sid, st, now);
            && s'.reg == s.reg && s'.streams == s.streams && s'.conns[c].hook == s.conns[c].hook && !s'.conns[c].active
            && Offered(s, s', c, Status(404))
  {
    var s1 := Apply(s, GetFind(g, c, sid));
    assert s1.gets[g] == GetDone;
  }

  /** A broken connection takes the stream it opened last off its session's list,
      once, and touches no other list. */
  lemma DisconnectExact(s: State, c: ConnId)
    requires c in s.conns
    ensures var s' := Apply(s, ConnError(c));
            && s'.streams == s.streams && s'.reg.table == s.reg.table && !s'.conns[c].active
            && (!s.conns[c].active ==> s' == s)
            && s'.reg.lists.Keys == s.reg.lists.Keys
            && forall sid, st :: sid in s.reg.lists ==>
                 (st in s'.reg.lists[sid] <==> st in s.reg.lists[sid] && !(s.conns[c].active && Hooked(s, c, st, sid)))
  {
  }

  /** The stream that the connection's on_disconnect would take off this list. */
  predicate Hooked(s: State, c: ConnId, st: StreamId, sid: Sid)
    requires c in s.conns
  {
    s.conns[c].hook == Some(st) && st in s.streams && s.streams[st].home == sid
  }

  /** A connection after its on_error: inactive, its hooks run once if they had not. */
  predicate Down(s: State, s': State, c: ConnId)
    requires c in s.conns
  {
    && c in s'.conns && !s'.conns[c].active
    && s'.conns[c].released == s.conns[c].released + (if s.conns[c].active then 1 else 0)
    && s'.live == (if s.conns[c].active && s.live > 0 then s.live - 1 else s.live)
    && (s.conns[c].active && s.conns[c].hook.Some? ==>
          forall sid :: sid in s'.reg.lists && Hooked(s, c, s.conns[c].hook.value, sid) ==>
            s.conns[c].hook.value !in s'.reg.lists[sid])
  }

  lemma ErrorTakesDown(s: State, c: ConnId)
    requires c in s.conns
    ensures Down(s, OnError(s, c), c)
    ensures OnError(s, c).conns[c].queue == s.conns[c].queue && OnError(s, c).closing == s.closing
  {
  }

  /** Closing a removed stream shuts the queue of its connection and takes the
      connection down; a stream that is not waiting to be closed is left alone. */
  lemma CloseExact(s: State, st: StreamId)
    requires st in s.streams && s.streams[st].conn in s.conns
    ensures var s', c := Apply(s, Close(st)), s.streams[st].conn;
            if st in s.closing then
              Down(s, s', c) && s'.closing == s.closing - {st} && s'.conns[c].queue.closed
              && !s'.conns[c].queue.q.active && s'.conns[c].queue.q.items == []
            else s' == s
  {
    ErrorTakesDown(CloseQueue(s.(closing := s.closing - {st}), s.streams[st].conn), s.streams[st].conn);
  }

  /** An error callback that the queue owes takes the connection down. */
  lemma QueueErrorExact(s: State, c: ConnId)
    requires c in s.conns
    ensures var s', due := Apply(s, Queue(c, WQ.FireError)), s.conns[c].queue.errorsDue;
            if due > 0 then Down(s, s', c) && s'.conns[c].queue.errorsDue == due - 1 else s' == s
  {
    ErrorTakesDown(ApplyQueue(s, c, WQ.FireError), c);
  }

  // ------------------------------------------------------------ removal

  /** DELETE removes exactly the session it names, silences its listed streams and
      answers 200; for an unknown session it answers 404 and does nothing. */
  lemma DeleteExact(s: State, c: ConnId, sid: Sid)
    ensures var s' := Apply(s, Delete(c, sid));
            if sid in s.reg.table then
              && Offered(s, s', c, Status(200)) && s'.reg.table == s.reg.table - {sid}
              && s'.streams.Keys == s.streams.Keys
              && (forall st :: st in s.streams ==>
                    s'.streams[st].active
                    == (s.streams[st].active && !(sid in s.reg.lists && st in s.reg.lists[sid])))
              && (forall t :: t in s.reg.lists ==>
                    t in s'.reg.lists && s'.reg.lists[t] == if t == sid then [] else s.reg.lists[t])
            else
              s'.reg == s.reg && s'.streams == s.streams && Offered(s, s', c, Status(404))
  {
    var s' := Apply(s, Delete(c, sid));
    if sid in s.reg.table {
      assert forall st :: st in Listed(s.reg.lists, {sid}) <==> sid in s.reg.lists && st in s.reg.lists[sid];
    }
  }

  /** A sweep keeps exactly the sessions that were active within the timeout. */
  lemma SweepExact(s: State, now: int)
    requires Lifecycle(s)
    ensures forall sid :: sid in Apply(s, Sweep(now)).reg.table
              <==> sid in s.reg.table && now - s.reg.touched[sid] <= s.cfg.idleTimeout
  {
  }

  /** stop() leaves no session. */
  lemma StopExact(s: State)
    ensures Apply(s, Stop).reg.table == {}
  {
  }

  // ------------------------------------------------------- a touched session

  /** The step neither removes sid by name nor sweeps at a time when a session
      active at t would be idle for too long; clocks do not go back. */
  predicate Spares(cfg: Config, e: Step, sid: Sid, t: int) {
    && !(e.Delete? && e.sid == sid) && !e.Stop?
    && (e.Sweep? ==> e.now - t <= cfg.idleTimeout)
    && (e.Touch? || e.GetList? || e.InitCreate? ==> e.now >= t)
  }

  /** sid is live, committed, and was active at t or later. */
  ghost predicate Fresh(s: State, sid: Sid, t: int) {
    && sid in s.reg.table && sid in s.reg.initialized && sid < s.reg.nextSid
    && sid in s.reg.touched && s.reg.touched[sid] >= t
  }

  /** A POST that makes no session and ends none leaves the registry alone. */
  lemma SameRegistry(s: State, e: Step)
    requires IsPostStep(e) && !e.InitCreate? && !e.InitFinish? && !e.Touch?
    ensures PostStep(s, e).reg == s.reg && PostStep(s, e).cfg == s.cfg
  {
  }

  lemma CreateFresh(s: State, p: PostId, now: int, sid: Sid, t: int)
    requires Fresh(s, sid, t) && now >= t
    ensures Fresh(PostStep(s, InitCreate(p, now)), sid, t)
  {
  }

  lemma TouchFresh(s: State, p: PostId, now: int, sid: Sid, t: int)
    requires Fresh(s, sid, t) && now >= t
    ensures Fresh(PostStep(s, Touch(p, now)), sid, t)
  {
  }

  lemma PostFresh(s: State, e: Step, sid: Sid, t: int)
    requires Lifecycle(s) && Fresh(s, sid, t) && Spares(s.cfg, e, sid, t) && IsPostStep(e)
    ensures Fresh(PostStep(s, e), sid, t)
  {
    if e.InitCreate? {
      CreateFresh(s, e.p, e.now, sid, t);
    } else if e.InitFinish? {
      FinishFresh(s, e.p, e.threw, sid, t);
    } else if e.Touch? {
      TouchFresh(s, e.p, e.now, sid, t);
    } else {
      SameRegistry(s, e);
    }
  }

  /** Only the POST that made a session can roll it back, and not once it committed. */
  lemma FinishFresh(s: State, p: PostId, threw: bool, sid: Sid, t: int)
    requires Lifecycle(s) && Fresh(s, sid, t)
    ensures Fresh(PostStep(s, InitFinish(p, threw)), sid, t)
  {
    assert OwnerOk(s, sid);
    if p in s.posts && s.posts[p].phase.Handling? && s.posts[p].phase.initialize {
      assert PhaseOk(s, p);
    }
  }

  lemma RemoveFresh(s: State, gone: set<Sid>, sid: Sid, t: int)
    requires Fresh(s, sid, t) && sid !in gone
    ensures Fresh(Remove(s, gone), sid, t)
  {
  }

  lemma StatusFresh(s: State, e: Step, sid: Sid, t: int)
    requires Fresh(s, sid, t) && WritesStatus(e) && !(e.Delete? && e.sid == sid)
    ensures Fresh(StatusStep(s, e), sid, t)
  {
  }

  lemma ConnFresh(s: State, e: Step, sid: Sid, t: int)
    requires Fresh(s, sid, t) && !IsPostStep(e) && !WritesStatus(e) && !e.Sweep? && !e.Stop?
    ensures Fresh(NetStep(s, e), sid, t)
  {
  }

  lemma NetFresh(s: State, e: Step, sid: Sid, t: int)
    requires Fresh(s, sid, t) && Spares(s.cfg, e, sid, t) && !IsPostStep(e)
    ensures Fresh(NetStep(s, e), sid, t)
  {
    if e.Sweep? {
      RemoveFresh(s, Expired(s, e.now), sid, t);
    } else if WritesStatus(e) {
      StatusFresh(s, e, sid, t);
    } else {
      ConnFresh(s, e, sid, t);
    }
  }

  lemma GetFresh(s: State, e: Step, sid: Sid, t: int)
    requires Fresh(s, sid, t) && Spares(s.cfg, e, sid, t)
    ensures Fresh(GetStep(s, e), sid, t)
  {
  }

  predicate IsGetStep(e: Step) {
    e.GetFind? || e.GetOpen? || e.GetList?
  }

  lemma StepIs(s: State, e: Step)
    ensures Apply(s, e)
            == if IsGetStep(e) then GetStep(s, e) else if IsPostStep(e) then PostStep(s, e) else NetStep(s, e)
  {
  }

  lemma StepFresh(s: State, e: Step, s': State, sid: Sid, t: int)
    requires Lifecycle(s) && Fresh(s, sid, t) && Spares(s.cfg, e, sid, t)
    requires s' == if IsGetStep(e) then GetStep(s, e) else if IsPostStep(e) then PostStep(s, e) else NetStep(s, e)
    ensures Fresh(s', sid, t)
  {
    if IsGetStep(e) {
      GetFresh(s, e, sid, t);
    } else if IsPostStep(e) {
      PostFresh(s, e, sid, t);
    } else {
      NetFresh(s, e, sid, t);
    }
  }

  lemma {:induction false} RunFresh(s: State, es: seq<Step>, sid: Sid, t: int)
    requires Lifecycle(s) && Fresh(s, sid, t) && forall i :: 0 <= i < |es| ==> Spares(s.cfg, es[i], sid, t)
    ensures Fresh(Run(s, es), sid, t)
    decreases |es|
  {
    if es != [] {
      StepIs(s, es[0]);
      StepFresh(s, es[0], Apply(s, es[0]), sid, t);
      StepLifecycle(s, es[0]);
      RunFresh(Apply(s, es[0]), es[1..], sid, t);
    }
  }

  /** A message touches its session, and a session touched at t outlives every
      sweep within the timeout, on every run that does not remove it otherwise. */
  lemma TouchedSurvives(s: State, p: PostId, sid: Sid, t: int, es: seq<Step>)
    requires Lifecycle(s) && sid in s.reg.table && sid in s.reg.initialized
    requires p in s.posts && s.posts[p].phase == Handling(sid, false)
    requires forall i :: 0 <= i < |es| ==> Spares(s.cfg, es[i], sid, t)
    ensures sid in Run(Apply(s, Touch(p, t)), es).reg.table
  {
    TouchMakesFresh(s, p, sid, t);
    StepLifecycle(s, Touch(p, t));
    StepIs(s, Touch(p, t));
    RunFresh(Apply(s, Touch(p, t)), es, sid, t);
  }

  lemma TouchMakesFresh(s: State, p: PostId, sid: Sid, t: int)
    requires Lifecycle(s) && sid in s.reg.table && sid in s.reg.initialized
    requires p in s.posts && s.posts[p].phase == Handling(sid, false)
    ensures Fresh(PostStep(s, Touch(p, t)), sid, t)
  {
    assert OwnerOk(s, sid);
  }
}
