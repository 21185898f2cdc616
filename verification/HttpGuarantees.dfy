/** Whole-run guarantees of the Streamable HTTP transport. */
module HttpGuarantees {
  import opened Wrappers
  import opened HttpSessions
  import opened HttpRouting

  // ------------------------------------------------------ one body per POST

  ghost predicate BodyOwned(s: State, c: ConnId, item: Item) {
    item.PostBody? ==>
      item.post in s.posts && s.posts[item.post].conn == c && s.posts[item.post].first == Some(item.body)
  }

  /** Every body on the wire is the first emission of its POST, on that POST's
      own connection, and no connection carries two bodies of one POST. */
  ghost predicate BodiesOnce(s: State) {
    && (forall c, i :: c in s.conns && 0 <= i < |s.conns[c].out| ==> BodyOwned(s, c, s.conns[c].out[i]))
    && (forall c :: c in s.conns ==> DistinctBodies(s.conns[c].out))
    && NoEarlyBody(s.posts)
  }

  ghost predicate DistinctBodies(out: seq<Item>) {
    forall i, j :: 0 <= i < j < |out| && out[i].PostBody? && out[j].PostBody? ==> out[i].post != out[j].post
  }

  ghost predicate NoEarlyBody(posts: map<PostId, Post>) {
    forall p :: p in posts && (posts[p].phase.Checked? || posts[p].phase.Found?) ==> posts[p].first.None?
  }

  ghost predicate PostsKept(posts: map<PostId, Post>, posts': map<PostId, Post>) {
    && NoEarlyBody(posts')
    && (forall p :: p in posts ==>
          && p in posts' && posts'[p].conn == posts[p].conn
          && (posts[p].first.Some? ==> posts'[p].first == posts[p].first))
  }

  lemma OnePost(posts: map<PostId, Post>, p: PostId, post: Post)
    requires NoEarlyBody(posts)
    requires p in posts ==> post.conn == posts[p].conn && (posts[p].first.Some? ==> post.first == posts[p].first)
    requires post.phase.Checked? || post.phase.Found? ==> post.first.None?
    ensures PostsKept(posts, posts[p := post])
  {
  }

  lemma InitStepPosts(s: State, e: Step)
    requires NoEarlyBody(s.posts) && (e.InitCheck? || e.InitCreate? || e.InitFinish?)
    ensures PostsKept(s.posts, PostStep(s, e).posts)
  {
    var posts' := PostStep(s, e).posts;
    if e.p in posts' {
      OnePost(s.posts, e.p, posts'[e.p]);
    }
  }

  lemma PostStepPosts(s: State, e: Step)
    requires NoEarlyBody(s.posts)
    ensures PostsKept(s.posts, PostStep(s, e).posts)
  {
    var posts' := PostStep(s, e).posts;
    if e.InitCheck? || e.InitCreate? || e.InitFinish? {
      InitStepPosts(s, e);
    } else if (e.Find? || e.Forward? || e.Emit?) && e.p in posts' {
      OnePost(s.posts, e.p, posts'[e.p]);
    }
  }

  lemma StepPosts(s: State, e: Step)
    requires NoEarlyBody(s.posts)
    ensures PostsKept(s.posts, Apply(s, e).posts)
  {
    if IsPostStep(e) {
      PostStepPosts(s, e);
    }
  }

  lemma GrowthBodies(s: State, s': State)
    requires BodiesOnce(s) && PostsKept(s.posts, s'.posts) && Extends(s.conns, s'.conns)
    requires forall c, i :: c in s.conns && |s.conns[c].out| <= i < |s'.conns[c].out| ==> !s'.conns[c].out[i].PostBody?
    ensures BodiesOnce(s')
  {
    forall c, i | c in s'.conns && 0 <= i < |s'.conns[c].out| && s'.conns[c].out[i].PostBody?
      ensures c in s.conns && i < |s.conns[c].out| && s'.conns[c].out[i] == s.conns[c].out[i]
      ensures BodyOwned(s', c, s'.conns[c].out[i])
    {
      assert BodyOwned(s, c, s.conns[c].out[i]);
    }
  }

  lemma PushExtends(s: State, sid: Sid, body: Body)
    ensures var s' := PushTo(s, sid, body);
            && Extends(s.conns, s'.conns)
            && (forall c, i :: c in s.conns && |s.conns[c].out| <= i < |s'.conns[c].out| ==>
                  s'.conns[c].out[i] == StreamFrame(sid, body) && sid in s.reg.table)
  {
    var s' := PushTo(s, sid, body);
    if sid in s.reg.table && sid in s.reg.lists {
      forall c | c in s.conns
        ensures s.conns[c].out <= s'.conns[c].out
        ensures forall i :: |s.conns[c].out| <= i < |s'.conns[c].out| ==> s'.conns[c].out[i] == StreamFrame(sid, body)
      {
        PushAllExact(s.cfg, s.conns, s.streams, s.reg.lists[sid], StreamFrame(sid, body), c);
      }
    }
  }

  lemma FirstBody(s: State, p: PostId, body: Body)
    requires BodiesOnce(s) && p in s.posts && s.posts[p].phase.Handling? && s.posts[p].first.None?
    ensures BodiesOnce(EmitBody(s, p, body))
  {
    var s' := EmitBody(s, p, body);
    var d := s.posts[p].conn;
    WriteGrows(s.cfg, s.conns, d, PostBody(p, body));
    forall c, i | c in s.conns && 0 <= i < |s.conns[c].out|
      ensures BodyOwned(s', c, s.conns[c].out[i])
      ensures s.conns[c].out[i].PostBody? ==> s.conns[c].out[i].post != p
    {
      assert BodyOwned(s, c, s.conns[c].out[i]);
    }
    forall c, i | c in s'.conns && 0 <= i < |s'.conns[c].out| ensures BodyOwned(s', c, s'.conns[c].out[i]) {
      if i < |s.conns[c].out| { assert s'.conns[c].out[i] == s.conns[c].out[i]; }
    }
  }

  lemma PushBodies(s: State, sid: Sid, body: Body)
    requires BodiesOnce(s)
    ensures BodiesOnce(PushTo(s, sid, body))
  {
    PushExtends(s, sid, body);
    GrowthBodies(s, PushTo(s, sid, body));
  }

  lemma StepBodies(s: State, e: Step)
    requires BodiesOnce(s)
    ensures BodiesOnce(Apply(s, e))
  {
    if e.Push? {
      PushBodies(s, e.sid, e.body);
    } else if e.Emit? {
      if e.p in s.posts && s.posts[e.p].phase.Handling? {
        if s.posts[e.p].first.None? {
          FirstBody(s, e.p, e.body);
        } else {
          PushBodies(s, s.posts[e.p].phase.sid, e.body);
        }
      }
    } else {
      StepPosts(s, e);
      StepPlain(s, e);
      GrowthBodies(s, Apply(s, e));
    }
  }

  lemma {:induction false} RunRouting(s: State, es: seq<Step>)
    requires Routed(s) && FramesHome(s) && BodiesOnce(s)
    ensures Routed(Run(s, es)) && FramesHome(Run(s, es)) && BodiesOnce(Run(s, es))
    decreases |es|
  {
    if es != [] {
      StepRouted(s, es[0]);
      StepHome(s, es[0]);
      StepBodies(s, es[0]);
      RunRouting(Apply(s, es[0]), es[1..]);
    }
  }

  /** Routing in every reachable state: one list per stream, frames only on the
      session's own connections, at most one body per POST. */
  lemma StreamRouting(cfg: Config, es: seq<Step>)
    ensures var s := Run(Start(cfg), es);
            Routed(s) && FramesHome(s) && BodiesOnce(s)
  {
    RunRouting(Start(cfg), es);
  }

  // ------------------------------------------------------- after a removal

  /** What DELETE, sweep and stop do to the streams they find listed. */
  lemma RemoveSilences(s: State, gone: set<Sid>)
    requires Routed(s)
    ensures var s' := Remove(s, gone);
            && s'.reg.table !! gone
            && (forall sid :: sid in gone && sid in s.reg.lists ==> s'.reg.lists[sid] == [])
            && (forall sid, st :: sid in gone && sid in s.reg.lists && st in s.reg.lists[sid] ==>
                  st in s'.streams && !s'.streams[st].active && st in s'.closing)
            && (forall st :: st in s.streams && st !in Listed(s.reg.lists, gone) ==> s'.streams[st] == s.streams[st])
  {
    forall sid, st | sid in gone && sid in s.reg.lists && st in s.reg.lists[sid]
      ensures st in s.streams && st in Listed(s.reg.lists, gone)
    {
      var i :| 0 <= i < |s.reg.lists[sid]| && s.reg.lists[sid][i] == st;
    }
  }

  /** No connection receives a frame of sid between the two moments. */
  ghost predicate Silent(sid: Sid, s: State, s': State) {
    && s.conns.Keys <= s'.conns.Keys
    && (forall c :: c in s.conns ==> s.conns[c].out <= s'.conns[c].out)
    && (forall c, i :: c in s'.conns && (if c in s.conns then |s.conns[c].out| else 0) <= i < |s'.conns[c].out| ==>
          !(s'.conns[c].out[i].StreamFrame? && s'.conns[c].out[i].sid == sid))
  }

  lemma SilentTrans(sid: Sid, s: State, m: State, t: State)
    requires Silent(sid, s, m) && Silent(sid, m, t)
    ensures Silent(sid, s, t)
  {
    forall c, i | c in t.conns && (if c in s.conns then |s.conns[c].out| else 0) <= i < |t.conns[c].out|
      ensures !(t.conns[c].out[i].StreamFrame? && t.conns[c].out[i].sid == sid)
    {
      if c in m.conns && i < |m.conns[c].out| {
        assert t.conns[c].out[i] == m.conns[c].out[i];
      }
    }
  }

  /** Ids are never reused, so a removed session never returns. */
  lemma StepTable(s: State, e: Step)
    ensures s.reg.nextSid <= Apply(s, e).reg.nextSid
    ensures Apply(s, e).reg.table <= s.reg.table + {s.reg.nextSid}
  {
  }

  lemma StepSilent(s: State, e: Step, sid: Sid)
    requires sid !in s.reg.table
    ensures Silent(sid, s, Apply(s, e))
  {
    if e.Push? {
      PushSilent(s, e.sid, e.body, sid);
    } else if e.Emit? && e.p in s.posts && s.posts[e.p].phase.Handling? {
      EmitSilent(s, e.p, e.body, sid);
    } else if e.Emit? {
      assert Apply(s, e) == s;
    } else {
      StepPlain(s, e);
      PlainSilent(s, Apply(s, e), sid);
    }
  }

  lemma PlainSilent(s: State, s': State, sid: Sid)
    requires GrowsPlain(s.conns, s'.conns)
    ensures Silent(sid, s, s')
  {
  }

  lemma PushSilent(s: State, t: Sid, body: Body, sid: Sid)
    requires sid !in s.reg.table
    ensures Silent(sid, s, PushTo(s, t, body))
  {
    PushExtends(s, t, body);
  }

  lemma EmitSilent(s: State, p: PostId, body: Body, sid: Sid)
    requires sid !in s.reg.table && p in s.posts && s.posts[p].phase.Handling?
    ensures Silent(sid, s, EmitBody(s, p, body))
  {
    if s.posts[p].first.None? {
      WriteGrows(s.cfg, s.conns, s.posts[p].conn, PostBody(p, body));
    } else {
      PushSilent(s, s.posts[p].phase.sid, body, sid);
    }
  }

  /** Once removed, a session is never back in the table, none of its frames is
      ever written again, and a deactivated stream stays deactivated. */
  lemma {:induction false} RemovedForever(s: State, es: seq<Step>, sid: Sid)
    requires sid < s.reg.nextSid && sid !in s.reg.table
    ensures sid !in Run(s, es).reg.table
    ensures Silent(sid, s, Run(s, es))
    ensures StreamsKept(s.streams, Run(s, es).streams)
    decreases |es|
  {
    if es != [] {
      var m := Apply(s, es[0]);
      StepTable(s, es[0]);
      StepSilent(s, es[0], sid);
      StepStreams(s, es[0]);
      RemovedForever(m, es[1..], sid);
      SilentTrans(sid, s, m, Run(s, es));
    }
  }

  // ------------------------------------------------- streams opened too late

  ghost predicate ActiveListed(s: State, sid: Sid) {
    sid in s.reg.lists &&
    exists st :: st in s.reg.lists[sid] && st in s.streams && s.streams[st].active
  }

  /** A GET that found the session before it was removed and has yet to list
      its stream. */
  ghost predicate LateGet(s: State, g: GetId, sid: Sid) {
    && g in s.gets
    && match s.gets[g]
       case GetFound(c, t) => t == sid && c in s.conns
       case GetOpened(st) => st in s.streams && s.streams[st].home == sid && s.streams[st].active
       case GetDone => false
  }

  ghost predicate NoLate(s: State, sid: Sid) {
    !ActiveListed(s, sid) && forall g :: g in s.gets ==> !LateGet(s, g, sid)
  }

  /** `lists` of one session over `streams`, none of it active. */
  lemma ShrinkNoLate(s: State, s': State, sid: Sid)
    requires NoLate(s, sid) && Shrinks(s, s') && s'.conns.Keys == s.conns.Keys
    ensures NoLate(s', sid)
  {
    if sid in s'.reg.lists {
      assert Sublist(s'.reg.lists[sid], s.reg.lists[sid]);
    }
    forall g | g in s'.gets ensures !LateGet(s', g, sid) {
      assert !LateGet(s, g, sid);
    }
  }

  lemma NetNoLate(s: State, e: Step, sid: Sid)
    requires Routed(s) && NoLate(s, sid)
    ensures NoLate(NetStep(s, e), sid)
  {
    var s' := NetStep(s, e);
    if e.Connect? {
      forall g | g in s'.gets ensures !LateGet(s', g, sid) { assert !LateGet(s, g, sid); }
    } else {
      ShrinkNoLate(s, s', sid);
    }
  }

  lemma GetNoLate(s: State, e: Step, sid: Sid)
    requires Routed(s) && NoLate(s, sid) && sid !in s.reg.table
    ensures NoLate(GetStep(s, e), sid)
  {
    var s' := GetStep(s, e);
    forall g | g in s'.gets ensures !LateGet(s', g, sid) {
      if g in s.gets { assert !LateGet(s, g, sid); }
    }
    assert e.GetList? && e.g in s.gets ==> !LateGet(s, e.g, sid);
  }

  lemma PostNoLate(s: State, e: Step, sid: Sid)
    requires NoLate(s, sid) && sid < s.reg.nextSid
    ensures NoLate(PostStep(s, e), sid)
  {
    var s' := PostStep(s, e);
    forall g | g in s'.gets ensures !LateGet(s', g, sid) { assert !LateGet(s, g, sid); }
  }

  lemma StepNoLate(s: State, e: Step, sid: Sid)
    requires Routed(s) && NoLate(s, sid) && sid !in s.reg.table && sid < s.reg.nextSid
    ensures NoLate(Apply(s, e), sid)
  {
    if e.GetFind? || e.GetOpen? || e.GetList? {
      GetNoLate(s, e, sid);
    } else if IsPostStep(e) {
      PostNoLate(s, e, sid);
    } else {
      NetNoLate(s, e, sid);
    }
  }

  lemma {:induction false} RunNoLate(s: State, es: seq<Step>, sid: Sid)
    requires Routed(s) && NoLate(s, sid) && sid !in s.reg.table && sid < s.reg.nextSid
    ensures NoLate(Run(s, es), sid)
    decreases |es|
  {
    if es != [] {
      StepNoLate(s, es[0], sid);
      StepRouted(s, es[0]);
      StepTable(s, es[0]);
      RunNoLate(Apply(s, es[0]), es[1..], sid);
    }
  }

  lemma LateGetLists(s: State, g: GetId, sid: Sid) returns (es: seq<Step>)
    requires LateGet(s, g, sid) && sid in s.reg.lists
    ensures ActiveListed(Run(s, es), sid)
  {
    if s.gets[g].GetFound? {
      var st := FreshId(s.streams.Keys);
      es := [GetOpen(g, st), GetList(g, 0)];
      var s1 := Apply(s, es[0]);
      var s2 := Apply(s1, es[1]);
      assert es[1..] == [es[1]] && [es[1]][1..] == [];
      assert Run(s, es) == Run(s1, [es[1]]) == Run(s2, []);
      assert s2.reg.lists[sid] == s.reg.lists[sid] + [st];
      assert st in s2.reg.lists[sid];
    } else {
      var st := s.gets[g].stream;
      es := [GetList(g, 0)];
      assert es[1..] == [];
      assert Run(s, es) == Run(Apply(s, es[0]), []);
      assert Apply(s, es[0]).reg.lists[sid] == s.reg.lists[sid] + [st];
      assert st in Apply(s, es[0]).reg.lists[sid];
    }
  }

  ghost predicate CanStillList(s: State, sid: Sid) {
    exists es :: ActiveListed(Run(s, es), sid)
  }

  ghost predicate SomeLateGet(s: State, sid: Sid) {
    exists g :: LateGet(s, g, sid)
  }

  lemma NoLateNeverLists(s: State, sid: Sid)
    requires Routed(s) && sid !in s.reg.table && sid < s.reg.nextSid && NoLate(s, sid)
    ensures !CanStillList(s, sid)
  {
    forall es ensures !ActiveListed(Run(s, es), sid) {
      RunNoLate(s, es, sid);
    }
  }

  /** A removed session can come to list an active stream again (which no frame
      ever reaches) if and only if some GET had already found it. */
  lemma LateStreamExact(s: State, sid: Sid)
    requires Routed(s) && sid !in s.reg.table && sid < s.reg.nextSid && sid in s.reg.lists
    requires !ActiveListed(s, sid)
    ensures CanStillList(s, sid) <==> SomeLateGet(s, sid)
  {
    if SomeLateGet(s, sid) {
      var g :| LateGet(s, g, sid);
      var es := LateGetLists(s, g, sid);
    } else {
      NoLateNeverLists(s, sid);
    }
  }
}
