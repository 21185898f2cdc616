/** Session lifecycle safety in every reachable Streamable HTTP state. */
module HttpLifecycle {
  import opened HttpSessions

  /** The initialize POST that made a session is handling it, has committed it,
      or has rolled it back; the flags and the table agree with that. */
  ghost predicate OwnerOk(s: State, sid: Sid)
    requires sid in s.reg.creator
  {
    && s.reg.creator[sid] in s.posts
    && sid < s.reg.nextSid
    && var post := s.posts[s.reg.creator[sid]];
       && (post.phase == Handling(sid, true) || post.phase == Committed(sid) || post.phase == RolledBack(sid))
       && (sid in s.reg.initialized <==> post.phase == Committed(sid))
       && (post.phase == Committed(sid) ==> post.first.Some? && !post.first.value.isError)
       && (post.phase == RolledBack(sid) ==> sid !in s.reg.table)
  }

  ghost predicate PhaseOk(s: State, p: PostId)
    requires p in s.posts
  {
    match s.posts[p].phase
    case Handling(sid, init) =>
      if init then sid in s.reg.creator && s.reg.creator[sid] == p else sid in s.reg.initialized
    case Committed(sid) => sid in s.reg.creator && s.reg.creator[sid] == p
    case RolledBack(sid) => sid in s.reg.creator && s.reg.creator[sid] == p
    case _ => true
  }

  ghost predicate RegistryOk(s: State) {
    && s.reg.table <= s.reg.creator.Keys
    && s.reg.initialized <= s.reg.creator.Keys
    && s.reg.lists.Keys == s.reg.creator.Keys && s.reg.creator.Keys <= s.reg.touched.Keys
  }

  ghost predicate Lifecycle(s: State) {
    && (s.cfg.maxSessions > 0 ==> |s.reg.table| <= s.cfg.maxSessions)
    && RegistryOk(s)
    && (forall sid :: sid in s.reg.creator ==> OwnerOk(s, sid))
    && (forall p :: p in s.posts ==> PhaseOk(s, p))
    && (forall i :: 0 <= i < |s.received| ==> s.received[i] in s.reg.initialized)
  }

  lemma SubsetCard<T>(a: set<T>, b: set<T>)
    requires a <= b
    ensures |a| <= |b|
  {
    assert b == a + (b - a);
  }

  lemma SameOwnersKeeps(s: State, s': State)
    requires Lifecycle(s) && SameOwners(s, s')
    ensures Lifecycle(s')
  {
    SubsetCard(s'.reg.table, s.reg.table);
    forall sid | sid in s'.reg.creator ensures OwnerOk(s', sid) { assert OwnerOk(s, sid); }
    forall p | p in s'.posts ensures PhaseOk(s', p) { assert PhaseOk(s, p); }
  }

  lemma NetLifecycle(s: State, e: Step)
    requires Lifecycle(s)
    ensures Lifecycle(NetStep(s, e))
  {
    SameOwnersKeeps(s, NetStep(s, e));
  }

  lemma GetLifecycle(s: State, e: Step)
    requires Lifecycle(s)
    ensures Lifecycle(GetStep(s, e))
  {
    SameOwnersKeeps(s, GetStep(s, e));
  }

  /** A POST that owns no session moves to a phase that claims none. */
  lemma NewPhase(s: State, s': State, p: PostId, post: Post)
    requires Lifecycle(s) && s'.posts == s.posts[p := post] && s'.reg == s.reg && s'.cfg == s.cfg
    requires p in s.posts ==> s.posts[p].phase.Checked? || s.posts[p].phase.Found?
    requires post.phase.Checked? || post.phase.Found? || post.phase.Refused?
             || (post.phase.Handling? && !post.phase.initialize && post.phase.sid in s.reg.initialized)
    requires forall i :: 0 <= i < |s'.received| ==> s'.received[i] in s.reg.initialized
    ensures Lifecycle(s')
  {
    forall sid | sid in s'.reg.creator ensures OwnerOk(s', sid) { assert OwnerOk(s, sid); }
    forall q | q in s'.posts ensures PhaseOk(s', q) { if q != p { assert PhaseOk(s, q); } }
  }

  lemma CreateLifecycle(s: State, p: PostId, now: int)
    requires Lifecycle(s) && p in s.posts && s.posts[p].phase.Checked?
    ensures Lifecycle(CreateSession(s, p, now))
  {
    var s' := CreateSession(s, p, now);
    if Full(s) {
      NewPhase(s, s', p, s'.posts[p]);
    } else {
      CreateOwners(s, p, now);
      CreatePhases(s, p, now);
      CreateRegistry(s, p, now);
    }
  }

  lemma CreateRegistry(s: State, p: PostId, now: int)
    requires Lifecycle(s) && p in s.posts && s.posts[p].phase.Checked? && !Full(s)
    ensures var s' := CreateSession(s, p, now);
            && RegistryOk(s') && s'.cfg == s.cfg && s'.received == s.received
            && s'.reg.initialized == s.reg.initialized
            && (s.cfg.maxSessions > 0 ==> |s'.reg.table| <= s.cfg.maxSessions)
  {
  }

  lemma CreateOwners(s: State, p: PostId, now: int)
    requires Lifecycle(s) && p in s.posts && s.posts[p].phase.Checked? && !Full(s)
    ensures var s' := CreateSession(s, p, now); forall t :: t in s'.reg.creator ==> OwnerOk(s', t)
  {
    var s' := CreateSession(s, p, now);
    forall t | t in s'.reg.creator ensures OwnerOk(s', t) { if t != s.reg.nextSid { assert OwnerOk(s, t); } }
  }

  lemma CreatePhases(s: State, p: PostId, now: int)
    requires Lifecycle(s) && p in s.posts && s.posts[p].phase.Checked? && !Full(s)
    ensures var s' := CreateSession(s, p, now); forall q :: q in s'.posts ==> PhaseOk(s', q)
  {
    var s' := CreateSession(s, p, now);
    assert s.reg.nextSid in s.reg.creator ==> OwnerOk(s, s.reg.nextSid);
    forall q | q in s'.posts ensures PhaseOk(s', q) { if q != p { assert PhaseOk(s, q); } }
  }

  lemma CommitLifecycle(s: State, p: PostId, sid: Sid)
    requires Lifecycle(s) && p in s.posts && s.posts[p].phase == Handling(sid, true) && InitOk(s.posts[p], false)
    ensures Lifecycle(Commit(s, p, sid))
  {
    var s' := Commit(s, p, sid);
    assert PhaseOk(s, p);
    forall t | t in s'.reg.creator ensures OwnerOk(s', t) { assert OwnerOk(s, t); }
    forall q | q in s'.posts ensures PhaseOk(s', q) { assert PhaseOk(s, q); }
  }

  lemma RollBackLifecycle(s: State, p: PostId, sid: Sid)
    requires Lifecycle(s) && p in s.posts && s.posts[p].phase == Handling(sid, true)
    ensures Lifecycle(RollBack(s, p, sid))
  {
    var s' := RollBack(s, p, sid);
    assert PhaseOk(s, p);
    SubsetCard(s'.reg.table, s.reg.table);
    forall t | t in s'.reg.creator ensures OwnerOk(s', t) { assert OwnerOk(s, t); }
    forall q | q in s'.posts ensures PhaseOk(s', q) { assert PhaseOk(s, q); }
  }

  lemma EmitLifecycle(s: State, p: PostId, body: Body)
    requires Lifecycle(s) && p in s.posts && s.posts[p].phase.Handling?
    ensures Lifecycle(EmitBody(s, p, body))
  {
    var s' := EmitBody(s, p, body);
    if s.posts[p].first.None? {
      forall t | t in s'.reg.creator ensures OwnerOk(s', t) { assert OwnerOk(s, t); }
      forall q | q in s'.posts ensures PhaseOk(s', q) { assert PhaseOk(s, q); }
    } else {
      SameOwnersKeeps(s, s');
    }
  }

  lemma CheckLifecycle(s: State, p: PostId, c: ConnId)
    requires Lifecycle(s)
    ensures Lifecycle(CheckCap(s, p, c))
  {
    if p !in s.posts {
      NewPhase(s, CheckCap(s, p, c), p, CheckCap(s, p, c).posts[p]);
    }
  }

  lemma FindLifecycle(s: State, p: PostId, c: ConnId, sid: Sid)
    requires Lifecycle(s)
    ensures Lifecycle(FindSession(s, p, c, sid))
  {
    if p !in s.posts {
      NewPhase(s, FindSession(s, p, c, sid), p, FindSession(s, p, c, sid).posts[p]);
    }
  }

  lemma ForwardLifecycle(s: State, p: PostId)
    requires Lifecycle(s)
    ensures Lifecycle(ForwardPost(s, p))
  {
    if p in s.posts && s.posts[p].phase.Found? {
      NewPhase(s, ForwardPost(s, p), p, ForwardPost(s, p).posts[p]);
    }
  }

  lemma PostLifecycle(s: State, e: Step)
    requires Lifecycle(s)
    ensures Lifecycle(PostStep(s, e))
  {
    match e
    case InitCheck(p, c) => CheckLifecycle(s, p, c);
    case InitCreate(p, now) => if p in s.posts && s.posts[p].phase.Checked? { CreateLifecycle(s, p, now); }
    case InitFinish(p, threw) =>
      if p in s.posts && s.posts[p].phase.Handling? && s.posts[p].phase.initialize {
        var sid := s.posts[p].phase.sid;
        if InitOk(s.posts[p], threw) { CommitLifecycle(s, p, sid); } else { RollBackLifecycle(s, p, sid); }
      }
    case Find(p, c, sid) => FindLifecycle(s, p, c, sid);
    case Forward(p) => ForwardLifecycle(s, p);
    case Touch(p, now) => SameOwnersKeeps(s, TouchSession(s, p, now));
    case Emit(p, body) => if p in s.posts && s.posts[p].phase.Handling? { EmitLifecycle(s, p, body); }
    case _ =>
  }

  lemma StepLifecycle(s: State, e: Step)
    requires Lifecycle(s)
    ensures Lifecycle(Apply(s, e))
  {
    if e.GetFind? || e.GetOpen? || e.GetList? {
      GetLifecycle(s, e);
    } else if e.InitCheck? || e.InitCreate? || e.InitFinish? || e.Find? || e.Forward? || e.Touch? || e.Emit? {
      PostLifecycle(s, e);
    } else {
      NetLifecycle(s, e);
    }
  }

  lemma {:induction false} RunLifecycle(s: State, es: seq<Step>)
    requires Lifecycle(s)
    ensures Lifecycle(Run(s, es))
    decreases |es|
  {
    if es != [] {
      StepLifecycle(s, es[0]);
      RunLifecycle(Apply(s, es[0]), es[1..]);
    }
  }

  /** In every reachable state: the cap holds, also with creators interleaved
      between their two checks; the server received messages only for sessions
      whose initialize committed a non-error first body; a rolled-back
      initialize left no session; a session that is listed but not initialized
      is one whose initialize is still being handled. */
  lemma SessionSafety(cfg: Config, es: seq<Step>)
    ensures var s := Run(Start(cfg), es);
            && (cfg.maxSessions > 0 ==> |s.reg.table| <= cfg.maxSessions)
            && (forall i :: 0 <= i < |s.received| ==>
                  var sid := s.received[i];
                  && sid in s.reg.creator && s.reg.creator[sid] in s.posts
                  && var post := s.posts[s.reg.creator[sid]];
                     post.phase == Committed(sid) && post.first.Some? && !post.first.value.isError)
            && (forall p :: p in s.posts && s.posts[p].phase.RolledBack? ==> s.posts[p].phase.sid !in s.reg.table)
            && (forall sid :: sid in s.reg.table && sid !in s.reg.initialized ==>
                  && sid in s.reg.creator && s.reg.creator[sid] in s.posts
                  && s.posts[s.reg.creator[sid]].phase == Handling(sid, true))
  {
    RunLifecycle(Start(cfg), es);
    var s := Run(Start(cfg), es);
    forall i | 0 <= i < |s.received| ensures OwnerOk(s, s.received[i]) { }
    forall p | p in s.posts && s.posts[p].phase.RolledBack? ensures s.posts[p].phase.sid !in s.reg.table {
      assert PhaseOk(s, p);
      assert OwnerOk(s, s.posts[p].phase.sid);
    }
    forall sid | sid in s.reg.table && sid !in s.reg.initialized ensures OwnerOk(s, sid) { }
  }
}
