/**
 * Streamable HTTP sessions (src/http_transport.cpp), one step per lock section.
 * Session, stream and connection objects outlive their table entries because
 * handlers hold shared pointers to them; they are named by ids that are never
 * reused.
 */
module HttpSessions {
  import opened Wrappers
  import WQ = WriteQueue

  type Sid = nat
  type StreamId = nat
  type ConnId = nat
  type PostId = nat
  type GetId = nat

  /** A JSON-RPC message and whether it has an "error" member. */
  datatype Body = Body(text: string, isError: bool)

  /** What a connection's write queue accepted. */
  datatype Item =
    | Status(code: nat)
    | PostBody(post: PostId, body: Body)
    | StreamHeaders(sid: Sid)
    | StreamFrame(sid: Sid, body: Body)

  /** HttpConnection: `queue` is its write queue with the calls around it, `hook`
      the stream that on_disconnect would unlist, `out` the items the queue
      accepted; `cleared` says that a handler wrote active = false itself. */
  datatype Conn = Conn(
    active: bool, cleared: bool, queue: WQ.System, hook: Option<StreamId>, released: nat, out: seq<Item>)

  /** Settings, and the bytes that are written for each item. */
  datatype Config = Config(
    maxSessions: nat, idleTimeout: int, maxConnections: nat,
    queueCap: nat, policy: WQ.Policy, render: Item -> string)

  /** SseConnection, with the session its GET named. */
  datatype Stream = Stream(conn: ConnId, home: Sid, active: bool)

  datatype Phase =
    | Checked
    | Found(sid: Sid)
    | Handling(sid: Sid, initialize: bool)
    | Committed(sid: Sid)
    | RolledBack(sid: Sid)
    | Refused

  datatype Post = Post(conn: ConnId, phase: Phase, first: Option<Body>)

  datatype Get = GetFound(conn: ConnId, sid: Sid) | GetOpened(stream: StreamId) | GetDone

  /** `lists`, `touched` and `creator` cover every session object ever made;
      `table` holds the ids in sessions_. */
  datatype Registry = Registry(
    nextSid: Sid, table: set<Sid>, initialized: set<Sid>,
    lists: map<Sid, seq<StreamId>>, touched: map<Sid, int>, creator: map<Sid, PostId>)

  /** `live` is active_connection_count_. */
  datatype State = State(
    cfg: Config,
    reg: Registry, streams: map<StreamId, Stream>, conns: map<ConnId, Conn>, live: nat,
    posts: map<PostId, Post>, gets: map<GetId, Get>,
    closing: set<StreamId>, received: seq<Sid>)

  function Start(cfg: Config): State {
    State(cfg, Registry(0, {}, {}, map[], map[], map[]), map[], map[], 0, map[], map[], {}, [])
  }

  datatype Step =
    | Connect(c: ConnId)
    | InitCheck(p: PostId, c: ConnId)
    | InitCreate(p: PostId, now: int)
    | InitFinish(p: PostId, threw: bool)
    | Find(p: PostId, c: ConnId, sid: Sid)
    | Forward(p: PostId)
    | Touch(p: PostId, now: int)
    | Emit(p: PostId, body: Body)
    | GetFind(g: GetId, c: ConnId, sid: Sid)
    | GetOpen(g: GetId, st: StreamId)
    | GetList(g: GetId, now: int)
    | Delete(c: ConnId, sid: Sid)
    | Sweep(now: int)
    | Stop
    | Close(st: StreamId)
    | ConnError(c: ConnId)
    | Queue(c: ConnId, q: WQ.Step)
    | Reply(c: ConnId, code: nat)
    | TurnAway(c: ConnId, code: nat)
    | Push(sid: Sid, body: Body)

  /** Steps that leave posts, flags and ownership alone and add no session. */
  ghost predicate SameOwners(s: State, s': State) {
    && s'.cfg == s.cfg && s'.posts == s.posts && s'.received == s.received
    && s'.reg.creator == s.reg.creator && s'.reg.initialized == s.reg.initialized
    && s'.reg.nextSid == s.reg.nextSid
    && s'.reg.table <= s.reg.table
    && s'.reg.lists.Keys == s.reg.lists.Keys && s.reg.touched.Keys <= s'.reg.touched.Keys
  }

  predicate Distinct(list: seq<StreamId>) {
    forall i, j :: 0 <= i < j < |list| ==> list[i] != list[j]
  }

  predicate Sublist(list': seq<StreamId>, list: seq<StreamId>) {
    (forall x :: x in list' ==> x in list) && (Distinct(list) ==> Distinct(list'))
  }

  /** Lists may only shrink, streams keep their home, gets are unchanged. */
  predicate Shrinks(s: State, s': State) {
    && s'.gets == s.gets && s'.reg.lists.Keys == s.reg.lists.Keys && s'.streams.Keys == s.streams.Keys
    && s.conns.Keys <= s'.conns.Keys
    && (forall st :: st in s.streams ==>
          && s'.streams[st].home == s.streams[st].home && s'.streams[st].conn == s.streams[st].conn
          && (s'.streams[st].active ==> s.streams[st].active))
    && (forall sid :: sid in s.reg.lists ==> Sublist(s'.reg.lists[sid], s.reg.lists[sid]))
  }

  // ------------------------------------------------------------- connections

  predicate SameOut(conns: map<ConnId, Conn>, conns': map<ConnId, Conn>) {
    conns'.Keys == conns.Keys && forall c :: c in conns ==> conns'[c].out == conns[c].out
  }

  /** At most one item is added, and only to this connection. */
  predicate MayAdd(conns: map<ConnId, Conn>, conns': map<ConnId, Conn>, c: ConnId, item: Item) {
    && conns'.Keys == conns.Keys
    && (forall d :: d in conns && d != c ==> conns'[d].out == conns[d].out)
    && (c in conns ==> conns'[c].out == conns[c].out || conns'[c].out == conns[c].out + [item])
  }

  /** enqueue_write: the queue takes the item, drops it, or closes. */
  function Accept(cfg: Config, conn: Conn, item: Item): (conn': Conn)
    ensures conn' == conn.(queue := conn'.queue, out := conn'.out)
  {
    var data := cfg.render(item);
    conn.(queue := WQ.EnqueueCall(conn.queue, data),
          out := if WQ.Takes(conn.queue.q, data) then conn.out + [item] else conn.out)
  }

  function Write(cfg: Config, conns: map<ConnId, Conn>, c: ConnId, item: Item): (conns': map<ConnId, Conn>)
    ensures MayAdd(conns, conns', c, item)
  {
    if c in conns then conns[c := Accept(cfg, conns[c], item)] else conns
  }

  /** What offering an item does to a connection. */
  function Offer(cfg: Config, item: Item): Conn -> Conn {
    (conn: Conn) => Accept(cfg, conn, item)
  }

  /** The connection of each active stream is changed by f, once per stream. */
  function ForEachStream(f: Conn -> Conn, conns: map<ConnId, Conn>, streams: map<StreamId, Stream>, list: seq<StreamId>)
    : (after: map<ConnId, Conn>)
    ensures after.Keys == conns.Keys
    decreases |list|
  {
    if list == [] then conns
    else
      var st := list[0];
      var conns' := if st in streams && streams[st].active && streams[st].conn in conns
                    then conns[streams[st].conn := f(conns[streams[st].conn])] else conns;
      ForEachStream(f, conns', streams, list[1..])
  }

  /** Lines 1135-1139 and SseConnection::push: one frame to each active stream. */
  function PushAll(
      cfg: Config, conns: map<ConnId, Conn>, streams: map<StreamId, Stream>, list: seq<StreamId>, item: Item)
    : (after: map<ConnId, Conn>)
    ensures after.Keys == conns.Keys
  {
    ForEachStream(Offer(cfg, item), conns, streams, list)
  }

  function PushTo(s: State, sid: Sid, body: Body): (s': State)
    ensures SameOwners(s, s') && Shrinks(s, s')
    ensures s'.reg == s.reg && s'.streams == s.streams && s'.live == s.live && s'.conns.Keys == s.conns.Keys
  {
    if sid !in s.reg.table || sid !in s.reg.lists then s
    else s.(conns := PushAll(s.cfg, s.conns, s.streams, s.reg.lists[sid], StreamFrame(sid, body)))
  }

  function Unlist(list: seq<StreamId>, st: StreamId): (rest: seq<StreamId>)
    ensures Sublist(rest, list) && st !in rest
    ensures forall x :: x in list && x != st ==> x in rest
  {
    if list == [] then []
    else
      var tail := list[1..];
      assert Distinct(list) ==> Distinct(tail) && list[0] !in tail;
      if list[0] == st then Unlist(tail, st) else [list[0]] + Unlist(tail, st)
  }

  /** HttpConnection::on_error: the exchange lets the hooks run once. */
  function OnError(s: State, c: ConnId): (s': State)
    ensures SameOwners(s, s') && Shrinks(s, s') && SameOut(s.conns, s'.conns)
  {
    if c !in s.conns || !s.conns[c].active then s
    else
      var conn := s.conns[c];
      var s' := s.(conns := s.conns[c := conn.(active := false, released := conn.released + 1)],
                   live := if s.live > 0 then s.live - 1 else 0);
      if conn.hook.Some? && conn.hook.value in s.streams && s.streams[conn.hook.value].home in s.reg.lists then
        var home := s.streams[conn.hook.value].home;
        s'.(reg := s.reg.(lists := s.reg.lists[home := Unlist(s.reg.lists[home], conn.hook.value)]))
      else s'
  }

  function ApplyQueue(s: State, c: ConnId, q: WQ.Step): (s': State)
    ensures SameOwners(s, s') && Shrinks(s, s') && SameOut(s.conns, s'.conns)
  {
    if c in s.conns then s.(conns := s.conns[c := s.conns[c].(queue := WQ.Apply(s.conns[c].queue, q))]) else s
  }

  /** What the queue's own threads do: arm, complete, and the error callback. */
  function QueueTurn(s: State, c: ConnId, q: WQ.Step): (s': State)
    ensures SameOwners(s, s') && Shrinks(s, s') && SameOut(s.conns, s'.conns)
  {
    match q
    case Enqueue(_) => s
    case Shutdown => s
    case FireError =>
      if c in s.conns && s.conns[c].queue.errorsDue > 0 then OnError(ApplyQueue(s, c, q), c) else s
    case _ => ApplyQueue(s, c, q)
  }

  /** Lines 549, 563, 596, 876 and 887: answered, then active is cleared without
      the exchange that would have run the hooks. */
  function TurnAwayConn(s: State, c: ConnId, code: nat): (s': State)
    ensures SameOwners(s, s') && Shrinks(s, s') && MayAdd(s.conns, s'.conns, c, Status(code))
    ensures s'.gets == s.gets && s'.streams == s.streams && s'.reg == s.reg && s'.live == s.live
  {
    if c !in s.conns then s
    else
      var conn := Accept(s.cfg, s.conns[c], Status(code));
      s.(conns := s.conns[c := conn.(active := false, cleared := conn.cleared || conn.active)])
  }

  function CloseQueue(s: State, c: ConnId): (s': State)
    ensures SameOwners(s, s') && Shrinks(s, s') && SameOut(s.conns, s'.conns)
  {
    ApplyQueue(s, c, WQ.Shutdown)
  }

  // ------------------------------------------------------- sessions removed

  function Listed(lists: map<Sid, seq<StreamId>>, gone: set<Sid>): set<StreamId> {
    set sid, st | sid in gone && sid in lists && st in lists[sid] :: st
  }

  function ClearLists(lists: map<Sid, seq<StreamId>>, gone: set<Sid>): (lists': map<Sid, seq<StreamId>>)
    ensures lists'.Keys == lists.Keys
    ensures forall sid :: sid in lists ==> Sublist(lists'[sid], lists[sid])
  {
    map sid | sid in lists :: if sid in gone then [] else lists[sid]
  }

  function Deactivate(streams: map<StreamId, Stream>, victims: set<StreamId>): (streams': map<StreamId, Stream>)
    ensures streams'.Keys == streams.Keys
    ensures forall st :: st in streams ==>
      streams'[st] == streams[st].(active := streams[st].active && st !in victims)
  {
    map st | st in streams :: if st in victims then streams[st].(active := false) else streams[st]
  }

  /** The locked half of DELETE, sweep and stop: deactivate and unlist every
      stream of the sessions, erase them, remember which sockets to close. */
  function Remove(s: State, gone: set<Sid>): (s': State)
    ensures SameOwners(s, s') && Shrinks(s, s') && s'.conns == s.conns
  {
    var victims := Listed(s.reg.lists, gone);
    s.(reg := s.reg.(table := s.reg.table - gone, lists := ClearLists(s.reg.lists, gone)),
       streams := Deactivate(s.streams, victims),
       closing := s.closing + victims)
  }

  function Expired(s: State, now: int): set<Sid> {
    set sid | sid in s.reg.table && sid in s.reg.touched && now - s.reg.touched[sid] > s.cfg.idleTimeout
  }

  // ------------------------------------------------------------------- POST

  /** Steps of a POST leave streams and GETs alone and may add one empty list. */
  ghost predicate PostFrame(s: State, s': State) {
    && s'.cfg == s.cfg && s'.gets == s.gets && s'.streams == s.streams && s'.live == s.live
    && s'.conns.Keys == s.conns.Keys
    && (s'.reg.lists == s.reg.lists || s'.reg.lists == s.reg.lists[s.reg.nextSid := []])
  }

  predicate Full(s: State) {
    s.cfg.maxSessions > 0 && |s.reg.table| >= s.cfg.maxSessions
  }

  function Refuse(s: State, p: PostId, c: ConnId, code: nat): (s': State)
    ensures PostFrame(s, s')
  {
    s.(posts := s.posts[p := Post(c, Refused, None)], conns := Write(s.cfg, s.conns, c, Status(code)))
  }

  /** create_session, second section: the cap is checked again. */
  function CreateSession(s: State, p: PostId, now: int): (s': State)
    requires p in s.posts
    ensures s'.conns == s.conns || s'.conns == Write(s.cfg, s.conns, s.posts[p].conn, Status(429))
    ensures PostFrame(s, s')
  {
    if Full(s) then Refuse(s, p, s.posts[p].conn, 429)
    else
      var sid := s.reg.nextSid;
      s.(reg := Registry(sid + 1, s.reg.table + {sid}, s.reg.initialized,
                         s.reg.lists[sid := []], s.reg.touched[sid := now], s.reg.creator[sid := p]),
         posts := s.posts[p := s.posts[p].(phase := Handling(sid, true))])
  }

  predicate InitOk(post: Post, threw: bool) {
    !threw && post.first.Some? && !post.first.value.isError
  }

  function Commit(s: State, p: PostId, sid: Sid): State
    requires p in s.posts
  {
    s.(reg := s.reg.(initialized := s.reg.initialized + {sid}),
       posts := s.posts[p := s.posts[p].(phase := Committed(sid))])
  }

  function RollBack(s: State, p: PostId, sid: Sid): State
    requires p in s.posts
  {
    s.(reg := s.reg.(table := s.reg.table - {sid}),
       posts := s.posts[p := s.posts[p].(phase := RolledBack(sid))])
  }

  /** Lines 779-789: commit, or erase the half-registered session. */
  function FinishInit(s: State, p: PostId, threw: bool): (s': State)
    requires p in s.posts && s.posts[p].phase.Handling?
    ensures PostFrame(s, s') && s'.conns == s.conns
  {
    var sid := s.posts[p].phase.sid;
    if InitOk(s.posts[p], threw) then Commit(s, p, sid) else RollBack(s, p, sid)
  }

  /** The response sink: the first emission is the HTTP body. */
  function EmitBody(s: State, p: PostId, body: Body): (s': State)
    requires p in s.posts && s.posts[p].phase.Handling?
    ensures PostFrame(s, s')
  {
    var post := s.posts[p];
    if post.first.None? then
      s.(posts := s.posts[p := post.(first := Some(body))],
         conns := Write(s.cfg, s.conns, post.conn, PostBody(p, body)))
    else PushTo(s, post.phase.sid, body)
  }

  // ------------------------------------------------------------------- steps

  /** create_session, first section, under the shared lock. */
  function CheckCap(s: State, p: PostId, c: ConnId): (s': State)
    ensures s'.conns == s.conns || s'.conns == Write(s.cfg, s.conns, c, Status(429))
    ensures PostFrame(s, s')
  {
    if p in s.posts then s
    else if Full(s) then Refuse(s, p, c, 429)
    else s.(posts := s.posts[p := Post(c, Checked, None)])
  }

  /** find_session for a message or batch that is not an initialize. */
  function FindSession(s: State, p: PostId, c: ConnId, sid: Sid): (s': State)
    ensures s'.conns == s.conns || s'.conns == Write(s.cfg, s.conns, c, Status(404))
    ensures PostFrame(s, s')
  {
    if p in s.posts then s
    else if sid !in s.reg.table then Refuse(s, p, c, 404)
    else s.(posts := s.posts[p := Post(c, Found(sid), None)])
  }

  /** Lines 720-725 and 822-826: the initialized check, then the server. */
  function ForwardPost(s: State, p: PostId): (s': State)
    ensures s'.conns == s.conns || (p in s.posts && s'.conns == Write(s.cfg, s.conns, s.posts[p].conn, Status(400)))
    ensures PostFrame(s, s')
  {
    if p !in s.posts || !s.posts[p].phase.Found? then s
    else
      var sid := s.posts[p].phase.sid;
      if sid !in s.reg.initialized then Refuse(s, p, s.posts[p].conn, 400)
      else s.(posts := s.posts[p := s.posts[p].(phase := Handling(sid, false))], received := s.received + [sid])
  }

  function TouchSession(s: State, p: PostId, now: int): (s': State)
    ensures SameOwners(s, s') && PostFrame(s, s')
  {
    if p in s.posts && s.posts[p].phase.Handling? && s.posts[p].phase.sid in s.reg.touched
    then s.(reg := s.reg.(touched := s.reg.touched[s.posts[p].phase.sid := now])) else s
  }

  function PostStep(s: State, e: Step): (s': State)
    ensures PostFrame(s, s')
  {
    match e
    case InitCheck(p, c) => CheckCap(s, p, c)
    case InitCreate(p, now) =>
      if p in s.posts && s.posts[p].phase.Checked? then CreateSession(s, p, now) else s
    case InitFinish(p, threw) =>
      if p in s.posts && s.posts[p].phase.Handling? && s.posts[p].phase.initialize
      then FinishInit(s, p, threw) else s
    case Find(p, c, sid) => FindSession(s, p, c, sid)
    case Forward(p) => ForwardPost(s, p)
    case Touch(p, now) => TouchSession(s, p, now)
    case Emit(p, body) =>
      if p in s.posts && s.posts[p].phase.Handling? then EmitBody(s, p, body) else s
    case _ => s
  }

  function FindForGet(s: State, g: GetId, c: ConnId, sid: Sid): (s': State)
    ensures SameOwners(s, s') && s'.reg == s.reg && s'.streams == s.streams && s'.live == s.live
    ensures s'.conns == s.conns || s'.conns == TurnAwayConn(s, c, 404).conns
    ensures s'.gets == s.gets || (g !in s.gets && s'.gets == s.gets[g := GetDone])
            || (g !in s.gets && c in s.conns && sid in s.reg.table && s'.gets == s.gets[g := GetFound(c, sid)])
  {
    if g in s.gets || c !in s.conns then s
    else if sid !in s.reg.table then TurnAwayConn(s, c, 404).(gets := s.gets[g := GetDone])
    else s.(gets := s.gets[g := GetFound(c, sid)])
  }

  function GetStep(s: State, e: Step): (s': State)
    ensures SameOwners(s, s')
  {
    match e
    case GetFind(g, c, sid) => FindForGet(s, g, c, sid)
    case GetOpen(g, st) =>
      if g in s.gets && s.gets[g].GetFound? && st !in s.streams && s.gets[g].conn in s.conns then
        var c, sid := s.gets[g].conn, s.gets[g].sid;
        s.(gets := s.gets[g := GetOpened(st)],
           streams := s.streams[st := Stream(c, sid, true)],
           conns := s.conns[c := Accept(s.cfg, s.conns[c].(hook := Some(st)), StreamHeaders(sid))])
      else s
    case GetList(g, now) =>
      if g in s.gets && s.gets[g].GetOpened? && s.gets[g].stream in s.streams
         && s.streams[s.gets[g].stream].home in s.reg.lists then
        var st := s.gets[g].stream;
        var sid := s.streams[st].home;
        s.(gets := s.gets[g := GetDone],
           reg := s.reg.(lists := s.reg.lists[sid := s.reg.lists[sid] + [st]],
                         touched := s.reg.touched[sid := now]))
      else s
    case _ => s
  }

  /** do_accept: over the cap the socket gets a 503 and no HttpConnection. */
  function AcceptSocket(s: State, c: ConnId): (s': State)
    ensures SameOwners(s, s') && Shrinks(s, s')
  {
    if c in s.conns || (s.cfg.maxConnections > 0 && s.live >= s.cfg.maxConnections) then s
    else s.(conns := s.conns[c := Conn(true, false, WQ.Start(s.cfg.queueCap, s.cfg.policy), None, 0, [])],
            live := s.live + 1)
  }

  function ReplyStatus(s: State, c: ConnId, code: nat): (s': State)
    ensures SameOwners(s, s') && Shrinks(s, s') && MayAdd(s.conns, s'.conns, c, Status(code))
  {
    s.(conns := Write(s.cfg, s.conns, c, Status(code)))
  }

  /** The two halves of closing a stream outside the lock. */
  function CloseStream(s: State, st: StreamId): (s': State)
    ensures SameOwners(s, s') && Shrinks(s, s') && SameOut(s.conns, s'.conns)
  {
    if st in s.closing && st in s.streams then
      var c := s.streams[st].conn;
      OnError(CloseQueue(s.(closing := s.closing - {st}), c), c)
    else s
  }

  predicate WritesStatus(e: Step) {
    e.Delete? || e.Reply? || e.TurnAway?
  }

  function StatusCode(s: State, e: Step): nat
    requires WritesStatus(e)
  {
    match e
    case Delete(_, sid) => if sid in s.reg.table then 200 else 404
    case Reply(_, code) => code
    case TurnAway(_, code) => code
  }

  function StatusStep(s: State, e: Step): (s': State)
    requires WritesStatus(e)
    ensures SameOwners(s, s') && Shrinks(s, s') && MayAdd(s.conns, s'.conns, e.c, Status(StatusCode(s, e)))
  {
    match e
    case Delete(c, sid) => ReplyStatus(if sid in s.reg.table then Remove(s, {sid}) else s, c, StatusCode(s, e))
    case Reply(c, code) => ReplyStatus(s, c, code)
    case TurnAway(c, code) => TurnAwayConn(s, c, code)
  }

  function NetStep(s: State, e: Step): (s': State)
    ensures SameOwners(s, s') && Shrinks(s, s')
    ensures e.Push? || e.Connect? || WritesStatus(e) || SameOut(s.conns, s'.conns)
    ensures !e.Connect? ==> s'.conns.Keys == s.conns.Keys
    ensures WritesStatus(e) ==> MayAdd(s.conns, s'.conns, e.c, Status(StatusCode(s, e)))
  {
    match e
    case Connect(c) => AcceptSocket(s, c)
    case Sweep(now) => Remove(s, Expired(s, now))
    case Stop => Remove(s, s.reg.table)
    case Close(st) => CloseStream(s, st)
    case ConnError(c) => OnError(s, c)
    case Queue(c, q) => QueueTurn(s, c, q)
    case Push(sid, body) => PushTo(s, sid, body)
    case _ => if WritesStatus(e) then StatusStep(s, e) else s
  }

  function Apply(s: State, e: Step): (s': State)
    ensures s'.cfg == s.cfg
  {
    match e
    case InitCheck(_, _) => PostStep(s, e)
    case InitCreate(_, _) => PostStep(s, e)
    case InitFinish(_, _) => PostStep(s, e)
    case Find(_, _, _) => PostStep(s, e)
    case Forward(_) => PostStep(s, e)
    case Touch(_, _) => PostStep(s, e)
    case Emit(_, _) => PostStep(s, e)
    case GetFind(_, _, _) => GetStep(s, e)
    case GetOpen(_, _) => GetStep(s, e)
    case GetList(_, _) => GetStep(s, e)
    case _ => NetStep(s, e)
  }

  function Run(s: State, es: seq<Step>): (s': State)
    ensures s'.cfg == s.cfg
    decreases |es|
  {
    if es == [] then s else Run(Apply(s, es[0]), es[1..])
  }
}
