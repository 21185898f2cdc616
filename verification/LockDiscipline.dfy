/**
 * Which mutexes one thread acquires, in order, when it runs an operation of
 * src/http_transport.cpp to the end, callbacks included. Neither
 * sessions_mutex_ nor a queue's mutex may be acquired by a thread that holds it.
 */
module LockDiscipline {
  import opened Wrappers
  import opened WriteQueue

  type ConnId = nat

  datatype Lock = Sessions | QueueOf(c: ConnId)
  datatype Action = Acquire(lock: Lock) | Release(lock: Lock)

  /** A connection as these operations see it: `hook` says that on_disconnect
      is the GET handler's callback, which locks sessions_mutex_. */
  datatype Link = Link(active: bool, hook: bool, queue: Queue)
  type Links = map<ConnId, Link>

  datatype Traced = Traced(actions: seq<Action>, links: Links)

  // -------------------------------------------------------------- discipline

  function Held(actions: seq<Action>, held: set<Lock>): set<Lock> {
    if actions == [] then held
    else match actions[0]
      case Acquire(l) => Held(actions[1..], held + {l})
      case Release(l) => Held(actions[1..], held - {l})
  }

  predicate NoReacquire(actions: seq<Action>, held: set<Lock>) {
    actions == [] ||
    match actions[0]
    case Acquire(l) => l !in held && NoReacquire(actions[1..], held + {l})
    case Release(l) => l in held && NoReacquire(actions[1..], held - {l})
  }

  lemma {:induction false} Append(a: seq<Action>, b: seq<Action>, held: set<Lock>)
    ensures Held(a + b, held) == Held(b, Held(a, held))
    ensures NoReacquire(a + b, held) <==> NoReacquire(a, held) && NoReacquire(b, Held(a, held))
    decreases |a|
  {
    if a == [] {
      assert a + b == b;
    } else {
      assert (a + b)[0] == a[0] && (a + b)[1..] == a[1..] + b;
      match a[0]
      case Acquire(l) => Append(a[1..], b, held + {l});
      case Release(l) => Append(a[1..], b, held - {l});
    }
  }

  // -------------------------------------------------------------- operations

  function Section(l: Lock): seq<Action> {
    [Acquire(l), Release(l)]
  }

  lemma SectionOk(l: Lock, held: set<Lock>)
    ensures NoReacquire(Section(l), held) <==> l !in held
    ensures l !in held ==> Held(Section(l), held) == held
  {
    assert Section(l)[1..] == [Release(l)] && [Release(l)][1..] == [];
    if l !in held { assert held + {l} - {l} == held; }
    assert NoReacquire(Section(l), held) == (l !in held && NoReacquire([Release(l)], held + {l}));
    assert Held(Section(l), held) == Held([Release(l)], held + {l}) == Held([], held + {l} - {l});
  }

  /** HttpConnection::on_error, lines 198-209 and 893-896. */
  function OnError(links: Links, c: ConnId): Traced {
    if c !in links || !links[c].active then Traced([], links)
    else Traced(if links[c].hook then Section(Sessions) else [], links[c := links[c].(active := false)])
  }

  /** enqueue: the overflow callback runs inline, after the queue's section. */
  function EnqueueOn(links: Links, c: ConnId, data: string): Traced {
    if c !in links then Traced([], links)
    else
      var (q, r) := EnqueueSection(links[c].queue, data);
      var links' := links[c := links[c].(queue := q)];
      match r
      case Rejected => Traced(Section(QueueOf(c)), links')
      case Overflowed =>
        var t := OnError(links', c);
        Traced(Section(QueueOf(c)) + t.actions, t.links)
      case Accepted(arm) =>
        if !arm then Traced(Section(QueueOf(c)), links')
        else Traced(Section(QueueOf(c)) + Section(QueueOf(c)),
                    links[c := links[c].(queue := ArmSection(q).0)])
  }

  /** Lines 957-962: shut the queue, close the socket, on_error. */
  function CloseOne(links: Links, c: ConnId): Traced {
    if c !in links then Traced([], links)
    else
      var t := OnError(links[c := links[c].(queue := ShutdownSection(links[c].queue))], c);
      Traced(Section(QueueOf(c)) + t.actions, t.links)
  }

  function CloseAll(links: Links, cs: seq<ConnId>): Traced
    decreases |cs|
  {
    if cs == [] then Traced([], links)
    else
      var t := CloseOne(links, cs[0]);
      var rest := CloseAll(t.links, cs[1..]);
      Traced(t.actions + rest.actions, rest.links)
  }

  function EnqueueAll(links: Links, cs: seq<ConnId>, data: string): Traced
    decreases |cs|
  {
    if cs == [] then Traced([], links)
    else
      var t := EnqueueOn(links, cs[0], data);
      var rest := EnqueueAll(t.links, cs[1..], data);
      Traced(t.actions + rest.actions, rest.links)
  }

  /** push_to_session_sse: every enqueue happens under sessions_mutex_. */
  function PushTrace(links: Links, cs: seq<ConnId>, data: string): seq<Action> {
    [Acquire(Sessions)] + EnqueueAll(links, cs, data).actions + [Release(Sessions)]
  }

  /** handle_delete for a known session, sweep and stop: close after unlocking,
      then answer on `reply` if there is one. */
  function RemoveTrace(links: Links, cs: seq<ConnId>, reply: Option<ConnId>, data: string): seq<Action> {
    var closed := CloseAll(links, cs);
    Section(Sessions) + closed.actions
    + (if reply.Some? then EnqueueOn(closed.links, reply.value, data).actions else [])
  }

  /** handle_delete for an unknown session: the 404 is enqueued under the lock. */
  function DeleteUnknownTrace(links: Links, c: ConnId, data: string): seq<Action> {
    [Acquire(Sessions)] + EnqueueOn(links, c, data).actions + [Release(Sessions)]
  }

  /** on_write_complete with an error code. */
  function WriteErrorTrace(links: Links, c: ConnId): seq<Action>
    requires c in links
  {
    var (q, r) := CompleteSection(links[c].queue, false);
    Section(QueueOf(c)) + if r == SignalError then OnError(links[c := links[c].(queue := q)], c).actions else []
  }

  // ---------------------------------------------------------------- theorems

  /** The one case to exclude: enqueueing overflows a CloseOnError queue whose
      connection is an active stream. */
  predicate Relocks(links: Links, c: ConnId, data: string) {
    && c in links && links[c].active && links[c].hook
    && links[c].queue.active && links[c].queue.policy == CloseOnError && Overflows(links[c].queue, data)
  }

  lemma OnErrorOk(links: Links, c: ConnId, held: set<Lock>)
    ensures Sessions !in held ==>
              NoReacquire(OnError(links, c).actions, held) && Held(OnError(links, c).actions, held) == held
    ensures Sessions in held ==>
              (NoReacquire(OnError(links, c).actions, held) <==> !(c in links && links[c].active && links[c].hook))
    ensures !(c in links && links[c].active && links[c].hook) ==> OnError(links, c).actions == []
  {
    SectionOk(Sessions, held);
  }

  lemma EnqueueOk(links: Links, c: ConnId, data: string, held: set<Lock>)
    requires QueueOf(c) !in held
    ensures var actions := EnqueueOn(links, c, data).actions;
            && (NoReacquire(actions, held) <==> Sessions !in held || !Relocks(links, c, data))
            && (NoReacquire(actions, held) ==> Held(actions, held) == held)
  {
    if c in links {
      var section := Section(QueueOf(c));
      SectionOk(QueueOf(c), held);
      var (q, r) := EnqueueSection(links[c].queue, data);
      var links' := links[c := links[c].(queue := q)];
      OnErrorOk(links', c, held);
      Append(section, OnError(links', c).actions, held);
      Append(section, section, held);
    }
  }

  lemma CloseOneOk(links: Links, c: ConnId)
    ensures NoReacquire(CloseOne(links, c).actions, {}) && Held(CloseOne(links, c).actions, {}) == {}
  {
    if c in links {
      var shut := links[c := links[c].(queue := ShutdownSection(links[c].queue))];
      SectionOk(QueueOf(c), {});
      OnErrorOk(shut, c, {});
      Append(Section(QueueOf(c)), OnError(shut, c).actions, {});
    }
  }

  lemma {:induction false} CloseAllOk(links: Links, cs: seq<ConnId>)
    ensures NoReacquire(CloseAll(links, cs).actions, {}) && Held(CloseAll(links, cs).actions, {}) == {}
    decreases |cs|
  {
    if cs != [] {
      var t := CloseOne(links, cs[0]);
      CloseOneOk(links, cs[0]);
      CloseAllOk(t.links, cs[1..]);
      Append(t.actions, CloseAll(t.links, cs[1..]).actions, {});
    }
  }

  /** DELETE of a known session, sweep and stop are safe under either policy,
      because they close after releasing sessions_mutex_. */
  lemma RemovalNeverRelocks(links: Links, cs: seq<ConnId>, reply: Option<ConnId>, data: string)
    ensures NoReacquire(RemoveTrace(links, cs, reply, data), {})
  {
    var closed := CloseAll(links, cs);
    var answer := if reply.Some? then EnqueueOn(closed.links, reply.value, data).actions else [];
    SectionOk(Sessions, {});
    CloseAllOk(links, cs);
    if reply.Some? { EnqueueOk(closed.links, reply.value, data, {}); }
    Append(Section(Sessions), closed.actions, {});
    Append(Section(Sessions) + closed.actions, answer, {});
  }

  lemma WriteErrorNeverRelocks(links: Links, c: ConnId)
    requires c in links
    ensures NoReacquire(WriteErrorTrace(links, c), {})
  {
    var (q, r) := CompleteSection(links[c].queue, false);
    var links' := links[c := links[c].(queue := q)];
    SectionOk(QueueOf(c), {});
    OnErrorOk(links', c, {});
    Append(Section(QueueOf(c)), OnError(links', c).actions, {});
    assert Section(QueueOf(c)) + [] == Section(QueueOf(c));
  }

  lemma EnqueueElsewhere(links: Links, c: ConnId, data: string, d: ConnId)
    requires d != c
    ensures (d in EnqueueOn(links, c, data).links) == (d in links)
    ensures d in links ==> EnqueueOn(links, c, data).links[d] == links[d]
  {
  }

  /** An overflow on this connection would call back into sessions_mutex_. */
  predicate CallsBack(link: Link) {
    link.active && link.hook && link.queue.active && link.queue.policy == CloseOnError
  }

  predicate RoomFor(links: Links, c: ConnId, data: string, n: nat) {
    c in links && CallsBack(links[c]) ==> Fits(links[c].queue, data, n)
  }

  lemma RoomNext(links: Links, c: ConnId, data: string, n: nat)
    ensures RoomFor(links, c, data, n + 1) <==>
            !Relocks(links, c, data) && RoomFor(EnqueueOn(links, c, data).links, c, data, n)
  {
    if c in links && CallsBack(links[c]) {
      FitsNext(links[c].queue, data, n);
    }
  }

  /** Every connection has room for as many copies as the push will send it; a
      connection occurs once for each of its listed active streams. */
  ghost predicate RoomForAll(links: Links, cs: seq<ConnId>, data: string) {
    forall c :: c in cs ==> RoomFor(links, c, data, multiset(cs)[c])
  }

  lemma RoomForAllNext(links: Links, cs: seq<ConnId>, data: string)
    requires cs != []
    ensures RoomForAll(links, cs, data) <==>
            !Relocks(links, cs[0], data) && RoomForAll(EnqueueOn(links, cs[0], data).links, cs[1..], data)
  {
    var c, rest := cs[0], cs[1..];
    var links' := EnqueueOn(links, c, data).links;
    assert cs == [c] + rest;
    assert multiset(cs)[c] == multiset(rest)[c] + 1;
    RoomNext(links, c, data, multiset(rest)[c]);
    assert c !in rest ==> multiset(rest)[c] == 0;
    forall d | d in rest && d != c
      ensures RoomFor(links', d, data, multiset(rest)[d]) == RoomFor(links, d, data, multiset(cs)[d])
    {
      EnqueueElsewhere(links, c, data, d);
    }
  }

  lemma {:induction false} EnqueueAllExact(links: Links, cs: seq<ConnId>, data: string)
    ensures var actions := EnqueueAll(links, cs, data).actions;
            && (NoReacquire(actions, {Sessions}) <==> RoomForAll(links, cs, data))
            && (NoReacquire(actions, {Sessions}) ==> Held(actions, {Sessions}) == {Sessions})
    decreases |cs|
  {
    if cs != [] {
      var t := EnqueueOn(links, cs[0], data);
      EnqueueOk(links, cs[0], data, {Sessions});
      EnqueueAllExact(t.links, cs[1..], data);
      Append(t.actions, EnqueueAll(t.links, cs[1..], data).actions, {Sessions});
      RoomForAllNext(links, cs, data);
    }
  }

  /** A push or broadcast keeps the discipline if and only if every CloseOnError
      queue behind an active stream has room for all the copies it will get. */
  lemma PushExact(links: Links, cs: seq<ConnId>, data: string)
    ensures NoReacquire(PushTrace(links, cs, data), {}) <==> RoomForAll(links, cs, data)
  {
    EnqueueAllExact(links, cs, data);
    UnderSessions(EnqueueAll(links, cs, data).actions);
  }

  /** Two streams on one connection: either copy alone would fit, both do not. */
  lemma SecondCopyRelocks()
    ensures var links := map[0 := Link(true, true, Queue([], 0, true, true, 1, CloseOnError))];
            && !Relocks(links, 0, "a")
            && NoReacquire(PushTrace(links, [0], "a"), {})
            && !NoReacquire(PushTrace(links, [0, 0], "a"), {})
  {
    var q := Queue([], 0, true, true, 1, CloseOnError);
    var links := map[0 := Link(true, true, q)];
    PushExact(links, [0], "a");
    PushExact(links, [0, 0], "a");
    assert 0 in [0, 0] && multiset([0, 0])[0] == 2 && multiset([0])[0] == 1;
    assert Fits(q, "a", 1) && !Fits(q, "a", 2);
  }

  lemma DeleteUnknownExact(links: Links, c: ConnId, data: string)
    ensures NoReacquire(DeleteUnknownTrace(links, c, data), {}) <==> !Relocks(links, c, data)
  {
    EnqueueOk(links, c, data, {Sessions});
    UnderSessions(EnqueueOn(links, c, data).actions);
  }

  lemma UnderSessions(inner: seq<Action>)
    requires NoReacquire(inner, {Sessions}) ==> Held(inner, {Sessions}) == {Sessions}
    ensures NoReacquire([Acquire(Sessions)] + inner + [Release(Sessions)], {}) <==> NoReacquire(inner, {Sessions})
  {
    var open := [Acquire(Sessions)];
    assert open[1..] == [];
    assert {} + {Sessions} == {Sessions};
    assert NoReacquire(open, {}) && Held(open, {}) == Held([], {Sessions});
    Append(open, inner, {});
    Append(open + inner, [Release(Sessions)], {});
    assert NoReacquire([Release(Sessions)], {Sessions}) by { assert [Release(Sessions)][1..] == []; }
  }

  /** With DropNewest queues no push and no DELETE can relock, whatever the
      streams and whatever is queued. */
  lemma {:induction false} DropNewestNeverRelocks(links: Links, cs: seq<ConnId>, data: string)
    requires forall c :: c in links ==> links[c].queue.policy == DropNewest
    ensures var actions := EnqueueAll(links, cs, data).actions;
            NoReacquire(actions, {Sessions}) && Held(actions, {Sessions}) == {Sessions}
    ensures NoReacquire(PushTrace(links, cs, data), {})
    ensures forall c :: NoReacquire(DeleteUnknownTrace(links, c, data), {})
    decreases |cs|
  {
    if cs != [] {
      var t := EnqueueOn(links, cs[0], data);
      EnqueueOk(links, cs[0], data, {Sessions});
      DropNewestNeverRelocks(t.links, cs[1..], data);
      Append(t.actions, EnqueueAll(t.links, cs[1..], data).actions, {Sessions});
    }
    UnderSessions(EnqueueAll(links, cs, data).actions);
    forall c ensures NoReacquire(DeleteUnknownTrace(links, c, data), {}) {
      DeleteUnknownExact(links, c, data);
    }
  }

  // ------------------------------------------------------- which locks are taken

  /** How often a lock is acquired. */
  function Taken(actions: seq<Action>, l: Lock): nat {
    if actions == [] then 0 else (if actions[0] == Acquire(l) then 1 else 0) + Taken(actions[1..], l)
  }

  lemma {:induction false} TakenAppend(a: seq<Action>, b: seq<Action>, l: Lock)
    ensures Taken(a + b, l) == Taken(a, l) + Taken(b, l)
    decreases |a|
  {
    if a == [] {
      assert a + b == b;
    } else {
      assert (a + b)[0] == a[0] && (a + b)[1..] == a[1..] + b;
      TakenAppend(a[1..], b, l);
    }
  }

  lemma TakenSection(k: Lock, l: Lock)
    ensures Taken(Section(k), l) == if k == l then 1 else 0
  {
    assert Section(k)[1..] == [Release(k)] && [Release(k)][1..] == [];
    assert Taken([Release(k)], l) == Taken([], l);
  }

  /** An enqueue locks its queue once, and again to arm the first write of an idle
      queue; it reaches sessions_mutex_ exactly in the case to exclude. */
  lemma EnqueueTakes(links: Links, c: ConnId, data: string)
    requires c in links
    ensures var actions := EnqueueOn(links, c, data).actions;
            && Taken(actions, QueueOf(c)) == (if Takes(links[c].queue, data) && !links[c].queue.writing then 2 else 1)
            && Taken(actions, Sessions) == if Relocks(links, c, data) then 1 else 0
  {
    var section := Section(QueueOf(c));
    forall l ensures Taken(section + Section(Sessions), l) == Taken(section, l) + Taken(Section(Sessions), l)
      ensures Taken(section + section, l) == Taken(section, l) + Taken(section, l)
    {
      TakenAppend(section, Section(Sessions), l);
      TakenAppend(section, section, l);
    }
    TakenSection(QueueOf(c), QueueOf(c));
    TakenSection(QueueOf(c), Sessions);
    TakenSection(Sessions, QueueOf(c));
    TakenSection(Sessions, Sessions);
    assert section + [] == section;
  }

  /** The connection's on_error would reach sessions_mutex_. */
  predicate Listening(links: Links, c: ConnId) {
    c in links && links[c].active && links[c].hook
  }

  /** Closing locks the queue once and, the first time, takes the hook's lock. */
  lemma CloseTakes(links: Links, c: ConnId, d: ConnId)
    requires c in links
    ensures var t := CloseOne(links, c);
            && Taken(t.actions, QueueOf(d)) == (if d == c then 1 else 0)
            && Taken(t.actions, Sessions) == (if Listening(links, c) then 1 else 0)
            && t.links.Keys == links.Keys && !t.links[c].active && !t.links[c].queue.active
            && (d in links && d != c ==> t.links[d] == links[d])
  {
    var shut := links[c := links[c].(queue := ShutdownSection(links[c].queue))];
    var section, more := Section(QueueOf(c)), OnError(shut, c).actions;
    TakenAppend(section, more, QueueOf(d));
    TakenAppend(section, more, Sessions);
    TakenSection(QueueOf(c), QueueOf(d));
    TakenSection(QueueOf(c), Sessions);
    TakenSection(Sessions, QueueOf(d));
    TakenSection(Sessions, Sessions);
  }

  function Listeners(links: Links, cs: seq<ConnId>): set<ConnId> {
    set c | c in cs && Listening(links, c)
  }

  /** Removing streams locks each queue as often as it is listed, and the hooks take
      sessions_mutex_ once per connection that still listens. */
  lemma {:induction false} CloseAllTakes(links: Links, cs: seq<ConnId>, d: ConnId)
    requires forall c :: c in cs ==> c in links
    ensures var t := CloseAll(links, cs);
            && Taken(t.actions, QueueOf(d)) == multiset(cs)[d]
            && Taken(t.actions, Sessions) == |Listeners(links, cs)|
            && t.links.Keys == links.Keys && (d in cs ==> !t.links[d].active)
            && (d in links && d !in cs ==> t.links[d] == links[d])
    decreases |cs|
  {
    if cs != [] {
      var c, rest := cs[0], cs[1..];
      var t := CloseOne(links, c);
      CloseTakes(links, c, d);
      CloseAllTakes(t.links, rest, d);
      CloseAllTakes(t.links, rest, c);
      TakenAppend(t.actions, CloseAll(t.links, rest).actions, QueueOf(d));
      TakenAppend(t.actions, CloseAll(t.links, rest).actions, Sessions);
      ListenersNext(links, cs);
      assert cs == [c] + rest;
    }
  }

  lemma ListenersNext(links: Links, cs: seq<ConnId>)
    requires cs != [] && cs[0] in links
    ensures |Listeners(links, cs)|
            == |Listeners(CloseOne(links, cs[0]).links, cs[1..])| + if Listening(links, cs[0]) then 1 else 0
  {
    var c, rest := cs[0], cs[1..];
    var links' := CloseOne(links, c).links;
    assert cs == [c] + rest;
    forall d ensures d in links && d != c ==> Listening(links', d) == Listening(links, d) {
      CloseTakes(links, c, d);
    }
    CloseTakes(links, c, c);
    assert c !in Listeners(links', rest);
    assert Listeners(links, cs) == Listeners(links', rest) + (if Listening(links, c) then {c} else {});
  }

  /** DELETE of a known session, sweep and stop: one section for the removal, then
      every listed connection is closed. */
  lemma RemovalTakes(links: Links, cs: seq<ConnId>, d: ConnId, data: string)
    requires forall c :: c in cs ==> c in links
    ensures var trace := RemoveTrace(links, cs, None, data);
            && Taken(trace, Sessions) == 1 + |Listeners(links, cs)| && Taken(trace, QueueOf(d)) == multiset(cs)[d]
  {
    CloseAllTakes(links, cs, d);
    var closed := CloseAll(links, cs).actions;
    TakenAppend(Section(Sessions), closed, Sessions);
    TakenAppend(Section(Sessions), closed, QueueOf(d));
    TakenSection(Sessions, Sessions);
    TakenSection(Sessions, QueueOf(d));
    assert Section(Sessions) + closed + [] == Section(Sessions) + closed;
  }

  /** A failed write reaches the hook exactly when it is the first to close an open
      queue of a listening connection. */
  lemma WriteErrorTakes(links: Links, c: ConnId)
    requires c in links
    ensures var trace := WriteErrorTrace(links, c);
            && Taken(trace, QueueOf(c)) == 1
            && Taken(trace, Sessions) == if links[c].queue.active && Listening(links, c) then 1 else 0
  {
    var section := Section(QueueOf(c));
    TakenAppend(section, Section(Sessions), QueueOf(c));
    TakenAppend(section, Section(Sessions), Sessions);
    TakenSection(QueueOf(c), QueueOf(c));
    TakenSection(QueueOf(c), Sessions);
    TakenSection(Sessions, QueueOf(c));
    TakenSection(Sessions, Sessions);
    assert section + [] == section;
  }
}
