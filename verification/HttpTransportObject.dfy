/** The lock sections of src/http_transport.cpp that loop over sessions and
    streams, on the fields they mutate. */
module HttpTransportObject {
  import opened HttpSessions

  lemma ClearMore(lists: map<Sid, seq<StreamId>>, gone: set<Sid>, sid: Sid)
    requires sid in lists && sid !in gone
    ensures ClearLists(lists, gone)[sid := []] == ClearLists(lists, gone + {sid})
    ensures ClearLists(lists, gone)[sid] == lists[sid]
    ensures Listed(lists, gone + {sid}) == Listed(lists, gone) + (set st | st in lists[sid])
  {
    ListedMore(lists, gone, sid);
  }

  lemma ListedMore(lists: map<Sid, seq<StreamId>>, gone: set<Sid>, sid: Sid)
    requires sid in lists
    ensures Listed(lists, gone + {sid}) == Listed(lists, gone) + (set st | st in lists[sid])
  {
  }

  lemma DeactivateMore(streams: map<StreamId, Stream>, a: set<StreamId>, b: set<StreamId>)
    ensures Deactivate(Deactivate(streams, a), b) == Deactivate(streams, a + b)
  {
  }

  /** The sessions of a set that have been idle for longer than the timeout. */
  function Idle(of: set<Sid>, touched: map<Sid, int>, now: int, timeout: int): set<Sid>
    requires of <= touched.Keys
  {
    set sid | sid in of && now - touched[sid] > timeout
  }

  lemma IdleMore(table: set<Sid>, todo: set<Sid>, sid: Sid, touched: map<Sid, int>, now: int, timeout: int)
    requires todo <= table <= touched.Keys && sid in todo
    ensures var before := Idle(table - todo, touched, now, timeout);
            Idle(table - (todo - {sid}), touched, now, timeout)
            == if now - touched[sid] > timeout then before + {sid} else before
  {
  }

  /** The idle sessions are the ones the model's sweep removes. */
  lemma IdleIsExpired(s: State, now: int)
    requires s.reg.table <= s.reg.touched.Keys
    ensures Idle(s.reg.table, s.reg.touched, now, s.cfg.idleTimeout) == Expired(s, now)
  {
  }

  class SessionTable {
    const cfg: Config
    var table: set<Sid>
    var touched: map<Sid, int>
    var lists: map<Sid, seq<StreamId>>
    var streams: map<StreamId, Stream>
    var conns: map<ConnId, Conn>

    ghost predicate Valid()
      reads this
    {
      && table <= lists.Keys && table <= touched.Keys
      && (forall sid :: sid in lists ==> forall st :: st in lists[sid] ==> st in streams)
    }

    constructor (cfg: Config)
      ensures this.cfg == cfg && Valid() && table == {} && lists == map[] && streams == map[] && conns == map[]
    {
      this.cfg := cfg;
      table, touched, lists, streams, conns := {}, map[], map[], map[], map[];
    }

    /** push_to_session_sse: one frame to each active stream of the session. */
    method PushToSession(sid: Sid, body: Body)
      requires Valid()
      modifies this`conns
      ensures conns == if sid in table then PushAll(cfg, old(conns), streams, lists[sid], StreamFrame(sid, body))
                       else old(conns)
    {
      if sid !in table {
        return;
      }
      var frame, rest := StreamFrame(sid, body), lists[sid];
      while rest != []
        invariant forall st :: st in rest ==> st in streams
        invariant PushAll(cfg, conns, streams, rest, frame) == PushAll(cfg, old(conns), streams, lists[sid], frame)
        decreases |rest|
      {
        var st := rest[0];
        if streams[st].active {
          conns := Write(cfg, conns, streams[st].conn, frame);
        }
        rest := rest[1..];
      }
    }

    /** The body shared by DELETE, sweep and stop: every listed stream goes
        inactive and is handed back for closing outside the lock. */
    method DropSession(sid: Sid) returns (toClose: set<StreamId>)
      requires Valid() && sid in table
      modifies this`table, this`lists, this`streams
      ensures Valid()
      ensures table == old(table) - {sid} && lists == old(lists)[sid := []]
      ensures toClose == (set st | st in old(lists)[sid])
      ensures streams == Deactivate(old(streams), toClose)
    {
      toClose := {};
      var list := lists[sid];
      for i := 0 to |list|
        invariant table == old(table) && lists == old(lists)
        invariant toClose == set st | st in list[..i]
        invariant streams == Deactivate(old(streams), toClose)
      {
        var st := list[i];
        DeactivateMore(old(streams), toClose, {st});
        assert list[..i + 1] == list[..i] + [st];
        assert Deactivate(streams, {st}) == streams[st := streams[st].(active := false)];
        streams := streams[st := streams[st].(active := false)];
        toClose := toClose + {st};
      }
      assert list[..|list|] == list;
      lists := lists[sid := []];
      table := table - {sid};
    }

    /** handle_delete; false is the 404. */
    method DeleteSession(sid: Sid) returns (found: bool, toClose: set<StreamId>)
      requires Valid()
      modifies this`table, this`lists, this`streams
      ensures Valid() && found == (sid in old(table))
      ensures found ==> table == old(table) - {sid} && toClose == Listed(old(lists), {sid})
      ensures found ==> lists == ClearLists(old(lists), {sid}) && streams == Deactivate(old(streams), toClose)
      ensures !found ==> toClose == {} && table == old(table) && lists == old(lists) && streams == old(streams)
    {
      found, toClose := sid in table, {};
      if found {
        ClearMore(lists, {}, sid);
        assert ClearLists(lists, {}) == lists && {} + {sid} == {sid} && Listed(lists, {}) == {};
        toClose := DropSession(sid);
      }
    }

    /** sweep_sessions: exactly the sessions idle for longer than the timeout. */
    method SweepSessions(now: int) returns (toClose: set<StreamId>)
      requires Valid()
      modifies this`table, this`lists, this`streams
      ensures Valid()
      ensures var gone := Idle(old(table), touched, now, cfg.idleTimeout);
              && table == old(table) - gone && lists == ClearLists(old(lists), gone)
              && toClose == Listed(old(lists), gone) && streams == Deactivate(old(streams), toClose)
    {
      toClose := {};
      var todo := table;
      ghost var gone: set<Sid> := {};
      assert ClearLists(lists, {}) == lists && Deactivate(streams, {}) == streams;
      while todo != {}
        invariant Valid() && todo <= table && gone <= old(table)
        invariant table == old(table) - gone
        invariant gone == Idle(old(table) - todo, touched, now, cfg.idleTimeout)
        invariant lists == ClearLists(old(lists), gone)
        invariant toClose == Listed(old(lists), gone)
        invariant streams == Deactivate(old(streams), toClose)
        decreases todo
      {
        var sid :| sid in todo;
        IdleMore(old(table), todo, sid, touched, now, cfg.idleTimeout);
        todo := todo - {sid};
        if now - touched[sid] > cfg.idleTimeout {
          ClearMore(old(lists), gone, sid);
          var dropped := DropSession(sid);
          DeactivateMore(old(streams), toClose, dropped);
          toClose := toClose + dropped;
          gone := gone + {sid};
        }
      }
      assert old(table) - {} == old(table);
    }
  }
}
