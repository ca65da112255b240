/** Reachable states.  In three of them the source does not keep what one would expect of it; each comes
    with an exact condition elsewhere: Delivery.NotificationReply, Routing.NextRouted and
    Subscriptions.NextExact. */
module Counterexamples {
  import opened Prelude
  import opened Crypto
  import opened Messages
  import opened Sessions
  import opened Redis
  import opened Nodes
  import opened NodeInvariant
  import opened Systems
  import opened Safety
  import opened Outgoing
  import opened Subscriptions
  import opened Routing
  import opened Delivery

  ghost predicate Reachable(cfg: Config, s: System) {
    exists ss: seq<System>, es: seq<Event> :: IsRun(cfg, ss, es) && ss[|es|] == s
  }

  lemma ReachInit(cfg: Config)
    ensures Reachable(cfg, Init(cfg))
  {
    assert IsRun(cfg, [Init(cfg)], []);
  }

  lemma ReachNext(cfg: Config, s: System, e: Event)
    requires Reachable(cfg, s) && Enabled(s, e)
    ensures Reachable(cfg, Next(cfg, s, e))
  {
    hide Enabled, Next;
    var ss: seq<System>, es: seq<Event> :| IsRun(cfg, ss, es) && ss[|es|] == s;
    ExtendRun(cfg, ss, es, e);
    var tt, fs := ss + [Next(cfg, s, e)], es + [e];
    assert IsRun(cfg, tt, fs) && tt[|fs|] == Next(cfg, s, e);
  }

  function LoggedInSession(u: string): Session {
    var ack := Entry(Parcel(u, LoginAck(true)), false);
    Session([ack], false, u, 0, 1, [ack], false, 0, false, [ack], [])
  }

  /** The state after one client has connected and logged in as `u`, and nothing else. */
  function LoginState(cfg: Config, u: string): System {
    System(Node([LoggedInSession(u)], map[u := 0], [u], 1, [LoginBatch(cfg, u)], false, []),
           Init(cfg).store, [])
  }

  lemma LoginReachable(cfg: Config, user: string, key: string, u: string)
    requires u == MakeHexDigest(cfg.hash, user, key) && u != ""
    ensures Reachable(cfg, LoginState(cfg, u))
  {
    hide Reachable, MakeHexDigest, LoginBatch;
    ReachInit(cfg);
    var s1 := Next(cfg, Init(cfg), Arrival);
    ReachNext(cfg, Init(cfg), Arrival);
    var m := LoginMsg(Some(user), Some(key), NoToken);
    assert s1.node == Node([DoRead(FRESH)], map[], [], 1, [], false, []);
    ReachNext(cfg, s1, AppRead(0, m));
    LoginResult(cfg, s1.node, m, u);
  }

  lemma LoginResult(cfg: Config, n: Node, m: AppMsg, u: string)
    requires n == Node([DoRead(FRESH)], map[], [], 1, [], false, []) && m.LoginMsg? && m.token.NoToken?
    requires m.user.Some? && m.key.Some? && u == MakeHexDigest(cfg.hash, m.user.value, m.key.value) && u != ""
    ensures OnRead(cfg, n, 0, m) == LoginState(cfg, u).node
  {
    hide MakeHexDigest, LoginBatch;
    var t := SetPubHash(DoRead(FRESH), u);
    var n1 := Enroll(With(n, 0, t), 0, u);
    assert n1 == Node([t], map[u := 0], [], 1, [], false, []);
    var n2 := Request(n1, LoginBatch(cfg, u)).(fifo := n1.fifo + [u]);
    var e := Entry(Parcel(u, LoginAck(true)), false);
    var n3 := SendTo(n2, 0, e);
    assert OnApp(cfg, n, 0, m) == (n3, LoginOk);
    assert t.queue + [e] == [e] && t.sent + [e] == [e] && t.inFlight + [e] == [e];
    assert n3.sessions == [LoggedInSession(u)];
    OnAppShape(cfg, n, 0, m);
  }

  // A notification whose messages get lost -------------------------------------------------------

  /** The shipped configuration (config/occase-db.conf) without an admin; on_push queues the key of the list. */
  function AsWritten(hash: Hasher): Config {
    Config("chat:", "posts_channel", "notify", "", hash, QueuesListKey)
  }

  /** `u` is logged in and listened for; nothing has been sent but the acknowledgement of the login. */
  function Watching(cfg: Config, u: string, fifo: seq<string>, cmds: seq<Batch>, accepted: seq<Parcel>,
                    lists: map<string, seq<Parcel>>, inbox: seq<Reply>): System {
    System(Node([LoggedInSession(u)], map[u := 0], fifo, 1, cmds, false, accepted),
           Store(lists, {cfg.postsChannel, NotifyChannel(cfg, u), PresenceChannel(u)}, inbox, true), [])
  }

  function Notified(cfg: Config, u: string, op: string): Reply {
    Push(NotifyChannel(cfg, u), Keyspace(op))
  }

  lemma ChannelFacts(cfg: Config, u: string)
    requires cfg == AsWritten(cfg.hash) && IsDigest(u)
    ensures var subs := {cfg.postsChannel, NotifyChannel(cfg, u), PresenceChannel(u)};
      && cfg.notifyChannel !in subs
      && KEYSPACE + ListKey(cfg, u) == NotifyChannel(cfg, u)
      && KEYSPACE + ListKey(cfg, ListKey(cfg, u)) !in subs
      && !(PRESENCE <= NotifyChannel(cfg, u))
      && |NotifyPrefix(cfg)| < |NotifyChannel(cfg, u)|
      && NotifyChannel(cfg, u)[|NotifyPrefix(cfg)|..] == u
  {
    NotifyChannelOfKey(cfg, u);
    NotifyChannelOfKey(cfg, ListKey(cfg, u));
    Unprefix(NotifyPrefix(cfg), u);
    var far := KEYSPACE + ListKey(cfg, ListKey(cfg, u));
    assert far == NotifyChannel(cfg, ListKey(cfg, u));
    assert |far| > |NotifyChannel(cfg, u)|;
    assert far[0] == '_' && NotifyChannel(cfg, u)[0] == '_' && PresenceChannel(u)[0] == 'p' && PRESENCE[0] == 'p';
  }

  lemma LoginExecutes(cfg: Config, u: string)
    requires cfg == AsWritten(cfg.hash) && IsDigest(u)
    ensures ExecBatch(Init(cfg).store, LoginBatch(cfg, u)) ==
      Watching(cfg, u, [], [], [], map[],
               [Confirm(NotifyChannel(cfg, u)), Confirm(PresenceChannel(u)), LRangeReply(u, ListKey(cfg, u), [])]).store
  {
    hide IsDigest;
    var r0 := Init(cfg).store;
    var key, nc, pc := ListKey(cfg, u), NotifyChannel(cfg, u), PresenceChannel(u);
    var b := LoginBatch(cfg, u);
    var r1 := Exec(r0, Subscribe(nc));
    var r2 := Exec(r1, Subscribe(pc));
    var r3 := Exec(r2, LRange(key, u));
    var r4 := Exec(r3, Del(key));
    assert b[1..][1..] == [LRange(key, u), Del(key)] && b[1..][1..][1..] == [Del(key)] && [Del(key)][1..] == [];
    assert ExecBatch(r0, b) == ExecBatch(r1, b[1..]) == ExecBatch(r2, b[1..][1..]) == ExecBatch(r3, [Del(key)]) == r4;
    assert r2.inbox == [Confirm(nc), Confirm(pc)];
    assert r4.inbox == [Confirm(nc), Confirm(pc), LRangeReply(u, ListKey(cfg, u), [])];
    assert r4.subs == {cfg.postsChannel, nc, pc};
    assert r4.lists == map[];
  }

  lemma StoreExecutes(cfg: Config, r: Store, ps: seq<Parcel>, to: string, u: string)
    requires cfg == AsWritten(cfg.hash) && IsDigest(u) && ps != []
    requires r.subs == {cfg.postsChannel, NotifyChannel(cfg, u), PresenceChannel(u)} && ListKey(cfg, to) !in r.lists
    requires to == u || to == ListKey(cfg, u)
    ensures ExecBatch(r, StoreBatch(cfg, ps, to)) ==
      r.(lists := r.lists[ListKey(cfg, to) := ps],
         inbox := r.inbox + if to == u then [Notified(cfg, u, "rpush"), Notified(cfg, u, "expire")] else [])
  {
    hide IsDigest;
    ChannelFacts(cfg, u);
    var key := ListKey(cfg, to);
    var b := StoreBatch(cfg, ps, to);
    var r1 := Exec(r, RPush(key, ps));
    var r2 := Exec(r1, Expire(key));
    assert to != u ==> |to| > |u|;
    assert b[1..][1..] == b[2..] && b[2..][1..] == b[3..] && b[3..][1..] == [];
    assert ExecBatch(r, b) == ExecBatch(r, b[1..]) == ExecBatch(r1, b[2..]) == ExecBatch(r2, b[3..]);
    assert ExecBatch(r2, b[3..]) == Exec(r2, b[3]);
    assert ListAt(r.lists, key) + ps == ps;
    assert to == u ==> r2.inbox == r.inbox + [Notified(cfg, u, "rpush"), Notified(cfg, u, "expire")];
    assert to != u ==> r2.inbox == r.inbox + [];
  }

  lemma FetchExecutes(cfg: Config, r: Store, ps: seq<Parcel>, u: string)
    requires cfg == AsWritten(cfg.hash) && IsDigest(u)
    requires r.subs == {cfg.postsChannel, NotifyChannel(cfg, u), PresenceChannel(u)}
    requires r.lists == map[ListKey(cfg, u) := ps]
    ensures ExecBatch(r, FetchBatch(cfg, u, ListKey(cfg, u))) ==
      r.(lists := map[], inbox := r.inbox + [LRangeReply(ListKey(cfg, u), ListKey(cfg, u), ps), Notified(cfg, u, "del")])
  {
    hide IsDigest;
    ChannelFacts(cfg, u);
    var key := ListKey(cfg, u);
    var r1 := Exec(r, LRange(key, key));
    assert FetchBatch(cfg, u, key)[1..] == [Del(key)] && [Del(key)][1..] == [];
    assert ExecBatch(r, FetchBatch(cfg, u, key)) == ExecBatch(r1, [Del(key)]) == Exec(r1, Del(key));
    assert r.lists - {key} == map[];
    assert r1.inbox + [Notified(cfg, u, "del")] == r.inbox + [LRangeReply(key, key, ps), Notified(cfg, u, "del")];
  }

  /** Handling replies that change nothing but the inbox. */
  lemma ReachAfterReply(cfg: Config, s: System, s1: System)
    requires Reachable(cfg, s) && InRange(s.node) && s.store.inbox != []
    requires s1 == s.(node := OnReply(cfg, s.node, s.store.inbox[0]), store := s.store.(inbox := s.store.inbox[1..]))
    ensures Reachable(cfg, s1)
  {
    hide Reachable, OnReply;
    ReachNext(cfg, s, RedisReplies);
  }

  lemma ReachAfterExecution(cfg: Config, s: System, s1: System)
    requires Reachable(cfg, s) && InRange(s.node) && s.node.cmds != [] && s.store.open
    requires s1 == s.(node := s.node.(cmds := s.node.cmds[1..]), store := ExecBatch(s.store, s.node.cmds[0]))
    ensures Reachable(cfg, s1)
  {
    hide Reachable, ExecBatch;
    ReachNext(cfg, s, RedisExecutes);
  }

  /** A user is logged in and the first fetch is done. */
  lemma SettledReachable(cfg: Config, user: string, key: string, u: string)
    requires cfg == AsWritten(cfg.hash) && u == MakeHexDigest(cfg.hash, user, key) && u != ""
    ensures Reachable(cfg, Watching(cfg, u, [], [], [], map[], []))
  {
    hide Reachable, MakeHexDigest, IsDigest, LoginBatch, ExecBatch;
    var nc, pc := NotifyChannel(cfg, u), PresenceChannel(u);
    LoginReachable(cfg, user, key, u);
    LoginExecutes(cfg, u);
    var a := Watching(cfg, u, [u], [], [], map[], [Confirm(nc), Confirm(pc), LRangeReply(u, ListKey(cfg, u), [])]);
    ReachAfterExecution(cfg, LoginState(cfg, u), a);
    var b := Watching(cfg, u, [u], [], [], map[], [Confirm(pc), LRangeReply(u, ListKey(cfg, u), [])]);
    ReachAfterReply(cfg, a, b);
    var c := Watching(cfg, u, [u], [], [], map[], [LRangeReply(u, ListKey(cfg, u), [])]);
    ReachAfterReply(cfg, b, c);
    var d := Watching(cfg, u, [], [], [], map[], []);
    assert OnReply(cfg, c.node, c.store.inbox[0]) == d.node;
    ReachAfterReply(cfg, c, d);
  }

  /** A presence message that another node publishes reaches the session of the user it is for. */
  lemma PresenceArrives(cfg: Config, user: string, key: string, u: string, payload: Payload)
    requires cfg == AsWritten(cfg.hash) && u == MakeHexDigest(cfg.hash, user, key) && u != "" && !payload.Keyspace?
    ensures exists s ::
      && Reachable(cfg, s) && |s.node.sessions| == 1 && s.node.sessions[0].pubHash == u
      && Entry(Parcel(u, Relayed(payload)), false) in s.node.sessions[0].queue
  {
    hide Reachable, MakeHexDigest, IsDigest, Enabled, SystemOk;
    var e := Entry(Parcel(u, Relayed(payload)), false);
    AsWrittenOk(cfg);
    SettledReachable(cfg, user, key, u);
    var a := Watching(cfg, u, [], [], [], map[], []);
    ReachableOk(cfg, a);
    var b := Watching(cfg, u, [], [], [], map[], [Push(PresenceChannel(u), payload)]);
    PresencePublished(cfg, a, b, u, payload);
    ReachableOk(cfg, b);
    PresenceHandled(cfg, b, u, payload);
    var c := Next(cfg, b, RedisReplies);
    assert c.node == SendTo(b.node, 0, e);
    assert e in Send(b.node.sessions[0], e).queue;
  }

  lemma AsWrittenOk(cfg: Config)
    requires cfg == AsWritten(cfg.hash)
    ensures ConfigOk(cfg)
  {
    assert cfg.postsChannel[0] == 'p' && KEYSPACE[0] == '_' && cfg.postsChannel[1] == 'o' && PRESENCE[1] == 'c';
  }

  lemma PresencePublished(cfg: Config, a: System, b: System, u: string, payload: Payload)
    requires Reachable(cfg, a) && InRange(a.node) && PresenceChannel(u) in a.store.subs && !payload.Keyspace?
    requires b == a.(store := a.store.(inbox := a.store.inbox + [Push(PresenceChannel(u), payload)]))
    ensures Reachable(cfg, b)
  {
    hide Reachable;
    ReachNext(cfg, a, ForeignPublish(PresenceChannel(u), payload));
  }

  lemma PresenceHandled(cfg: Config, b: System, u: string, payload: Payload)
    requires ConfigOk(cfg) && Reachable(cfg, b) && SystemOk(cfg, b) && InRange(b.node) && !payload.Keyspace?
    requires b.store.inbox == [Push(PresenceChannel(u), payload)] && u in b.node.index
    ensures Enabled(b, RedisReplies) && Reachable(cfg, Next(cfg, b, RedisReplies)) && b.node.index[u] < |b.node.sessions|
    ensures Next(cfg, b, RedisReplies).node == SendTo(b.node, b.node.index[u], Entry(Parcel(u, Relayed(payload)), false))
  {
    hide Reachable, SystemOk;
    ReachNext(cfg, b, RedisReplies);
    PresenceReply(cfg, b, u, payload);
  }

  /** A message has been stored for the user, and the node has fetched it. */
  lemma FetchedReachable(cfg: Config, user: string, key: string, u: string, p: Parcel)
    requires cfg == AsWritten(cfg.hash) && u == MakeHexDigest(cfg.hash, user, key) && u != "" && p.addr == u
    ensures Reachable(cfg, Watching(cfg, u, [ListKey(cfg, u)], [], [p], map[],
                                    [LRangeReply(ListKey(cfg, u), ListKey(cfg, u), [p]), Notified(cfg, u, "del")]))
  {
    hide Reachable, MakeHexDigest, IsDigest, StoreBatch, FetchBatch, ExecBatch;
    var k := ListKey(cfg, u);
    var rpush, expire, del := Notified(cfg, u, "rpush"), Notified(cfg, u, "expire"), Notified(cfg, u, "del");
    ChannelFacts(cfg, u);
    SettledReachable(cfg, user, key, u);
    var d := Watching(cfg, u, [], [], [], map[], []);
    ReachNext(cfg, d, ForeignStore(u, [p.msg]));
    assert ParcelsFor(u, [p.msg]) == [p];
    StoreExecutes(cfg, d.store, [p], u, u);
    var e := Watching(cfg, u, [], [], [p], map[k := [p]], [rpush, expire]);
    assert Next(cfg, d, ForeignStore(u, [p.msg])) == e;
    var f := Watching(cfg, u, [k], [FetchBatch(cfg, u, k)], [p], map[k := [p]], [expire]);
    ReachAfterReply(cfg, e, f);
    FetchExecutes(cfg, f.store, [p], u);
    var g := Watching(cfg, u, [k], [], [p], map[], [expire, LRangeReply(k, k, [p]), del]);
    ReachAfterExecution(cfg, f, g);
    ReachAfterReply(cfg, g, Watching(cfg, u, [k], [], [p], map[], [LRangeReply(k, k, [p]), del]));
  }

  /** As written: another node stores one message for a user who is logged in here and whose
      subscription is in place.  When everything has settled, the message is in the list under the
      doubly prefixed key, and the user has been sent nothing but the acknowledgement of the login. */
  lemma NotifiedMessageIsNotDelivered(cfg: Config, user: string, key: string, u: string, m: Msg)
    requires cfg == AsWritten(cfg.hash) && u == MakeHexDigest(cfg.hash, user, key) && u != ""
    ensures Reachable(cfg, Watching(cfg, u, [], [], [Parcel(u, m)], map[RefetchKey(cfg, u) := [Parcel(u, m)]], []))
  {
    hide Reachable, MakeHexDigest, IsDigest, StoreBatch, ExecBatch;
    var k, p, del := ListKey(cfg, u), Parcel(u, m), Notified(cfg, u, "del");
    ChannelFacts(cfg, u);
    FetchedReachable(cfg, user, key, u, p);
    var h := Watching(cfg, u, [k], [], [p], map[], [LRangeReply(k, k, [p]), del]);
    var i := Watching(cfg, u, [], [StoreBatch(cfg, [p], k)], [p], map[], [del]);
    assert k != u by { assert |k| > |u|; }
    ReachAfterReply(cfg, h, i);
    StoreExecutes(cfg, i.store, [p], k, u);
    var j := Watching(cfg, u, [], [], [p], map[ListKey(cfg, k) := [p]], [del]);
    ReachAfterExecution(cfg, i, j);
    ReachAfterReply(cfg, j, Watching(cfg, u, [], [], [p], map[ListKey(cfg, k) := [p]], []));
  }

  // A login that is not listened for ---------------------------------------------------------------

  lemma ReachableOk(cfg: Config, s: System)
    requires ConfigOk(cfg) && Reachable(cfg, s)
    ensures SystemOk(cfg, s) && InRange(s.node)
  {
    hide SystemOk, Next, Enabled;
    var ss: seq<System>, es: seq<Event> :| IsRun(cfg, ss, es) && ss[|es|] == s;
    RunOk(cfg, ss, es, |es|);
  }

  /** One connection and one login with a token that is, say, a number: the user is in the map of
      sessions, but the node does not listen for the user's messages. */
  lemma MalformedTokenIsNotListenedFor(cfg: Config, user: string, key: string, u: string)
    requires ConfigOk(cfg) && u == MakeHexDigest(cfg.hash, user, key) && u != ""
    ensures exists s :: Reachable(cfg, s) && u in s.node.index && !Watched(cfg, s, u)
  {
    hide Reachable, MakeHexDigest, SystemOk, Watched, Followed, OnRead;
    ReachInit(cfg);
    var s0 := Init(cfg);
    var s1 := Next(cfg, s0, Arrival);
    ReachNext(cfg, s0, Arrival);
    ReachableOk(cfg, s1);
    var e := AppRead(0, LoginMsg(Some(user), Some(key), MalformedToken));
    ReachNext(cfg, s1, e);
    InitNotWatched(cfg, u);
    ReachableOk(cfg, s0);
    NextWatched(cfg, s0, Arrival, u);
    NextWatched(cfg, s1, e, u);
    NextIndex(cfg, s1, e, u);
    assert s1.node.sessions[0] == DoRead(FRESH);
    assert LoginUser(cfg, s1.node, 0, e.m) == Some(u);
    assert FailsToSubscribe(cfg, s1, e, u);
    assert !Subscribes(cfg, s1, e, u);
    assert Reachable(cfg, Next(cfg, s1, e));
  }

  // A login that misroutes -----------------------------------------------------------------------

  /** A session with an unsent persistent message for `u`. */
  function BusySession(u: string): Session {
    var p := Entry(Parcel(u, PublishAck(false, "")), true);
    var s := LoggedInSession(u);
    s.(queue := s.queue + [p], sent := s.sent + [p])
  }

  function BusyNode(cfg: Config, u: string): Node {
    Node([BusySession(u), DoRead(FRESH)], map[u := 0], [u], 2, [LoginBatch(cfg, u)], false, [Parcel(u, PublishAck(false, ""))])
  }

  lemma BusyReachable(cfg: Config, user: string, key: string, u: string)
    requires u == MakeHexDigest(cfg.hash, user, key) && u != ""
    ensures Reachable(cfg, System(BusyNode(cfg, u), Init(cfg).store, []))
  {
    hide Reachable, LoginBatch;
    LoginReachable(cfg, user, key, u);
    var s1 := Next(cfg, LoginState(cfg, u), Arrival);
    ReachNext(cfg, LoginState(cfg, u), Arrival);
    var m := PublishMsg(Some(""), Some(""), false, "");
    ReachNext(cfg, s1, AppRead(0, m));
    var p := Parcel(u, PublishAck(false, ""));
    assert s1.node.sessions == [LoggedInSession(u), DoRead(FRESH)];
    assert [] + [p] == [p];
    assert OnApp(cfg, s1.node, 0, m) == (SendTo(Accept(s1.node, p), 0, Entry(p, true)), PublishOk);
    assert OnRead(cfg, s1.node, 0, m).sessions == [BusySession(u), DoRead(FRESH)];
    assert Next(cfg, s1, AppRead(0, m)) == System(BusyNode(cfg, u), Init(cfg).store, []);
  }

  /** Two connections of one user and a third login, on the first connection and as another user, while
      that connection is being closed: a message for the first user is now in the second user's
      session, which will store it for the second user when it ends. */
  lemma ClosingSessionCanMisroute(cfg: Config, user: string, key: string, user2: string, key2: string)
    requires ConfigOk(cfg)
    requires var u, v := MakeHexDigest(cfg.hash, user, key), MakeHexDigest(cfg.hash, user2, key2);
      u != "" && v != "" && u != v
    ensures exists s, e :: Reachable(cfg, s) && Enabled(s, e) && Misroutes(cfg, s, e)
  {
    hide Reachable, MakeHexDigest, LoginBatch, IsDigest, Kept, OnRead, Misroutes, SystemOk;
    var u, v := MakeHexDigest(cfg.hash, user, key), MakeHexDigest(cfg.hash, user2, key2);
    var s := System(BusyNode(cfg, u), Init(cfg).store, []);
    BusyReachable(cfg, user, key, u);
    var e1 := AppRead(1, LoginMsg(Some(user), Some(key), NoToken));
    ReachNext(cfg, s, e1);
    var s1 := Next(cfg, s, e1);
    ReachableOk(cfg, s1);
    RelogsIn(cfg, s.node, user, key, u);
    LoginMisroutes(cfg, s1, user2, key2, u);
  }

  lemma LoginMisroutes(cfg: Config, s: System, user2: string, key2: string, u: string)
    requires InRange(s.node) && |s.node.sessions| == 2 && s.node.sessions[0] == Overridden(BusySession(u))
    requires var v := MakeHexDigest(cfg.hash, user2, key2); v != "" && u != v
    ensures var e := AppRead(0, LoginMsg(Some(user2), Some(key2), NoToken)); Enabled(s, e) && Misroutes(cfg, s, e)
  {
    hide MakeHexDigest, IsDigest, Kept;
    BusyKept(u);
    assert Parcel(u, PublishAck(false, "")) in Kept(s.node.sessions[0].queue);
  }

  lemma BusyKept(u: string)
    ensures Kept(BusySession(u).queue) == [Parcel(u, PublishAck(false, ""))]
  {
    KeptSnoc(LoggedInSession(u).queue, Entry(Parcel(u, PublishAck(false, "")), true));
    KeptSnoc([], LoggedInSession(u).queue[0]);
    assert [] + LoggedInSession(u).queue == LoggedInSession(u).queue;
  }

  lemma RelogsIn(cfg: Config, n: Node, user: string, key: string, u: string)
    requires u == MakeHexDigest(cfg.hash, user, key) && u != "" && n == BusyNode(cfg, u)
    ensures InRange(n)
    ensures var ss := OnRead(cfg, n, 1, LoginMsg(Some(user), Some(key), NoToken)).sessions;
      |ss| == 2 && ss[0] == Overridden(BusySession(u))
  {
    hide MakeHexDigest, LoginBatch, Kept;
    var m := LoginMsg(Some(user), Some(key), NoToken);
    OnAppShape(cfg, n, 1, m);
    var n1 := Enroll(With(n, 1, SetPubHash(n.sessions[1], u)), 1, u);
    assert n1.sessions[0] == Overridden(BusySession(u));
  }
}
