/** Every message stays on the way to the user it was accepted for. */
module Routing {
  import opened Prelude
  import opened Crypto
  import opened Messages
  import opened Sessions
  import opened Redis
  import opened Nodes
  import opened NodeInvariant
  import opened Systems
  import opened Wire
  import opened Effects
  import opened Safety
  import opened Outgoing

  /** `x` stands for the user `addr`: it is the user id or, when on_push queues keys, the key of the
      user's list, which the node then takes for a user id. */
  predicate Belongs(cfg: Config, addr: string, x: string) {
    x == addr || (cfg.pushed.QueuesListKey? && x == ListKey(cfg, addr))
  }

  predicate AllBelong(cfg: Config, ps: seq<Parcel>, x: string) {
    forall p :: p in ps ==> Belongs(cfg, p.addr, x)
  }

  /** A user id stands for nobody else, because a key contains a colon. */
  lemma DigestBelongs(cfg: Config, ps: seq<Parcel>, u: string)
    requires ConfigOk(cfg) && IsDigest(u) && AllBelong(cfg, ps, u)
    ensures forall p :: p in ps ==> p.addr == u
  {
    forall p | p in ps ensures p.addr == u {
      assert Belongs(cfg, p.addr, u);
      PrefixedIsNoDigest(cfg.chatPrefix, p.addr);
    }
  }

  predicate KeyRouted(cfg: Config, key: string, ps: seq<Parcel>) {
    cfg.chatPrefix <= key && AllBelong(cfg, ps, Rest(cfg.chatPrefix, key))
  }

  predicate CmdRouted(cfg: Config, c: Cmd) {
    c.RPush? ==> KeyRouted(cfg, c.key, c.parcels)
  }

  ghost predicate BatchRouted(cfg: Config, b: Batch) {
    forall c :: c in b ==> CmdRouted(cfg, c)
  }

  predicate ReplyRouted(cfg: Config, r: Reply) {
    r.LRangeReply? ==> AllBelong(cfg, r.parcels, r.tag)
  }

  ghost predicate StoreRouted(cfg: Config, r: Store) {
    && (forall key :: key in r.lists ==> KeyRouted(cfg, key, r.lists[key]))
    && (forall x :: x in r.inbox ==> ReplyRouted(cfg, x))
  }

  ghost predicate CmdsRouted(cfg: Config, cmds: seq<Batch>) {
    forall b :: b in cmds ==> BatchRouted(cfg, b)
  }

  /** The persistent messages of a session that has its user are for that user. */
  predicate SessionRouted(s: Session) {
    Open(s) && LoggedIn(s) ==> forall p :: p in Kept(s.queue) ==> p.addr == s.pubHash
  }

  ghost predicate SessionsRouted(n: Node) {
    forall i :: 0 <= i < |n.sessions| ==> SessionRouted(n.sessions[i])
  }

  ghost predicate Routed(cfg: Config, s: System) {
    StoreRouted(cfg, s.store) && CmdsRouted(cfg, s.node.cmds) && SessionsRouted(s.node)
  }

  /** The event logs a session in as a user for whom not all of its unsent messages are.  Such messages
      are there only if the session has been overridden and its client still manages to log in again
      before the read loop ends. */
  predicate Misroutes(cfg: Config, s: System, e: Event)
    requires Enabled(s, e)
  {
    e.AppRead? && LoginUser(cfg, s.node, e.i, e.m).Some? &&
    exists p :: p in Kept(s.node.sessions[e.i].queue) && p.addr != LoginUser(cfg, s.node, e.i, e.m).value
  }

  /** A login on a session that is not being closed never does. */
  lemma OnlyClosingSessionsMisroute(cfg: Config, s: System, e: Event)
    requires SystemOk(cfg, s) && Enabled(s, e) && Misroutes(cfg, s, e)
    ensures s.node.sessions[e.i].closing
  {
    hide QueueOk, StoreOk, Correlated, EntryOk, SlotOk, MakeHexDigest;
    assert SessionOk(s.node.sessions[e.i]);
  }

  // Redis ------------------------------------------------------------------------------------

  lemma ExecRouted(cfg: Config, r: Store, c: Cmd)
    requires ConfigOk(cfg) && StoreRouted(cfg, r) && CmdOk(cfg, c) && CmdRouted(cfg, c)
    ensures StoreRouted(cfg, Exec(r, c))
  {
    hide IsDigest, IsNotifyChannel, IsPresenceChannel;
    match c
    case LRange(key, tag) => RangeRouted(cfg, r, key, tag);
    case RPush(key, ps) => assert AllBelong(cfg, ListAt(r.lists, key) + ps, Rest(cfg.chatPrefix, key));
    case _ =>
  }

  /** What is fetched belongs to the tag it is fetched with. */
  lemma RangeRouted(cfg: Config, r: Store, key: string, tag: string)
    requires ConfigOk(cfg) && StoreRouted(cfg, r) && CmdOk(cfg, LRange(key, tag))
    ensures AllBelong(cfg, ListAt(r.lists, key), tag)
  {
    var u := Rest(cfg.chatPrefix, key);
    if key in r.lists {
      assert KeyRouted(cfg, key, r.lists[key]);
      DigestBelongs(cfg, r.lists[key], u);
    }
  }

  lemma {:induction false} ExecBatchRouted(cfg: Config, r: Store, b: Batch)
    requires ConfigOk(cfg) && StoreRouted(cfg, r) && BatchRouted(cfg, b) && forall c :: c in b ==> CmdOk(cfg, c)
    ensures StoreRouted(cfg, ExecBatch(r, b))
    decreases |b|
  {
    hide StoreRouted, CmdRouted, CmdOk, Exec;
    if b != [] {
      ExecRouted(cfg, r, b[0]);
      ExecBatchRouted(cfg, Exec(r, b[0]), b[1..]);
    }
  }

  lemma StoreBatchRouted(cfg: Config, ps: seq<Parcel>, to: string)
    requires ps != [] && AllBelong(cfg, ps, to)
    ensures BatchRouted(cfg, StoreBatch(cfg, ps, to))
  {
    Unprefix(cfg.chatPrefix, to);
  }

  // Batches ------------------------------------------------------------------------------------

  lemma AppSendsRouted(cfg: Config, n: Node, i: nat, m: AppMsg)
    requires i < |n.sessions|
    ensures CmdsRouted(cfg, AppSends(cfg, n, i, m))
  {
    hide StoreBatch, MakeHexDigest;
    if LoggedIn(n.sessions[i]) && m.ChatMsg? && m.to.Some? {
      StoreBatchRouted(cfg, [ChatParcel(cfg, n.sessions[i].pubHash, m)], ChatTo(cfg, m.to.value));
    }
  }

  lemma EventSendsRouted(cfg: Config, s: System, e: Event)
    requires ConfigOk(cfg) && SystemOk(cfg, s) && Routed(cfg, s) && Enabled(s, e)
    ensures CmdsRouted(cfg, EventSends(cfg, s, e))
  {
    hide SystemOk, CmdsRouted, StoreRouted, AppSends, Farewell, ReplySends;
    match e
    case AppRead(i, m) => AppSendsRouted(cfg, s.node, i, m);
    case ReadFailed(i) => FarewellRouted(cfg, s, i);
    case RedisReplies => ReplySendsRouted(cfg, s);
    case _ => PlainRouted(cfg, s, e);
  }

  lemma PlainRouted(cfg: Config, s: System, e: Event)
    requires Enabled(s, e) && !e.AppRead? && !e.ReadFailed? && !e.RedisReplies?
    ensures CmdsRouted(cfg, EventSends(cfg, s, e))
  {
  }

  lemma FarewellRouted(cfg: Config, s: System, i: nat)
    requires SystemOk(cfg, s) && SessionsRouted(s.node) && Enabled(s, ReadFailed(i))
    ensures CmdsRouted(cfg, Farewell(cfg, s.node.sessions[i]))
  {
    hide StoreBatch, QueueOk, StoreOk, Correlated, EntryOk, SlotOk;
    var t := s.node.sessions[i];
    assert SessionOk(t) && SessionRouted(t);
    if LoggedIn(t) && Kept(t.queue) != [] {
      StoreBatchRouted(cfg, Kept(t.queue), t.pubHash);
    }
  }

  lemma ReplySendsRouted(cfg: Config, s: System)
    requires SystemOk(cfg, s) && Routed(cfg, s) && Enabled(s, RedisReplies)
    ensures CmdsRouted(cfg, ReplySends(cfg, s.node, s.store.inbox[0]))
  {
    hide StoreBatch, SystemOk, CmdsRouted, SessionsRouted;
    var x := s.store.inbox[0];
    assert ReplyRouted(cfg, x);
    match x
    case LRangeReply(tag, _, ps) =>
      FetchReplyOk(cfg, s);
      if ps != [] { StoreBatchRouted(cfg, ps, tag); }
      OneBatchRouted(cfg, StoreBatchOrNone(cfg, ps, tag));
    case Push(channel, payload) =>
      var user := if |NotifyPrefix(cfg)| < |channel| then channel[|NotifyPrefix(cfg)|..] else "";
      OneBatchRouted(cfg, FetchBatch(cfg, user, PushedValue(cfg, user)));
    case Confirm(_) => NoBatchRouted(cfg);
  }

  function StoreBatchOrNone(cfg: Config, ps: seq<Parcel>, to: string): Batch {
    if ps == [] then [] else StoreBatch(cfg, ps, to)
  }

  lemma OneBatchRouted(cfg: Config, b: Batch)
    requires BatchRouted(cfg, b)
    ensures CmdsRouted(cfg, [b]) && CmdsRouted(cfg, [])
  {
  }

  lemma NoBatchRouted(cfg: Config)
    ensures CmdsRouted(cfg, [])
  {
  }

  // Sessions -----------------------------------------------------------------------------------

  lemma SendRouted(s: Session, e: Entry)
    requires SessionRouted(s) && (e.persist && LoggedIn(s) ==> e.parcel.addr == s.pubHash)
    ensures SessionRouted(Send(s, e))
  {
    hide Kept;
    KeptSnoc(s.queue, e);
  }

  lemma {:induction false} SendAllRouted(s: Session, ps: seq<Parcel>)
    requires SessionRouted(s) && forall p :: p in ps ==> p.addr == s.pubHash
    ensures SessionRouted(SendAll(s, ps))
    decreases |ps|
  {
    hide SessionRouted;
    if ps != [] {
      SendRouted(s, Entry(ps[0], true));
      SendAllRouted(Send(s, Entry(ps[0], true)), ps[1..]);
    }
  }

  lemma WithRouted(n: Node, i: nat, t: Session)
    requires SessionsRouted(n) && i < |n.sessions| && SessionRouted(t)
    ensures SessionsRouted(With(n, i, t))
  {
  }

  lemma SendToRouted(n: Node, i: nat, e: Entry)
    requires SessionsRouted(n) && i < |n.sessions|
    requires e.persist && LoggedIn(n.sessions[i]) ==> e.parcel.addr == n.sessions[i].pubHash
    ensures SessionsRouted(SendTo(n, i, e))
  {
    SendRouted(n.sessions[i], e);
    WithRouted(n, i, Send(n.sessions[i], e));
  }

  lemma OnAppChatMsgRouted(cfg: Config, n: Node, i: nat, m: AppMsg)
    requires m.ChatMsg? && NodeOk(n) && InRange(n) && i < |n.sessions| && SessionsRouted(n)
    ensures SessionsRouted(OnAppChatMsg(cfg, n, i, m).0)
  {
    hide SessionsRouted, SessionOk, SlotOk, StoreBatch, SessionRouted, Send;
    if m.to.Some? {
      var from := n.sessions[i].pubHash;
      var p := ChatParcel(cfg, from, m);
      if p.addr in n.index {
        assert EntryOk(n, p.addr);
        SameSessionsRouted(n, Accept(n, p));
        SendToRouted(Accept(n, p), n.index[p.addr], Entry(p, true));
      }
      var n1 := Dispatch(cfg, n, p);
      SameSessionsRouted(n, StoreChatMsg(cfg, Accept(n, p), [p], p.addr));
      SameSessionsRouted(n, Accept(n, p));
      if m.postId.Some? && m.id.Some? {
        SendToRouted(n1, i, Entry(Parcel(from, ServerAck(m.to.value, from, m.postId.value, m.id.value)), false));
      }
    }
  }

  lemma SameSessionsRouted(n: Node, n1: Node)
    requires SessionsRouted(n) && n1.sessions == n.sessions
    ensures SessionsRouted(n1)
  {
  }

  lemma OnAppPresenceRouted(cfg: Config, n: Node, i: nat, m: AppMsg)
    requires m.PresenceMsg? && InRange(n) && i < |n.sessions| && SessionsRouted(n)
    ensures SessionsRouted(OnAppPresence(cfg, n, i, m).0)
  {
    hide SessionsRouted, SessionRouted, Send;
    SameSessionsRouted(n, n);
    if m.to.Some? {
      var to := ChatTo(cfg, m.to.value);
      var text := PresenceText(n.sessions[i].pubHash, to, m.body);
      if to in n.index {
        SendToRouted(n, n.index[to], Entry(Parcel(to, Relayed(text)), false));
      } else {
        SameSessionsRouted(n, OnAppPresence(cfg, n, i, m).0);
      }
    }
  }

  lemma OnAppPublishRouted(cfg: Config, n: Node, i: nat, m: AppMsg)
    requires m.PublishMsg? && i < |n.sessions| && SessionsRouted(n)
    ensures SessionsRouted(OnAppPublish(cfg, n, i, m).0)
  {
    hide SessionsRouted, SessionRouted, Send;
    var me := n.sessions[i].pubHash;
    var b := [HSet(m.newId), Publish(cfg.postsChannel, PostText(m.newId))];
    var p, q := Parcel(me, PublishAck(false, "")), Parcel(me, PublishAck(true, m.newId));
    SameSessionsRouted(n, Accept(n, p));
    SameSessionsRouted(n, Accept(Request(n, b), q));
    SendToRouted(Accept(n, p), i, Entry(p, true));
    SendToRouted(Accept(Request(n, b), q), i, Entry(q, true));
  }

  /** After a login the sessions are in order if and only if nothing for another user was left in the
      session. */
  lemma OnAppLoginRouted(cfg: Config, n: Node, i: nat, m: AppMsg)
    requires m.LoginMsg? && NodeOk(n) && InRange(n) && i < |n.sessions| && SessionsRouted(n)
    requires Open(n.sessions[i]) && !LoggedIn(n.sessions[i])
    ensures SessionsRouted(OnAppLogin(cfg, n, i, m).0) <==>
      var u := LoginUser(cfg, n, i, m); u.None? || forall p :: p in Kept(n.sessions[i].queue) ==> p.addr == u.value
  {
    hide SessionsRouted, SessionOk, EntryOk, SlotOk, Kept, LoginBatch, MakeHexDigest, Send, Enroll, SessionRouted;
    var u := LoginUser(cfg, n, i, m);
    if u.None? {
      SendToRouted(n, i, Entry(Parcel("", LoginAck(false)), false));
      SameSessionsRouted(n, n);
    } else {
      var n1 := Enroll(With(n, i, SetPubHash(n.sessions[i], u.value)), i, u.value);
      EnrollRouted(n, i, u.value);
      EnrollOk(n, i, u.value);
      if !m.token.MalformedToken? {
        var n2 := PublishToken(cfg, n1, u.value, m.token);
        var n3 := Request(n2, LoginBatch(cfg, u.value)).(fifo := n2.fifo + [u.value]);
        assert n3.sessions == n1.sessions;
        LoginAckRouted(n1, n3, i, Entry(Parcel(u.value, LoginAck(true)), false));
      }
    }
  }

  lemma EnrollRouted(n: Node, i: nat, user: string)
    requires NodeOk(n) && i < |n.sessions| && Open(n.sessions[i]) && !LoggedIn(n.sessions[i])
    requires IsDigest(user) && InRange(With(n, i, SetPubHash(n.sessions[i], user))) && SessionsRouted(n)
    ensures SessionsRouted(Enroll(With(n, i, SetPubHash(n.sessions[i], user)), i, user)) <==>
      forall p :: p in Kept(n.sessions[i].queue) ==> p.addr == user
  {
    hide SessionOk, EntryOk, SlotOk, Kept, Enroll, IndexOk;
    EnrollShape(n, i, user);
    EnrollOk(n, i, user);
    var n1 := Enroll(With(n, i, SetPubHash(n.sessions[i], user)), i, user);
    assert SessionsRouted(n1) ==> SessionRouted(n1.sessions[i]);
  }

  /** A message that need not survive does not matter. */
  lemma LoginAckRouted(n: Node, n1: Node, i: nat, e: Entry)
    requires n1.sessions == n.sessions && i < |n.sessions| && !e.persist
    ensures SessionsRouted(SendTo(n1, i, e)) <==> SessionsRouted(n)
  {
    hide Kept;
    var s := n.sessions[i];
    KeptSnoc(s.queue, e);
    var n2 := SendTo(n1, i, e);
    assert SessionRouted(n2.sessions[i]) <==> SessionRouted(s);
    assert n.sessions == n2.sessions[i := s];
  }

  lemma OnAppRouted(cfg: Config, n: Node, i: nat, m: AppMsg)
    requires NodeOk(n) && InRange(n) && i < |n.sessions| && SessionsRouted(n) && Open(n.sessions[i])
    ensures SessionsRouted(OnApp(cfg, n, i, m).0) <==>
      var u := LoginUser(cfg, n, i, m); u.None? || forall p :: p in Kept(n.sessions[i].queue) ==> p.addr == u.value
  {
    hide SessionsRouted, NodeOk, Kept, MakeHexDigest, OnAppLogin, OnAppChatMsg, OnAppPresence, OnAppPublish;
    SameSessionsRouted(n, n);
    if LoggedIn(n.sessions[i]) {
      match m {
        case ChatMsg(_, _, _, _) => OnAppChatMsgRouted(cfg, n, i, m);
        case PresenceMsg(_, _) => OnAppPresenceRouted(cfg, n, i, m);
        case PublishMsg(_, _, _, _) => OnAppPublishRouted(cfg, n, i, m);
        case _ =>
      }
    } else if m.LoginMsg? {
      OnAppLoginRouted(cfg, n, i, m);
    }
  }

  lemma OnReadRouted(cfg: Config, n: Node, i: nat, m: AppMsg)
    requires NodeOk(n) && InRange(n) && i < |n.sessions| && SessionsRouted(n) && Open(n.sessions[i])
    ensures SessionsRouted(OnRead(cfg, n, i, m)) <==>
      var u := LoginUser(cfg, n, i, m); u.None? || forall p :: p in Kept(n.sessions[i].queue) ==> p.addr == u.value
  {
    hide NodeOk, Kept, OnApp, LoginUser, SessionRouted, SessionsRouted;
    OnAppShape(cfg, n, i, m);
    OnAppRouted(cfg, n, i, m);
    LikeSessionsRouted(OnApp(cfg, n, i, m).0, OnRead(cfg, n, i, m));
  }

  lemma LikeSessionsRouted(n: Node, n1: Node)
    requires |n1.sessions| == |n.sessions|
    requires forall k :: 0 <= k < |n.sessions| ==>
      var s, t := n.sessions[k], n1.sessions[k];
      t.queue == s.queue && t.pubHash == s.pubHash && t.finishes == s.finishes
    ensures SessionsRouted(n1) <==> SessionsRouted(n)
  {
    hide Kept;
    assert forall k :: 0 <= k < |n.sessions| ==> (SessionRouted(n.sessions[k]) <==> SessionRouted(n1.sessions[k]));
  }

  lemma RepliesSessionsRouted(cfg: Config, s: System)
    requires ConfigOk(cfg) && SystemOk(cfg, s) && Routed(cfg, s) && Enabled(s, RedisReplies)
    ensures SessionsRouted(Next(cfg, s, RedisReplies).node)
  {
    hide SessionsRouted, QueueOk, StoreOk, Correlated, CmdsRouted, SessionOk, SlotOk, SessionRouted, StoreBatch, FetchBatch,
      SendAll, Send;
    var n, x := s.node, s.store.inbox[0];
    match x
    case LRangeReply(tag, _, ps) =>
      FetchReplyOk(cfg, s);
      FetchSessionsRouted(cfg, n, tag, ps) by { assert ReplyRouted(cfg, x); }
      SameSessionsRouted(OnDbChatMsg(cfg, n, tag, ps), OnLRange(cfg, n, ps));
    case Push(channel, payload) =>
      SameSessionsRouted(n, n);
      if payload == Keyspace("rpush") {
        SameSessionsRouted(n, OnPush(cfg, n, channel, payload));
      } else if PRESENCE <= channel && Rest(PRESENCE, channel) in n.index {
        var u := Rest(PRESENCE, channel);
        SendToRouted(n, n.index[u], Entry(Parcel(u, Relayed(payload)), false));
        SameSessionsRouted(n, Fault(n));
      }
    case Confirm(_) => SameSessionsRouted(n, n);
  }

  /** What a fetch hands to a session is for the user of that session. */
  lemma FetchSessionsRouted(cfg: Config, n: Node, tag: string, ps: seq<Parcel>)
    requires ConfigOk(cfg) && NodeOk(n) && InRange(n) && SessionsRouted(n) && AllBelong(cfg, ps, tag)
    ensures SessionsRouted(OnDbChatMsg(cfg, n, tag, ps))
    ensures tag in n.index ==>
      n.sessions[n.index[tag]].pubHash == tag && forall p :: p in ps ==> p.addr == tag
  {
    hide SessionsRouted, SessionOk, SlotOk, SessionRouted, StoreBatch, SendAll, IsDigest, AllBelong;
    if tag in n.index {
      assert EntryOk(n, tag);
      DigestBelongs(cfg, ps, tag);
      var s := n.sessions[n.index[tag]];
      RoutedAt(n, n.index[tag]);
      SendAllRouted(s, ps);
      WithRouted(n, n.index[tag], SendAll(s, ps));
      SameSessionsRouted(n, Fault(n));
    } else {
      SameSessionsRouted(n, OnDbChatMsg(cfg, n, tag, ps));
    }
  }

  lemma RoutedAt(n: Node, i: nat)
    requires SessionsRouted(n) && i < |n.sessions|
    ensures SessionRouted(n.sessions[i])
  {
  }

  lemma NextSessionsRouted(cfg: Config, s: System, e: Event)
    requires ConfigOk(cfg) && SystemOk(cfg, s) && Routed(cfg, s) && Enabled(s, e)
    ensures SessionsRouted(Next(cfg, s, e).node) <==> !Misroutes(cfg, s, e)
  {
    hide QueueOk, StoreOk, Correlated, CmdsRouted, StoreRouted, EntryOk, SlotOk, OnRead, OnReadError, OnReply, ExecBatch,
      StoreBatch, LoginUser, Kept, SessionsRouted;
    var n := s.node;
    match e
    case AppRead(i, m) => assert SessionOk(n.sessions[i]); OnReadRouted(cfg, n, i, m);
    case ReadFailed(i) => assert SessionOk(n.sessions[i]); FinishRouted(cfg, n, i);
    case RedisReplies => RepliesSessionsRouted(cfg, s);
    case WriteDone(i) => assert SessionOk(n.sessions[i]); WrittenRouted(n, i);
    case Arrival => ArrivalRouted(n);
    case _ => PlainSessionsRouted(cfg, s, e);
  }

  lemma FinishRouted(cfg: Config, n: Node, i: nat)
    requires NodeOk(n) && SessionsRouted(n) && i < |n.sessions| && Open(n.sessions[i])
    ensures SessionsRouted(OnReadError(cfg, n, i))
  {
    hide Kept, OnReadError, EntryOk, SlotOk;
    OnReadErrorShape(cfg, n, i);
  }

  lemma ArrivalRouted(n: Node)
    requires SessionsRouted(n)
    ensures SessionsRouted(OnRun(n))
  {
    hide Kept;
  }

  lemma PlainSessionsRouted(cfg: Config, s: System, e: Event)
    requires Enabled(s, e) && !e.AppRead? && !e.ReadFailed? && !e.RedisReplies? && !e.WriteDone? && !e.Arrival?
    ensures SessionsRouted(Next(cfg, s, e).node) <==> SessionsRouted(s.node)
  {
    hide Exec, ExecBatch, StoreBatch, SessionsRouted;
    LikeSessionsRouted(s.node, Next(cfg, s, e).node);
  }

  lemma WrittenRouted(n: Node, i: nat)
    requires SessionsRouted(n) && i < |n.sessions| && n.sessions[i].inFlight != []
    ensures SessionsRouted(OnWritten(n, i))
  {
    hide Kept;
    var s := n.sessions[i];
    if s.queue != [] {
      KeptFirst(s.queue);
      assert SessionRouted(OnWriteOk(s));
    }
  }

  lemma NextStoreRouted(cfg: Config, s: System, e: Event)
    requires ConfigOk(cfg) && SystemOk(cfg, s) && Routed(cfg, s) && Enabled(s, e)
    ensures StoreRouted(cfg, Next(cfg, s, e).store)
  {
    hide NodeOk, StoreOk, Correlated, SessionsRouted, CmdRouted, CmdOk, Paired, FetchesWhatItWatches, KeyRouted, ReplyRouted,
      OnRead, OnReadError, OnWritten, OnRun, ShutdownAll, OnReply, ExecBatch, StoreBatch;
    match e
    case RedisExecutes =>
      assert BatchOk(cfg, s.node.cmds[0]) && BatchRouted(cfg, s.node.cmds[0]);
      ExecBatchRouted(cfg, s.store, s.node.cmds[0]);
    case ForeignStore(user, msgs) =>
      var ps := ParcelsFor(user, msgs);
      StoreBatchOk(cfg, ps, user);
      StoreBatchRouted(cfg, ps, user);
      ExecBatchRouted(cfg, s.store, StoreBatch(cfg, ps, user));
    case ForeignFetch(user) => DelRouted(cfg, s.store, ListKey(cfg, user));
    case ForeignPublish(channel, payload) => PublishRouted(cfg, s.store, channel, payload);
    case _ =>
  }

  lemma DelRouted(cfg: Config, r: Store, key: string)
    requires StoreRouted(cfg, r)
    ensures StoreRouted(cfg, Exec(r, Del(key)))
  {
    hide KeyRouted;
  }

  lemma PublishRouted(cfg: Config, r: Store, channel: string, payload: Payload)
    requires StoreRouted(cfg, r)
    ensures StoreRouted(cfg, Exec(r, Publish(channel, payload)))
  {
    hide KeyRouted;
  }

  /** One event keeps every message on its way if and only if it is not a login that misroutes. */
  lemma NextRouted(cfg: Config, s: System, e: Event)
    requires ConfigOk(cfg) && SystemOk(cfg, s) && Routed(cfg, s) && Enabled(s, e)
    ensures Routed(cfg, Next(cfg, s, e)) <==> !Misroutes(cfg, s, e)
  {
    hide SystemOk, StoreRouted, SessionsRouted, BatchRouted, Next, EventSends, Misroutes;
    NextStoreRouted(cfg, s, e);
    NextSessionsRouted(cfg, s, e);
    EventSendsRouted(cfg, s, e);
    NextSends(cfg, s, e);
  }

  lemma {:induction false} RunRouted(cfg: Config, ss: seq<System>, es: seq<Event>, k: nat)
    requires ConfigOk(cfg) && IsRun(cfg, ss, es) && k < |ss|
    requires forall j :: 0 <= j < |es| ==> !Misroutes(cfg, ss[j], es[j])
    ensures Routed(cfg, ss[k])
  {
    hide Routed, SystemOk, Next, Enabled, Misroutes;
    if k == 0 {
      InitRouted(cfg);
    } else {
      RunRouted(cfg, ss, es, k - 1);
      RunOk(cfg, ss, es, k - 1);
      NextRouted(cfg, ss[k - 1], es[k - 1]);
    }
  }

  lemma InitRouted(cfg: Config)
    ensures Routed(cfg, Init(cfg))
  {
  }
}
