/** The messages of a user who has left are fetched and stored again finitely often: the fear of
    doc/todo.txt, an endless loop of notification, fetch and store, is unfounded, because the
    subscription is given up before anything is stored again. */
module Departed {
  import opened Prelude
  import opened Crypto
  import opened Messages
  import opened Sessions
  import opened Redis
  import opened Nodes
  import opened NodeInvariant
  import opened Systems
  import opened Wire
  import opened Effects
  import opened Safety
  import opened Outgoing
  import opened Subscriptions

  /** The notification that messages have been stored for `u`. */
  function Notice(cfg: Config, u: string): Reply {
    Push(NotifyChannel(cfg, u), Keyspace("rpush"))
  }

  /** The push commands for `u` that Redis will execute while the node is subscribed. */
  function Live(cfg: Config, subs: set<string>, b: Batch, u: string): nat
    decreases |b|
  {
    if b == [] then 0
    else
      (if b[0].RPush? && b[0].key == ListKey(cfg, u) && NotifyChannel(cfg, u) in subs then 1 else 0)
      + Live(cfg, SubsAfterCmd(subs, b[0]), b[1..], u)
  }

  function LiveAll(cfg: Config, subs: set<string>, cmds: seq<Batch>, u: string): nat
    decreases |cmds|
  {
    if cmds == [] then 0
    else Live(cfg, subs, cmds[0], u) + LiveAll(cfg, SubsAfterBatch(subs, cmds[0]), cmds[1..], u)
  }

  /** How often the messages of `u` can still be fetched: requests that have been made, notifications
      that will cause one, and pushes that will cause a notification. */
  function Budget(cfg: Config, s: System, u: string): nat {
    Asked(cfg, s.node.fifo, u) + multiset(s.store.inbox)[Notice(cfg, u)] + LiveAll(cfg, s.store.subs, s.node.cmds, u)
  }

  /** The tags under which the messages of `u` are fetched: the user id after a login, and what on_push
      queues after a notification. */
  predicate Concerns(cfg: Config, tag: string, u: string) {
    tag == u || tag == PushedValue(cfg, u)
  }

  /** The fetches of the messages of `u` that have not been handled. */
  function Asked(cfg: Config, fifo: seq<string>, u: string): nat {
    multiset(fifo)[u] + if cfg.pushed.QueuesListKey? then multiset(fifo)[ListKey(cfg, u)] else 0
  }

  lemma AskedSnoc(cfg: Config, fifo: seq<string>, tag: string, u: string)
    requires ConfigOk(cfg)
    ensures Asked(cfg, fifo + [tag], u) == Asked(cfg, fifo, u) + if Concerns(cfg, tag, u) then 1 else 0
    ensures Asked(cfg, [tag] + fifo, u) == Asked(cfg, fifo, u) + if Concerns(cfg, tag, u) then 1 else 0
  {
    assert |ListKey(cfg, u)| > |u|;
  }

  lemma {:induction false} LiveAllConcat(cfg: Config, subs: set<string>, a: seq<Batch>, b: seq<Batch>, u: string)
    ensures LiveAll(cfg, subs, a + b, u) == LiveAll(cfg, subs, a, u) + LiveAll(cfg, SubsAfter(subs, a), b, u)
    decreases |a|
  {
    if a == [] {
      assert a + b == b;
    } else {
      assert (a + b)[1..] == a[1..] + b;
      LiveAllConcat(cfg, SubsAfterBatch(subs, a[0]), a[1..], b, u);
    }
  }

  lemma {:induction false} DeadBatch(cfg: Config, subs: set<string>, b: Batch, u: string)
    requires NotifyChannel(cfg, u) !in subs && Subscribe(NotifyChannel(cfg, u)) !in b
    ensures Live(cfg, subs, b, u) == 0 && NotifyChannel(cfg, u) !in SubsAfterBatch(subs, b)
    decreases |b|
  {
    if b != [] {
      DeadBatch(cfg, SubsAfterCmd(subs, b[0]), b[1..], u);
    }
  }

  lemma {:induction false} DeadBatches(cfg: Config, subs: set<string>, cmds: seq<Batch>, u: string)
    requires NotifyChannel(cfg, u) !in subs && forall b :: b in cmds ==> Subscribe(NotifyChannel(cfg, u)) !in b
    ensures LiveAll(cfg, subs, cmds, u) == 0
    decreases |cmds|
  {
    if cmds != [] {
      DeadBatch(cfg, subs, cmds[0], u);
      DeadBatches(cfg, SubsAfterBatch(subs, cmds[0]), cmds[1..], u);
    }
  }

  lemma OtherKey(cfg: Config, key: string, u: string)
    requires KEYSPACE + key == NotifyChannel(cfg, u)
    ensures key == ListKey(cfg, u)
  {
    NotifyChannelOfKey(cfg, u);
    PrefixInjective(KEYSPACE, key, ListKey(cfg, u));
  }

  /** Redis turns live pushes into notifications, one for one. */
  lemma ExecNotices(cfg: Config, r: Store, c: Cmd, u: string)
    requires CmdOk(cfg, c)
    ensures multiset(Exec(r, c).inbox)[Notice(cfg, u)] == multiset(r.inbox)[Notice(cfg, u)]
      + (if c.RPush? && c.key == ListKey(cfg, u) && NotifyChannel(cfg, u) in r.subs then 1 else 0)
    ensures Exec(r, c).subs == SubsAfterCmd(r.subs, c)
  {
    hide IsNotifyChannel, IsPresenceChannel, IsUserKey, NotifyPrefix, NotifyChannel, ListKey, Notify;
    NotifyChannelOfKey(cfg, u);
    match c
    case Del(key) => NotifyNotices(cfg, r.(lists := r.lists - {key}), KEYSPACE + key, Keyspace("del"), u);
    case RPush(key, ps) =>
      NotifyNotices(cfg, r.(lists := r.lists[key := ListAt(r.lists, key) + ps]), KEYSPACE + key, Keyspace("rpush"), u);
      if KEYSPACE + key == NotifyChannel(cfg, u) { OtherKey(cfg, key, u); }
    case Expire(key) => NotifyNotices(cfg, r, KEYSPACE + key, Keyspace("expire"), u);
    case Publish(ch, payload) => NotifyNotices(cfg, r, ch, payload, u);
    case _ =>
  }

  lemma NotifyNotices(cfg: Config, r: Store, ch: string, payload: Payload, u: string)
    ensures multiset(Notify(r, ch, payload).inbox)[Notice(cfg, u)] == multiset(r.inbox)[Notice(cfg, u)]
      + (if ch in r.subs && ch == NotifyChannel(cfg, u) && payload == Keyspace("rpush") then 1 else 0)
  {
  }

  lemma {:induction false} ExecBatchNotices(cfg: Config, r: Store, b: Batch, u: string)
    requires forall c :: c in b ==> CmdOk(cfg, c)
    ensures multiset(ExecBatch(r, b).inbox)[Notice(cfg, u)]
      == multiset(r.inbox)[Notice(cfg, u)] + Live(cfg, r.subs, b, u)
    decreases |b|
  {
    hide CmdOk, Exec;
    if b != [] {
      ExecNotices(cfg, r, b[0], u);
      ExecBatchNotices(cfg, Exec(r, b[0]), b[1..], u);
    }
  }

  /** Another node stores messages for `u` while this node is still subscribed. */
  predicate Disturbs(cfg: Config, s: System, e: Event, u: string) {
    e.ForeignStore? && e.user == u && NotifyChannel(cfg, u) in s.store.subs
  }

  /** The node handles a fetch of the messages of `u`; when `u` is gone it stores them again. */
  predicate HandlesFetch(cfg: Config, s: System, e: Event, u: string) {
    e.RedisReplies? && s.store.inbox != [] && s.store.inbox[0].LRangeReply? && Concerns(cfg, s.store.inbox[0].tag, u)
  }

  /** No batch subscribes to `u`, except when `u` logs in. */
  lemma SendsNoSubscribe(cfg: Config, s: System, e: Event, u: string)
    requires SystemOk(cfg, s) && Enabled(s, e) && !Subscribes(cfg, s, e, u)
    ensures forall b :: b in EventSends(cfg, s, e) ==> Subscribe(NotifyChannel(cfg, u)) !in b
  {
    hide SystemOk, MakeHexDigest;
    if e.AppRead? {
      var v := LoginUser(cfg, s.node, e.i, e.m);
      if v.Some? && v.value != u {
        ChannelsInjective(cfg, u, v.value);
        ChannelsDiffer(cfg, u, v.value);
      }
    }
  }

  /** One event, for a user who is not logged in before or after it. */
  lemma NextBudget(cfg: Config, s: System, e: Event, u: string)
    requires ConfigOk(cfg) && SystemOk(cfg, s) && Enabled(s, e) && IsDigest(u)
    requires Agrees(cfg, s, u) && u !in s.node.index && u !in Next(cfg, s, e).node.index
    ensures Budget(cfg, Next(cfg, s, e), u) + (if HandlesFetch(cfg, s, e, u) then 1 else 0)
      <= Budget(cfg, s, u) + (if Disturbs(cfg, s, e, u) then 1 else 0)
  {
    hide SystemOk, Next, EventSends, Live, LiveAll, SubsAfter, IsDigest, Enabled, Asked, Concerns;
    NextLive(cfg, s, e, u);
    NextFifo(cfg, s, e, u);
  }

  /** Pushes and notifications. */
  lemma NextLive(cfg: Config, s: System, e: Event, u: string)
    requires ConfigOk(cfg) && SystemOk(cfg, s) && Enabled(s, e) && IsDigest(u)
    requires Agrees(cfg, s, u) && u !in s.node.index && u !in Next(cfg, s, e).node.index
    ensures var s1 := Next(cfg, s, e);
      multiset(s1.store.inbox)[Notice(cfg, u)] + LiveAll(cfg, s1.store.subs, s1.node.cmds, u)
        + (if e.RedisReplies? && s.store.inbox[0] == Notice(cfg, u) then 1 else 0)
      == multiset(s.store.inbox)[Notice(cfg, u)] + LiveAll(cfg, s.store.subs, s.node.cmds, u)
        + (if Disturbs(cfg, s, e, u) then 1 else 0)
  {
    hide SystemOk, EventSends, Live, SubsAfter, IsDigest, Watched, Followed, Exec, ExecBatch, StoreBatch, LoginUser,
      OnRead, OnReadError, OnWritten, OnRun, ShutdownAll, OnReply;
    var s1 := Next(cfg, s, e);
    NextIndex(cfg, s, e, u);
    NextSends(cfg, s, e);
    NextStoreSubs(cfg, s, e);
    NextStoreNotices(cfg, s, e, u);
    var more := EventSends(cfg, s, e);
    SendsNoSubscribe(cfg, s, e, u);
    RemainingUnwatched(cfg, s, e, u);
    DeadBatches(cfg, SubsAfter(s1.store.subs, Remaining(s, e)), more, u);
    LiveAllConcat(cfg, s1.store.subs, Remaining(s, e), more, u);
  }

  lemma RemainingUnwatched(cfg: Config, s: System, e: Event, u: string)
    requires Enabled(s, e) && Agrees(cfg, s, u) && u !in s.node.index
    ensures NotifyChannel(cfg, u) !in SubsAfter(Next(cfg, s, e).store.subs, Remaining(s, e))
  {
    hide OnRead, OnReadError, OnWritten, OnRun, ShutdownAll, OnReply, ExecBatch, SubsAfterBatch, Next;
    NextStoreSubs(cfg, s, e);
  }

  /** The notifications Redis sends, and the one the node takes. */
  lemma NextStoreNotices(cfg: Config, s: System, e: Event, u: string)
    requires SystemOk(cfg, s) && Enabled(s, e)
    ensures multiset(Next(cfg, s, e).store.inbox)[Notice(cfg, u)]
        + (if e.RedisReplies? && s.store.inbox[0] == Notice(cfg, u) then 1 else 0)
      == multiset(s.store.inbox)[Notice(cfg, u)]
        + (if e.RedisExecutes? then Live(cfg, s.store.subs, s.node.cmds[0], u) else 0)
        + (if Disturbs(cfg, s, e, u) then 1 else 0)
  {
    hide NodeOk, StoreOk, Correlated, Live, ExecBatch, StoreBatch, CmdOk, Paired, FetchesWhatItWatches,
      OnRead, OnReadError, OnWritten, OnRun, ShutdownAll, OnReply;
    match e
    case RedisExecutes =>
      assert BatchOk(cfg, s.node.cmds[0]);
      ExecBatchNotices(cfg, s.store, s.node.cmds[0], u);
    case RedisReplies => assert s.store.inbox == [s.store.inbox[0]] + s.store.inbox[1..];
    case ForeignStore(user, msgs) =>
      var ps := ParcelsFor(user, msgs);
      StoreBatchOk(cfg, ps, user);
      ExecBatchNotices(cfg, s.store, StoreBatch(cfg, ps, user), u);
      StoreBatchLive(cfg, s.store.subs, ps, user, u);
    case ForeignFetch(user) => DelNotices(cfg, s.store, ListKey(cfg, user), u);
    case ForeignPublish(channel, payload) => NotifyNotices(cfg, s.store, channel, payload, u);
    case _ =>
  }

  lemma DelNotices(cfg: Config, r: Store, key: string, u: string)
    ensures multiset(Exec(r, Del(key)).inbox)[Notice(cfg, u)] == multiset(r.inbox)[Notice(cfg, u)]
  {
  }

  lemma StoreBatchLive(cfg: Config, subs: set<string>, ps: seq<Parcel>, user: string, u: string)
    requires ps != []
    ensures Live(cfg, subs, StoreBatch(cfg, ps, user), u) == if user == u && NotifyChannel(cfg, u) in subs then 1 else 0
  {
    var b := StoreBatch(cfg, ps, user);
    if user != u && ListKey(cfg, user) == ListKey(cfg, u) { PrefixInjective(cfg.chatPrefix, user, u); }
    assert b[1..][1..] == b[2..] && b[2..][1..] == b[3..] && b[3..][1..] == [];
    assert Live(cfg, subs, b[3..], u) == 0;
    assert Live(cfg, subs, b[2..], u) == 0;
    assert Live(cfg, subs, b[1..], u) == if user == u && NotifyChannel(cfg, u) in subs then 1 else 0;
  }

  /** Requests: a notification about `u` may become one; handling a fetch of `u` uses one up. */
  lemma NextFifo(cfg: Config, s: System, e: Event, u: string)
    requires ConfigOk(cfg) && SystemOk(cfg, s) && Enabled(s, e) && IsDigest(u)
    requires u !in s.node.index && u !in Next(cfg, s, e).node.index
    ensures Asked(cfg, Next(cfg, s, e).node.fifo, u) + (if HandlesFetch(cfg, s, e, u) then 1 else 0)
      <= Asked(cfg, s.node.fifo, u) + (if e.RedisReplies? && s.store.inbox[0] == Notice(cfg, u) then 1 else 0)
  {
    hide NodeOk, StoreOk, Correlated, QueueOk, OnRead, OnReadError, ExecBatch, StoreBatch, IsDigest, LoginUser, FetchBatch, SendAll,
      Asked, Concerns;
    var n := s.node;
    NextIndex(cfg, s, e, u);
    match e
    case AppRead(i, m) =>
      ReadIsOpen(cfg, s, i);
      ReadSummary(cfg, n, i, m, i);
      var v := LoginUser(cfg, n, i, m);
      assert n.fifo + [] == n.fifo;
      if v.Some? {
        assert v.value != u;
        AskedSnoc(cfg, n.fifo, v.value, u);
        DigestConcerns(cfg, v.value, u);
      }
    case ReadFailed(i) => FinishFifo(cfg, s, i);
    case RedisReplies => ReplyFifo(cfg, s, u);
    case _ =>
  }

  /** A user id is no tag of another user, because a key contains a colon. */
  lemma DigestConcerns(cfg: Config, v: string, u: string)
    requires ConfigOk(cfg) && IsDigest(v)
    ensures Concerns(cfg, v, u) ==> v == u
  {
    PrefixedIsNoDigest(cfg.chatPrefix, u);
  }

  lemma FinishFifo(cfg: Config, s: System, i: nat)
    requires SystemOk(cfg, s) && Enabled(s, ReadFailed(i))
    ensures OnReadError(cfg, s.node, i).fifo == s.node.fifo
  {
    assert SessionOk(s.node.sessions[i]);
    OnReadErrorSends(cfg, s.node, i);
  }

  lemma ReplyFifo(cfg: Config, s: System, u: string)
    requires ConfigOk(cfg) && SystemOk(cfg, s) && Enabled(s, RedisReplies) && IsDigest(u)
    ensures Asked(cfg, Next(cfg, s, RedisReplies).node.fifo, u) + (if HandlesFetch(cfg, s, RedisReplies, u) then 1 else 0)
      <= Asked(cfg, s.node.fifo, u) + (if s.store.inbox[0] == Notice(cfg, u) then 1 else 0)
  {
    hide SystemOk, IsDigest, OnDbPresence, OnDbChatMsg, OnPush, OnLRange, Asked, Concerns;
    match s.store.inbox[0]
    case LRangeReply(tag, _, ps) =>
      FetchFifo(cfg, s);
      AskedSnoc(cfg, Next(cfg, s, RedisReplies).node.fifo, tag, u);
    case Push(channel, payload) => PushFifo(cfg, s, u);
    case Confirm(_) =>
  }

  lemma FetchFifo(cfg: Config, s: System)
    requires SystemOk(cfg, s) && Enabled(s, RedisReplies) && s.store.inbox[0].LRangeReply?
    ensures s.node.fifo == [s.store.inbox[0].tag] + Next(cfg, s, RedisReplies).node.fifo
  {
    hide SystemOk, OnDbChatMsg;
    FetchReplyOk(cfg, s);
    OnDbChatMsgFifo(cfg, s.node, s.node.fifo[0], s.store.inbox[0].parcels);
  }

  lemma PushFifo(cfg: Config, s: System, u: string)
    requires ConfigOk(cfg) && SystemOk(cfg, s) && Enabled(s, RedisReplies) && s.store.inbox[0].Push? && IsDigest(u)
    ensures Asked(cfg, Next(cfg, s, RedisReplies).node.fifo, u)
      <= Asked(cfg, s.node.fifo, u) + (if s.store.inbox[0] == Notice(cfg, u) then 1 else 0)
  {
    hide NodeOk, Correlated, QueueOk, IsDigest, OnDbPresence, IsPresenceChannel, FetchBatch, Asked, Concerns;
    var x := s.store.inbox[0];
    if x.payload == Keyspace("rpush") {
      assert ReplyOk(cfg, x);
      NoticeFifo(cfg, x.channel, u);
      AskedSnoc(cfg, s.node.fifo, PushedValue(cfg, x.channel[|NotifyPrefix(cfg)|..]), u);
    } else if PRESENCE <= x.channel {
      PresenceFifo(s.node, x.channel, x.payload);
    }
  }

  lemma PresenceFifo(n: Node, channel: string, payload: Payload)
    requires InRange(n) && PRESENCE <= channel
    ensures OnDbPresence(n, Rest(PRESENCE, channel), payload).fifo == n.fifo
  {
  }

  /** Only a notification about `u` itself makes on_push ask for the messages of `u`, whatever it queues. */
  lemma NoticeFifo(cfg: Config, channel: string, u: string)
    requires ConfigOk(cfg) && IsNotifyChannel(cfg, channel) && IsDigest(u)
    ensures Concerns(cfg, PushedValue(cfg, channel[|NotifyPrefix(cfg)|..]), u) ==>
              Push(channel, Keyspace("rpush")) == Notice(cfg, u)
  {
    var v := channel[|NotifyPrefix(cfg)|..];
    Reprefix(NotifyPrefix(cfg), channel);
    PrefixedIsNoDigest(cfg.chatPrefix, v);
    if ListKey(cfg, v) == ListKey(cfg, u) { PrefixInjective(cfg.chatPrefix, v, u); }
  }

  // Runs ---------------------------------------------------------------------------------------

  function FetchesHandled(cfg: Config, ss: seq<System>, es: seq<Event>, j: nat, k: nat, u: string): nat
    requires j <= k <= |es| && |ss| == |es| + 1
    decreases k - j
  {
    if j == k then 0 else FetchesHandled(cfg, ss, es, j, k - 1, u) + (if HandlesFetch(cfg, ss[k - 1], es[k - 1], u) then 1 else 0)
  }

  function Disturbances(cfg: Config, ss: seq<System>, es: seq<Event>, j: nat, k: nat, u: string): nat
    requires j <= k <= |es| && |ss| == |es| + 1
    decreases k - j
  {
    if j == k then 0 else Disturbances(cfg, ss, es, j, k - 1, u) + (if Disturbs(cfg, ss[k - 1], es[k - 1], u) then 1 else 0)
  }

  /** While a user stays away, the node handles fetches of the user's messages, of the login and of
      notifications alike and whatever on_push queues, at most as often as was already
      decided when the user left, plus once for each time another node stores messages before Redis
      has executed the end of the subscription. */
  lemma {:induction false} FinitelyManyFetches(cfg: Config, ss: seq<System>, es: seq<Event>, j: nat, k: nat, u: string)
    requires ConfigOk(cfg) && IsRun(cfg, ss, es) && j <= k <= |es| && IsDigest(u)
    requires forall i :: j <= i <= k ==> u !in ss[i].node.index
    ensures FetchesHandled(cfg, ss, es, j, k, u) + Budget(cfg, ss[k], u)
      <= Budget(cfg, ss[j], u) + Disturbances(cfg, ss, es, j, k, u)
    decreases k - j
  {
    hide Budget, IsDigest, Next, Enabled, SystemOk, HandlesFetch, Disturbs;
    if j < k {
      FinitelyManyFetches(cfg, ss, es, j, k - 1, u);
      RunOk(cfg, ss, es, k - 1);
      RunAgrees(cfg, ss, es, k - 1, u);
      assert u !in ss[k - 1].node.index && u !in ss[k].node.index;
      NextBudget(cfg, ss[k - 1], es[k - 1], u);
    }
  }
}
