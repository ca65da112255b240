/** The conversation between a node and Redis comes to an end: left to themselves, they run out of commands
    and replies after a bounded number of steps, whatever on_push queues. This makes Delivery.HandedOver a
    guarantee of delivery. */
module Settling {
  import opened Crypto
  import opened Messages
  import opened Sessions
  import opened Redis
  import opened Nodes
  import opened NodeInvariant
  import opened Systems
  import opened Wire
  import opened Safety
  import opened Outgoing
  import opened Subscriptions
  import opened Conservation
  import opened Routing
  import opened Ownership
  import opened Delivery

  predicate IsRedis(e: Event) {
    e.RedisExecutes? || e.RedisReplies?
  }

  // Work ---------------------------------------------------------------------------------------

  /** Handling a reply can cause a batch that weighs less: a fetch after the notification of a push, a
      store after a fetch whose user is gone. */
  function ReplyWeight(x: Reply): nat {
    match x
    case LRangeReply(_, _, _) => 6
    case Push(_, payload) => if payload == Keyspace("rpush") then 9 else 1
    case Confirm(_) => 1
  }

  /** A command weighs as much as the reply it causes; a push is heavy only while the node listens. */
  function CmdWeight(subs: set<string>, c: Cmd): nat {
    match c
    case LRange(_, _) => 6
    case RPush(key, _) => if KEYSPACE + key in subs then 9 else 1
    case _ => 1
  }

  function BatchWeight(subs: set<string>, b: Batch): nat
    decreases |b|
  {
    if b == [] then 0 else CmdWeight(subs, b[0]) + BatchWeight(SubsAfterCmd(subs, b[0]), b[1..])
  }

  function QueueWeight(subs: set<string>, cmds: seq<Batch>): nat
    decreases |cmds|
  {
    if cmds == [] then 0 else 1 + BatchWeight(subs, cmds[0]) + QueueWeight(SubsAfterBatch(subs, cmds[0]), cmds[1..])
  }

  function InboxWeight(inbox: seq<Reply>): nat {
    if inbox == [] then 0 else ReplyWeight(inbox[0]) + InboxWeight(inbox[1..])
  }

  function Work(s: System): nat {
    QueueWeight(s.store.subs, s.node.cmds) + InboxWeight(s.store.inbox)
  }

  lemma {:induction false} InboxSnoc(inbox: seq<Reply>, x: Reply)
    ensures InboxWeight(inbox + [x]) == InboxWeight(inbox) + ReplyWeight(x)
  {
    if inbox == [] {
      assert inbox + [x] == [x] && [x][1..] == [];
    } else {
      assert (inbox + [x])[1..] == inbox[1..] + [x];
      InboxSnoc(inbox[1..], x);
    }
  }

  lemma {:induction false} QueueConcat(subs: set<string>, a: seq<Batch>, b: seq<Batch>)
    ensures QueueWeight(subs, a + b) == QueueWeight(subs, a) + QueueWeight(SubsAfter(subs, a), b)
    decreases |a|
  {
    hide BatchWeight, SubsAfterBatch;
    if a == [] {
      assert a + b == b;
    } else {
      assert (a + b)[1..] == a[1..] + b && (a + b)[0] == a[0];
      QueueConcat(SubsAfterBatch(subs, a[0]), a[1..], b);
    }
  }

  lemma NotifyWeight(r: Store, ch: string, payload: Payload)
    ensures InboxWeight(Notify(r, ch, payload).inbox)
         == InboxWeight(r.inbox) + if ch in r.subs then ReplyWeight(Push(ch, payload)) else 0
  {
    InboxSnoc(r.inbox, Push(ch, payload));
  }

  lemma ExecWeight(cfg: Config, r: Store, c: Cmd)
    requires CmdOk(cfg, c)
    ensures InboxWeight(Exec(r, c).inbox) <= InboxWeight(r.inbox) + CmdWeight(r.subs, c)
    ensures Exec(r, c).subs == SubsAfterCmd(r.subs, c)
  {
    hide InboxWeight, Notify, IsNotifyChannel, IsPresenceChannel, IsUserKey;
    match c
    case Subscribe(ch) => InboxSnoc(r.inbox, Confirm(ch));
    case Unsubscribe(ch) => InboxSnoc(r.inbox, Confirm(ch));
    case LRange(key, tag) => InboxSnoc(r.inbox, LRangeReply(tag, key, ListAt(r.lists, key)));
    case Del(key) => NotifyWeight(r.(lists := r.lists - {key}), KEYSPACE + key, Keyspace("del"));
    case RPush(key, ps) =>
      NotifyWeight(r.(lists := r.lists[key := ListAt(r.lists, key) + ps]), KEYSPACE + key, Keyspace("rpush"));
    case Expire(key) => NotifyWeight(r, KEYSPACE + key, Keyspace("expire"));
    case Publish(ch, payload) => NotifyWeight(r, ch, payload);
    case _ =>
  }

  lemma {:induction false} ExecBatchWeight(cfg: Config, r: Store, b: Batch)
    requires forall c :: c in b ==> CmdOk(cfg, c)
    ensures InboxWeight(ExecBatch(r, b).inbox) <= InboxWeight(r.inbox) + BatchWeight(r.subs, b)
    decreases |b|
  {
    hide CmdOk, Exec, InboxWeight, CmdWeight;
    if b != [] {
      ExecWeight(cfg, r, b[0]);
      ExecBatchWeight(cfg, Exec(r, b[0]), b[1..]);
    }
  }

  lemma ExecutesWork(cfg: Config, s: System)
    requires SystemOk(cfg, s) && Enabled(s, RedisExecutes)
    ensures Work(Next(cfg, s, RedisExecutes)) < Work(s)
  {
    hide NodeOk, StoreOk, Correlated, CmdOk, Paired, FetchesWhatItWatches, ExecBatch, BatchWeight, SubsAfterBatch, InboxWeight;
    assert BatchOk(cfg, s.node.cmds[0]);
    ExecBatchWeight(cfg, s.store, s.node.cmds[0]);
    ExecBatchSubs(s.store, s.node.cmds[0]);
  }

  lemma FetchWeight(cfg: Config, subs: set<string>, user: string, tag: string)
    ensures QueueWeight(subs, [FetchBatch(cfg, user, tag)]) == 8
  {
    var b := FetchBatch(cfg, user, tag);
    var one: seq<Batch> := [b];
    assert b[1..][1..] == [] && one[1..] == [];
    assert BatchWeight(subs, b[1..]) == 1;
  }

  /** Storing messages for a user to whom the node does not listen. */
  lemma StoreWeight(cfg: Config, subs: set<string>, ps: seq<Parcel>, to: string)
    requires ps != [] && NotifyChannel(cfg, to) !in subs
    ensures QueueWeight(subs, [StoreBatch(cfg, ps, to)]) == 5
  {
    var b := StoreBatch(cfg, ps, to);
    NotifyChannelOfKey(cfg, to);
    var one: seq<Batch> := [b];
    assert b[1..][1..] == b[2..] && b[2..][1..] == b[3..] && b[3..][1..] == [] && one[1..] == [];
    assert BatchWeight(subs, b[3..]) == 1;
    assert BatchWeight(subs, b[2..]) == 2;
    assert BatchWeight(subs, b[1..]) == 3;
  }

  /** What the node sends because of a reply weighs less than the reply. The node no longer listens to a
      user who is gone, so that storing the messages again causes no notification. */
  lemma ReplySendsLess(cfg: Config, s: System)
    requires SystemOk(cfg, s) && Enabled(s, RedisReplies)
    requires s.store.inbox[0].LRangeReply? ==> Agrees(cfg, s, s.store.inbox[0].tag)
    ensures QueueWeight(SubsAfter(s.store.subs, s.node.cmds), ReplySends(cfg, s.node, s.store.inbox[0]))
          < ReplyWeight(s.store.inbox[0])
  {
    hide SystemOk, QueueWeight, SubsAfter, StoreBatch, FetchBatch;
    var subs, x := SubsAfter(s.store.subs, s.node.cmds), s.store.inbox[0];
    NoWeight(subs);
    match x
    case LRangeReply(tag, _, ps) =>
      FetchReplyOk(cfg, s);
      if tag !in s.node.index && ps != [] { StoreWeight(cfg, subs, ps, tag); }
    case Push(channel, payload) =>
      var pos := |NotifyPrefix(cfg)|;
      if payload == Keyspace("rpush") && pos < |channel| {
        FetchWeight(cfg, subs, channel[pos..], PushedValue(cfg, channel[pos..]));
      }
    case Confirm(_) =>
  }

  lemma NoWeight(subs: set<string>)
    ensures QueueWeight(subs, []) == 0
  {
  }

  lemma RepliesWork(cfg: Config, s: System)
    requires SystemOk(cfg, s) && Enabled(s, RedisReplies)
    requires s.store.inbox[0].LRangeReply? ==> Agrees(cfg, s, s.store.inbox[0].tag)
    ensures Work(Next(cfg, s, RedisReplies)) < Work(s)
  {
    hide SystemOk, QueueWeight, SubsAfter, OnReply, ReplySends, ReplyWeight;
    NextSends(cfg, s, RedisReplies);
    ReplySendsLess(cfg, s);
    QueueConcat(s.store.subs, s.node.cmds, ReplySends(cfg, s.node, s.store.inbox[0]));
  }

  // Runs ---------------------------------------------------------------------------------------

  /** From any state of any run, at most as many steps of Redis and of its replies can follow one another as
      there is work. */
  lemma {:induction false} Settles(cfg: Config, ss: seq<System>, es: seq<Event>, j: nat, k: nat)
    requires ConfigOk(cfg) && IsRun(cfg, ss, es) && j <= k <= |es|
    requires forall i :: j <= i < k ==> IsRedis(es[i])
    ensures k - j + Work(ss[k]) <= Work(ss[j])
    decreases k - j
  {
    hide SystemOk, Next, Enabled, Work, Agrees;
    if j < k {
      Settles(cfg, ss, es, j, k - 1);
      RunOk(cfg, ss, es, k - 1);
      var s := ss[k - 1];
      assert Enabled(s, es[k - 1]) && ss[k] == Next(cfg, s, es[k - 1]);
      if es[k - 1].RedisExecutes? {
        ExecutesWork(cfg, s);
      } else {
        InboxNotEmpty(s);
        if s.store.inbox[0].LRangeReply? { RunAgrees(cfg, ss, es, k - 1, s.store.inbox[0].tag); }
        RepliesWork(cfg, s);
      }
    }
  }

  lemma InboxNotEmpty(s: System)
    requires Enabled(s, RedisReplies)
    ensures s.store.inbox != []
  {
  }

  /** These steps leave users, their sessions and their closing as they are. */
  lemma RedisKeeps(cfg: Config, s: System, e: Event)
    requires SystemOk(cfg, s) && Enabled(s, e) && IsRedis(e)
    ensures var n, n1 := s.node, Next(cfg, s, e).node;
      && n1.index == n.index && |n1.sessions| == |n.sessions|
      && forall i :: 0 <= i < |n.sessions| ==> n1.sessions[i].closing == n.sessions[i].closing
  {
    hide SystemOk, ExecBatch, StoreBatch, FetchBatch, Send;
    if e.RedisReplies? {
      var n, x := s.node, s.store.inbox[0];
      OnReplyIndex(cfg, n, x);
      if n.fifo != [] && n.fifo[0] in n.index && x.LRangeReply? {
        SendAllClosing(n.sessions[n.index[n.fifo[0]]], x.parcels);
      }
      ReplyCloses(cfg, n, x);
    }
  }

  lemma ReplyCloses(cfg: Config, n: Node, x: Reply)
    requires InRange(n)
    ensures |OnReply(cfg, n, x).sessions| == |n.sessions|
    ensures forall i :: 0 <= i < |n.sessions| ==> OnReply(cfg, n, x).sessions[i].closing == n.sessions[i].closing
  {
    hide StoreBatch, FetchBatch;
    if n.fifo != [] && n.fifo[0] in n.index && x.LRangeReply? {
      SendAllClosing(n.sessions[n.index[n.fifo[0]]], x.parcels);
    }
  }

  lemma {:induction false} RunKeeps(cfg: Config, ss: seq<System>, es: seq<Event>, j: nat, k: nat)
    requires ConfigOk(cfg) && IsRun(cfg, ss, es) && j <= k <= |es|
    requires forall i :: j <= i < k ==> IsRedis(es[i])
    ensures var n, n1 := ss[j].node, ss[k].node;
      && n1.index == n.index && |n1.sessions| == |n.sessions|
      && forall i :: 0 <= i < |n.sessions| ==> n1.sessions[i].closing == n.sessions[i].closing
    decreases k - j
  {
    hide SystemOk, Next, Enabled;
    if j < k {
      RunKeeps(cfg, ss, es, j, k - 1);
      RunOk(cfg, ss, es, k - 1);
      assert Enabled(ss[k - 1], es[k - 1]) && ss[k] == Next(cfg, ss[k - 1], es[k - 1]);
      RedisKeeps(cfg, ss[k - 1], es[k - 1]);
    }
  }

  /** Redis executes commands until it is asked to quit. */
  ghost predicate StaysOpen(s: System) {
    s.store.open && forall b :: b in s.node.cmds ==> Quit !in b
  }

  lemma {:induction false} ExecBatchOpen(r: Store, b: Batch)
    requires r.open && Quit !in b
    ensures ExecBatch(r, b).open
    decreases |b|
  {
    if b != [] {
      ExecBatchOpen(Exec(r, b[0]), b[1..]);
    }
  }

  lemma NextOpen(cfg: Config, s: System, e: Event)
    requires SystemOk(cfg, s) && Enabled(s, e) && StaysOpen(s) && !e.Signal?
    ensures StaysOpen(Next(cfg, s, e))
  {
    hide SystemOk, OnRead, OnReadError, OnWritten, OnRun, ShutdownAll, OnReply, ExecBatch;
    NextSends(cfg, s, e);
    SendsNoQuit(cfg, s, e);
    hide EventSends;
    match e
    case RedisExecutes => ExecBatchOpen(s.store, s.node.cmds[0]);
    case ForeignStore(user, msgs) => ExecBatchOpen(s.store, StoreBatch(cfg, ParcelsFor(user, msgs), user));
    case _ =>
  }

  lemma SendsNoQuit(cfg: Config, s: System, e: Event)
    requires Enabled(s, e) && !e.Signal?
    ensures forall b :: b in EventSends(cfg, s, e) ==> Quit !in b
  {
    hide MakeHexDigest, LoginUser;
  }

  lemma {:induction false} RunOpen(cfg: Config, ss: seq<System>, es: seq<Event>, k: nat)
    requires ConfigOk(cfg) && IsRun(cfg, ss, es) && k < |ss|
    requires forall j :: 0 <= j < |es| ==> !es[j].Signal?
    ensures StaysOpen(ss[k])
  {
    if k > 0 {
      RunOpen(cfg, ss, es, k - 1);
      RunOk(cfg, ss, es, k - 1);
      hide SystemOk, Next, Enabled, StaysOpen;
      NextOpen(cfg, ss[k - 1], es[k - 1]);
    }
  }

  /** Neither Redis nor the node has anything left to do for the other. */
  predicate Settled(s: System) {
    s.node.cmds == [] && s.store.inbox == []
  }

  /** The run `tt`, `fs` continues the run `ss`, `es` by steps of Redis and of its replies only. */
  ghost predicate Continues(cfg: Config, ss: seq<System>, es: seq<Event>, tt: seq<System>, fs: seq<Event>) {
    && IsRun(cfg, tt, fs) && ss <= tt && es <= fs
    && forall i :: |es| <= i < |fs| ==> IsRedis(fs[i])
  }

  /** Every run without a shutdown can be continued until the conversation has settled; by Settles there is
      no way to continue it for ever. */
  lemma {:induction false} CanSettle(cfg: Config, ss: seq<System>, es: seq<Event>)
    requires ConfigOk(cfg) && IsRun(cfg, ss, es)
    requires forall j :: 0 <= j < |es| ==> !es[j].Signal?
    ensures exists tt, fs :: Continues(cfg, ss, es, tt, fs) && Settled(tt[|fs|])
    decreases Work(ss[|es|])
  {
    hide SystemOk, Next, Enabled, Work;
    var s := ss[|es|];
    if Settled(s) {
      assert Continues(cfg, ss, es, ss, es);
    } else {
      RunOk(cfg, ss, es, |es|);
      RunOpen(cfg, ss, es, |es|);
      var e := if s.node.cmds != [] then RedisExecutes else RedisReplies;
      assert Enabled(s, e) by { RedisEnabled(s); }
      ExtendRun(cfg, ss, es, e);
      var ss1, es1 := ss + [Next(cfg, s, e)], es + [e];
      Settles(cfg, ss1, es1, |es|, |es1|);
      CanSettle(cfg, ss1, es1);
      var tt, fs :| Continues(cfg, ss1, es1, tt, fs) && Settled(tt[|fs|]);
      StillContinues(cfg, ss, es, ss1, es1, tt, fs);
    }
  }

  lemma RedisEnabled(s: System)
    requires InRange(s.node) && s.store.open
    ensures s.node.cmds != [] ==> Enabled(s, RedisExecutes)
    ensures s.store.inbox != [] ==> Enabled(s, RedisReplies)
  {
  }

  lemma StillContinues(cfg: Config, ss: seq<System>, es: seq<Event>, ss1: seq<System>, es1: seq<Event>,
                       tt: seq<System>, fs: seq<Event>)
    requires ss <= ss1 && es <= es1 && |es1| == |es| + 1 && IsRedis(es1[|es|]) && Continues(cfg, ss1, es1, tt, fs)
    ensures Continues(cfg, ss, es, tt, fs)
  {
    hide IsRun;
    assert fs[|es|] == es1[|es|];
  }

  /** The guarantee of delivery: however a run without misrouting logins and shutdown continues, once nobody
      does anything but Redis and its replies, the conversation settles within the work there is, and then
      all messages for a user who was logged in have been handed over as HandedOver says. */
  lemma SettledHandsOver(cfg: Config, ss: seq<System>, es: seq<Event>, tt: seq<System>, fs: seq<Event>, p: Parcel)
    requires ConfigOk(cfg) && IsRun(cfg, ss, es) && Continues(cfg, ss, es, tt, fs)
    requires forall j :: 0 <= j < |es| ==> !es[j].Signal? && !Misroutes(cfg, ss[j], es[j])
    requires var n := ss[|es|].node;
      p.addr in n.index && n.index[p.addr] < |n.sessions| && !n.sessions[n.index[p.addr]].closing
    ensures |fs| - |es| <= Work(ss[|es|])
    ensures Settled(tt[|fs|]) <==> !Enabled(tt[|fs|], RedisExecutes) && !Enabled(tt[|fs|], RedisReplies)
    ensures var s := tt[|fs|];
      Settled(s) ==>
        multiset(s.node.accepted)[p]
        == multiset(ListAt(s.store.lists, RefetchKey(cfg, p.addr)))[p]
           + multiset(QueueOf(s.node, p.addr))[p]
           + Delivered(s.node)[p] + Discarded(s.node)[p] + multiset(s.taken)[p]
        && (cfg.pushed.QueuesUserId? ==> ListAt(s.store.lists, RefetchKey(cfg, p.addr)) == [])
    ensures WrittenToOwner(tt, |fs|, p)
  {
    hide Misroutes, SystemOk, Next, Enabled, Work, Delivered, Discarded, QueueOf, WrittenToOwner;
    var k, l := |es|, |fs|;
    Settles(cfg, tt, fs, k, l);
    RunKeeps(cfg, tt, fs, k, l);
    forall j | 0 <= j < l
      ensures !fs[j].Signal? && !Misroutes(cfg, tt[j], fs[j])
    {
      if j < k {
        assert tt[j] == ss[j] && fs[j] == es[j];
      } else {
        RedisDoesNotMisroute(cfg, tt[j], fs[j]);
      }
    }
    RunOpen(cfg, tt, fs, l);
    RunOk(cfg, tt, fs, l);
    assert tt[k] == ss[k];
    var i := ss[k].node.index[p.addr];
    assert tt[l].node.sessions[i].closing == ss[k].node.sessions[i].closing;
    RedisEnabled(tt[l]);
    AllWrittenToOwner(cfg, tt, fs, l, p);
    if Settled(tt[l]) {
      RedisDisabled(tt[l]);
      HandedOver(cfg, tt, fs, l, p);
    }
  }

  lemma RedisDoesNotMisroute(cfg: Config, s: System, e: Event)
    requires Enabled(s, e) && IsRedis(e)
    ensures !Misroutes(cfg, s, e)
  {
  }

  lemma RedisDisabled(s: System)
    requires Settled(s)
    ensures !Enabled(s, RedisExecutes) && !Enabled(s, RedisReplies)
  {
  }
}
