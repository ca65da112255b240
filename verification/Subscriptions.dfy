/** The node listens for exactly the users that are logged in, and misses none of their messages. */
module Subscriptions {
  import opened Prelude
  import opened Crypto
  import opened Messages
  import opened Sessions
  import opened Redis
  import opened Nodes
  import opened NodeInvariant
  import opened Systems
  import opened Wire
  import opened Effects
  import opened Safety
  import opened Outgoing

  // Subscriptions once Redis has executed what the node has sent ----------------------------------

  function SubsAfterCmd(subs: set<string>, c: Cmd): set<string> {
    match c
    case Subscribe(ch) => subs + {ch}
    case Unsubscribe(ch) => subs - {ch}
    case _ => subs
  }

  function SubsAfterBatch(subs: set<string>, b: Batch): set<string>
    decreases |b|
  {
    if b == [] then subs else SubsAfterBatch(SubsAfterCmd(subs, b[0]), b[1..])
  }

  function SubsAfter(subs: set<string>, cmds: seq<Batch>): set<string>
    decreases |cmds|
  {
    if cmds == [] then subs else SubsAfter(SubsAfterBatch(subs, cmds[0]), cmds[1..])
  }

  lemma {:induction false} SubsAfterConcat(subs: set<string>, a: seq<Batch>, b: seq<Batch>)
    ensures SubsAfter(subs, a + b) == SubsAfter(SubsAfter(subs, a), b)
    decreases |a|
  {
    if a == [] {
      assert a + b == b;
    } else {
      assert (a + b)[1..] == a[1..] + b;
      SubsAfterConcat(SubsAfterBatch(subs, a[0]), a[1..], b);
    }
  }

  /** Redis keeps exactly the subscriptions computed here. */
  lemma {:induction false} ExecBatchSubs(r: Store, b: Batch)
    ensures ExecBatch(r, b).subs == SubsAfterBatch(r.subs, b)
    decreases |b|
  {
    if b != [] {
      ExecBatchSubs(Exec(r, b[0]), b[1..]);
    }
  }

  lemma {:induction false} NoSubs(subs: set<string>, b: Batch)
    requires forall c :: c in b ==> !c.Subscribe? && !c.Unsubscribe?
    ensures SubsAfterBatch(subs, b) == subs
  {
    if b != [] {
      NoSubs(subs, b[1..]);
    }
  }

  /** The node will be notified of new messages for `u`. */
  predicate Watched(cfg: Config, s: System, u: string) {
    NotifyChannel(cfg, u) in SubsAfter(s.store.subs, s.node.cmds)
  }

  /** The node will receive the presence messages for `u`. */
  predicate Followed(s: System, u: string) {
    PresenceChannel(u) in SubsAfter(s.store.subs, s.node.cmds)
  }

  /** Whether the event logs `u` in and subscribes: a login whose token is neither a string nor empty
      enters the user into the map and then fails before it subscribes. */
  predicate Subscribes(cfg: Config, s: System, e: Event, u: string)
    requires Enabled(s, e)
  {
    e.AppRead? && LoginUser(cfg, s.node, e.i, e.m) == Some(u) && !e.m.token.MalformedToken?
  }

  predicate FailsToSubscribe(cfg: Config, s: System, e: Event, u: string)
    requires Enabled(s, e)
  {
    e.AppRead? && LoginUser(cfg, s.node, e.i, e.m) == Some(u) && e.m.token.MalformedToken?
  }

  /** Whether the event ends the session of `u`. */
  predicate Leaves(s: System, e: Event, u: string)
    requires Enabled(s, e)
  {
    u != "" && e.ReadFailed? && s.node.sessions[e.i].pubHash == u
  }

  lemma ChannelsInjective(cfg: Config, u: string, v: string)
    requires u != v
    ensures NotifyChannel(cfg, u) != NotifyChannel(cfg, v) && PresenceChannel(u) != PresenceChannel(v)
  {
    Unprefix(NotifyPrefix(cfg), u);
    Unprefix(NotifyPrefix(cfg), v);
    Unprefix(PRESENCE, u);
    Unprefix(PRESENCE, v);
  }

  lemma SubsAfterOne(subs: set<string>, b: Batch)
    ensures SubsAfter(subs, [b]) == SubsAfterBatch(subs, b)
  {
    assert [b][1..] == [];
  }

  lemma LoginBatchSubs(cfg: Config, subs: set<string>, v: string)
    ensures SubsAfterBatch(subs, LoginBatch(cfg, v)) == subs + {NotifyChannel(cfg, v), PresenceChannel(v)}
  {
    var b := LoginBatch(cfg, v);
    assert b[1..][1..] == FetchBatch(cfg, v, v);
    NoSubs(subs + {NotifyChannel(cfg, v)} + {PresenceChannel(v)}, FetchBatch(cfg, v, v));
    assert SubsAfterBatch(subs, b) == SubsAfterBatch(subs + {NotifyChannel(cfg, v)}, b[1..]);
    assert SubsAfterBatch(subs + {NotifyChannel(cfg, v)}, b[1..])
        == SubsAfterBatch(subs + {NotifyChannel(cfg, v)} + {PresenceChannel(v)}, b[1..][1..]);
  }

  lemma LeaveBatchSubs(cfg: Config, subs: set<string>, v: string)
    ensures SubsAfterBatch(subs, LeaveBatch(cfg, v)) == subs - {NotifyChannel(cfg, v), PresenceChannel(v)}
  {
    var b := LeaveBatch(cfg, v);
    assert b[1..] == [Unsubscribe(PresenceChannel(v))] && b[1..][1..] == [];
    assert SubsAfterBatch(subs, b) == SubsAfterBatch(subs - {NotifyChannel(cfg, v)}, b[1..]);
    assert SubsAfterBatch(subs - {NotifyChannel(cfg, v)}, b[1..])
        == SubsAfterBatch(subs - {NotifyChannel(cfg, v)} - {PresenceChannel(v)}, []);
  }

  /** The subscriptions a group of batches adds and removes. */
  lemma AppSendsSubs(cfg: Config, n: Node, i: nat, m: AppMsg, subs: set<string>)
    requires i < |n.sessions|
    ensures SubsAfter(subs, AppSends(cfg, n, i, m)) ==
      var u := LoginUser(cfg, n, i, m);
      if u.Some? && !m.token.MalformedToken?
      then subs + {NotifyChannel(cfg, u.value), PresenceChannel(u.value)}
      else subs
  {
    hide SubsAfterBatch, MakeHexDigest, LoginBatch, StoreBatch;
    var sends := AppSends(cfg, n, i, m);
    var u := LoginUser(cfg, n, i, m);
    if u.Some? && !m.token.MalformedToken? {
      var b := LoginBatch(cfg, u.value);
      LoginBatchSubs(cfg, subs, u.value);
      SubsAfterOne(subs, b);
      if m.token.TextToken? {
        var t := [Publish(cfg.notifyChannel, TokenText(u.value, m.token.text)), HSet(u.value)];
        NoSubs(subs, t);
        assert sends[1..] == [b];
      }
    } else if sends != [] {
      PlainAppSends(cfg, n, i, m);
      assert sends == [sends[0]];
      NoSubs(subs, sends[0]);
      SubsAfterOne(subs, sends[0]);
    }
  }

  lemma PlainAppSends(cfg: Config, n: Node, i: nat, m: AppMsg)
    requires i < |n.sessions| && (LoginUser(cfg, n, i, m).None? || m.token.MalformedToken?)
    ensures |AppSends(cfg, n, i, m)| <= 1
    ensures forall b, c :: b in AppSends(cfg, n, i, m) && c in b ==> !c.Subscribe? && !c.Unsubscribe?
  {
  }

  lemma EventSendsSubs(cfg: Config, s: System, e: Event, subs: set<string>)
    requires SystemOk(cfg, s) && Enabled(s, e)
    ensures SubsAfter(subs, EventSends(cfg, s, e)) ==
      if e.AppRead? && LoginUser(cfg, s.node, e.i, e.m).Some? && !e.m.token.MalformedToken?
      then subs + {NotifyChannel(cfg, LoginUser(cfg, s.node, e.i, e.m).value), PresenceChannel(LoginUser(cfg, s.node, e.i, e.m).value)}
      else if e.ReadFailed? && LoggedIn(s.node.sessions[e.i])
      then subs - {NotifyChannel(cfg, s.node.sessions[e.i].pubHash), PresenceChannel(s.node.sessions[e.i].pubHash)}
      else subs
  {
    hide SubsAfterBatch, SystemOk, AppSends, LeaveBatch, LoginUser;
    match e
    case AppRead(i, m) => AppSendsSubs(cfg, s.node, i, m, subs);
    case ReadFailed(i) =>
      var t := s.node.sessions[i];
      if LoggedIn(t) {
        LeaveBatchSubs(cfg, subs, t.pubHash);
        SubsAfterOne(subs, LeaveBatch(cfg, t.pubHash));
        if Kept(t.queue) != [] {
          var b := StoreBatch(cfg, Kept(t.queue), t.pubHash);
          var subs1 := SubsAfterBatch(subs, LeaveBatch(cfg, t.pubHash));
          NoSubs(subs1, b);
          SubsAfterOne(subs1, b);
          assert Farewell(cfg, t)[1..] == [b];
        }
      }
    case RedisReplies =>
      var sends := ReplySends(cfg, s.node, s.store.inbox[0]);
      if sends != [] {
        NoSubs(subs, sends[0]);
        SubsAfterOne(subs, sends[0]);
        assert sends == [sends[0]];
      }
    case Signal =>
      NoSubs(subs, [Quit]);
      SubsAfterOne(subs, [Quit]);
    case _ =>
  }

  /** How one event changes the subscriptions that Redis ends up with. */
  lemma NextSubs(cfg: Config, s: System, e: Event)
    requires SystemOk(cfg, s) && Enabled(s, e)
    ensures var s1 := Next(cfg, s, e);
      SubsAfter(s1.store.subs, s1.node.cmds) == SubsAfter(SubsAfter(s.store.subs, s.node.cmds), EventSends(cfg, s, e))
  {
    hide SystemOk, OnRead, OnReadError, OnWritten, OnRun, ShutdownAll, OnReply, SubsAfterBatch, EventSends, ExecBatch;
    var s1 := Next(cfg, s, e);
    NextSends(cfg, s, e);
    NextStoreSubs(cfg, s, e);
    SubsAfterConcat(s1.store.subs, Remaining(s, e), EventSends(cfg, s, e));
  }

  lemma NextStoreSubs(cfg: Config, s: System, e: Event)
    requires Enabled(s, e)
    ensures Next(cfg, s, e).store.subs == if e.RedisExecutes? then SubsAfterBatch(s.store.subs, s.node.cmds[0]) else s.store.subs
  {
    hide OnRead, OnReadError, OnWritten, OnRun, ShutdownAll, OnReply, ExecBatch, SubsAfterBatch;
    match e
    case RedisExecutes => ExecBatchSubs(s.store, s.node.cmds[0]);
    case ForeignStore(user, msgs) =>
      var b := StoreBatch(cfg, ParcelsFor(user, msgs), user);
      ExecBatchSubs(s.store, b);
      NoSubs(s.store.subs, b);
    case _ =>
  }

  /** A user is watched after an event exactly when the event subscribes to it, or it was watched and
      the event does not end its session. */
  lemma NextWatched(cfg: Config, s: System, e: Event, u: string)
    requires SystemOk(cfg, s) && Enabled(s, e)
    ensures Watched(cfg, Next(cfg, s, e), u) <==> Subscribes(cfg, s, e, u) || (Watched(cfg, s, u) && !Leaves(s, e, u))
    ensures Followed(Next(cfg, s, e), u) <==> Subscribes(cfg, s, e, u) || (Followed(s, u) && !Leaves(s, e, u))
  {
    hide SystemOk, Next, EventSends, LoginUser, SubsAfter;
    NextSubs(cfg, s, e);
    EventSendsSubs(cfg, s, e, SubsAfter(s.store.subs, s.node.cmds));
    ChannelsDiffer(cfg, u, u);
    if e.AppRead? && LoginUser(cfg, s.node, e.i, e.m).Some? {
      var v := LoginUser(cfg, s.node, e.i, e.m).value;
      ChannelsDiffer(cfg, u, v);
      ChannelsDiffer(cfg, v, u);
      if u != v { ChannelsInjective(cfg, u, v); }
    }
    if e.ReadFailed? {
      var v := s.node.sessions[e.i].pubHash;
      ChannelsDiffer(cfg, u, v);
      ChannelsDiffer(cfg, v, u);
      if u != v { ChannelsInjective(cfg, u, v); }
    }
  }

  /** How one event changes the map of sessions. */
  lemma NextIndex(cfg: Config, s: System, e: Event, u: string)
    requires ConfigOk(cfg) && SystemOk(cfg, s) && Enabled(s, e)
    ensures u in Next(cfg, s, e).node.index <==>
      Subscribes(cfg, s, e, u) || FailsToSubscribe(cfg, s, e, u) || (u in s.node.index && !Leaves(s, e, u))
  {
    hide EntryOk, SlotOk, BatchOk, StoreOk, Correlated, QueueOk, OnRead, OnReadError, OnReply, ExecBatch, LoginUser;
    var n := s.node;
    match e
    case AppRead(i, m) =>
      assert SessionOk(n.sessions[i]);
      ReadSummary(cfg, n, i, m, i);
    case ReadFailed(i) =>
      assert SessionOk(n.sessions[i]);
      OnReadErrorShape(cfg, n, i);
      EmptyNotMapped(n);
    case RedisReplies => OnReplyIndex(cfg, n, s.store.inbox[0]);
    case _ =>
  }

  lemma EmptyNotMapped(n: Node)
    requires IndexOk(n)
    ensures "" !in n.index
  {
    assert "" in n.index ==> EntryOk(n, "");
  }

  lemma OnReplyIndex(cfg: Config, n: Node, r: Reply)
    requires InRange(n)
    ensures OnReply(cfg, n, r).index == n.index && |OnReply(cfg, n, r).sessions| == |n.sessions|
  {
  }

  // Agreement of map and subscriptions ---------------------------------------------------------

  /** The node listens for `u` exactly when `u` is logged in. */
  predicate Exact(cfg: Config, s: System, u: string) {
    && (Watched(cfg, s, u) <==> u in s.node.index)
    && (Followed(s, u) <==> u in s.node.index)
  }

  /** One event keeps the agreement for `u` if and only if it is not a login of `u`, as yet logged
      out, with a token that is neither a string nor empty. */
  lemma NextExact(cfg: Config, s: System, e: Event, u: string)
    requires ConfigOk(cfg) && SystemOk(cfg, s) && Enabled(s, e) && Exact(cfg, s, u)
    ensures Exact(cfg, Next(cfg, s, e), u) <==> !(FailsToSubscribe(cfg, s, e, u) && u !in s.node.index)
  {
    hide SystemOk, Next, Watched, Followed, LoginUser;
    NextWatched(cfg, s, e, u);
    NextIndex(cfg, s, e, u);
  }

  /** Without such logins the agreement holds in every state of every run. */
  lemma {:induction false} RunExact(cfg: Config, ss: seq<System>, es: seq<Event>, k: nat, u: string)
    requires ConfigOk(cfg) && IsRun(cfg, ss, es) && k < |ss|
    requires forall j :: 0 <= j < |es| ==> !(es[j].AppRead? && es[j].m.LoginMsg? && es[j].m.token.MalformedToken?)
    ensures Exact(cfg, ss[k], u)
  {
    if k == 0 {
      InitNotWatched(cfg, u);
    } else {
      RunExact(cfg, ss, es, k - 1, u);
      RunOk(cfg, ss, es, k - 1);
      NextExact(cfg, ss[k - 1], es[k - 1], u);
    }
  }

  lemma InitNotWatched(cfg: Config, u: string)
    requires ConfigOk(cfg)
    ensures !Watched(cfg, Init(cfg), u) && !Followed(Init(cfg), u)
  {
    Unprefix(PRESENCE, u);
    assert KEYSPACE <= NotifyChannel(cfg, u) by {
      NotifyChannelOfKey(cfg, u);
      Unprefix(KEYSPACE, ListKey(cfg, u));
    }
  }

  /** In all runs, malformed tokens or not: only users that are logged in are listened for, and a user
      who is logged in but not listened for has a session that is being closed. */
  ghost predicate Agrees(cfg: Config, s: System, u: string) {
    && (Watched(cfg, s, u) <==> Followed(s, u))
    && (Watched(cfg, s, u) ==> u in s.node.index)
    && (u in s.node.index && !Watched(cfg, s, u) ==>
          s.node.index[u] < |s.node.sessions| && s.node.sessions[s.node.index[u]].closing)
  }

  /** No session reopens. */
  ghost predicate StaysClosing(n: Node, n1: Node) {
    && |n.sessions| <= |n1.sessions|
    && forall k :: 0 <= k < |n.sessions| && n.sessions[k].closing ==> n1.sessions[k].closing
  }

  lemma {:induction false} SendAllClosing(s: Session, ps: seq<Parcel>)
    ensures SendAll(s, ps).closing == s.closing
    decreases |ps|
  {
    if ps != [] {
      SendAllClosing(Send(s, Entry(ps[0], true)), ps[1..]);
    }
  }

  lemma NextClosing(cfg: Config, s: System, e: Event)
    requires ConfigOk(cfg) && SystemOk(cfg, s) && Enabled(s, e)
    ensures StaysClosing(s.node, Next(cfg, s, e).node)
  {
    hide BatchOk, StoreOk, Correlated, QueueOk, OnRead, OnReadError, ExecBatch, EntryOk, SlotOk;
    var n := s.node;
    match e
    case AppRead(i, m) =>
      assert SessionOk(n.sessions[i]);
      forall k | 0 <= k < |n.sessions|
        ensures |OnRead(cfg, n, i, m).sessions| == |n.sessions|
        ensures n.sessions[k].closing ==> OnRead(cfg, n, i, m).sessions[k].closing
      {
        ReadSummary(cfg, n, i, m, k);
      }
      ReadSummary(cfg, n, i, m, i);
    case ReadFailed(i) =>
      assert SessionOk(n.sessions[i]);
      OnReadErrorShape(cfg, n, i);
    case RedisReplies =>
      if n.fifo != [] && n.fifo[0] in n.index && s.store.inbox[0].LRangeReply? {
        SendAllClosing(n.sessions[n.index[n.fifo[0]]], s.store.inbox[0].parcels);
      }
    case _ =>
  }

  lemma NextAgrees(cfg: Config, s: System, e: Event, u: string)
    requires ConfigOk(cfg) && SystemOk(cfg, s) && Enabled(s, e) && Agrees(cfg, s, u)
    ensures Agrees(cfg, Next(cfg, s, e), u)
  {
    hide SystemOk, Next, Watched, Followed, LoginUser;
    NextWatched(cfg, s, e, u);
    NextIndex(cfg, s, e, u);
    NextClosing(cfg, s, e);
    if !Subscribes(cfg, s, e, u) && u in Next(cfg, s, e).node.index {
      NextPlace(cfg, s, e, u);
    }
  }

  /** A user that neither logs in nor leaves keeps its session; one that fails to subscribe has a
      session that is being closed. */
  lemma NextPlace(cfg: Config, s: System, e: Event, u: string)
    requires ConfigOk(cfg) && SystemOk(cfg, s) && Enabled(s, e)
    requires !Subscribes(cfg, s, e, u) && u in Next(cfg, s, e).node.index
    ensures var n1 := Next(cfg, s, e).node;
      if FailsToSubscribe(cfg, s, e, u)
      then n1.index[u] < |n1.sessions| && n1.sessions[n1.index[u]].closing
      else u in s.node.index && n1.index[u] == s.node.index[u]
  {
    hide EntryOk, SlotOk, BatchOk, StoreOk, Correlated, QueueOk, OnRead, OnReadError, OnReply, ExecBatch, LoginUser;
    var n := s.node;
    match e
    case AppRead(i, m) =>
      assert SessionOk(n.sessions[i]);
      ReadSummary(cfg, n, i, m, i);
    case ReadFailed(i) =>
      assert SessionOk(n.sessions[i]);
      OnReadErrorShape(cfg, n, i);
    case RedisReplies => OnReplyIndex(cfg, n, s.store.inbox[0]);
    case _ =>
  }

  lemma {:induction false} RunAgrees(cfg: Config, ss: seq<System>, es: seq<Event>, k: nat, u: string)
    requires ConfigOk(cfg) && IsRun(cfg, ss, es) && k < |ss|
    ensures Agrees(cfg, ss[k], u)
  {
    if k == 0 {
      InitNotWatched(cfg, u);
    } else {
      RunAgrees(cfg, ss, es, k - 1, u);
      RunOk(cfg, ss, es, k - 1);
      NextAgrees(cfg, ss[k - 1], es[k - 1], u);
    }
  }

  // No stored message is overlooked ---------------------------------------------------------------

  /** The fetch of the list at `key` is among the batches not executed. */
  predicate FetchComing(cmds: seq<Batch>, key: string) {
    exists b :: b in cmds && Fetches(b, key)
  }

  /** If Redis notifies the node about `u` and has messages for `u`, then a notification or a fetch is
      on its way. */
  predicate NotOverlooked(cfg: Config, r: Store, cmds: seq<Batch>, u: string) {
    NotifyChannel(cfg, u) in r.subs && ListAt(r.lists, ListKey(cfg, u)) != [] ==>
      Push(NotifyChannel(cfg, u), Keyspace("rpush")) in r.inbox || FetchComing(cmds, ListKey(cfg, u))
  }

  /** The same in the middle of a batch of which `b` remains: a range has to be followed by its
      deletion before the list is out of sight. */
  predicate NotOverlookedYet(cfg: Config, r: Store, b: Batch, cmds: seq<Batch>, u: string) {
    Fetches(b, ListKey(cfg, u)) || (b != [] && b[0] == Del(ListKey(cfg, u))) || NotOverlooked(cfg, r, cmds, u)
  }

  lemma ExecNotOverlooked(cfg: Config, r: Store, b: Batch, cmds: seq<Batch>, u: string)
    requires IsDigest(u) && b != [] && NotOverlookedYet(cfg, r, b, cmds, u)
    requires FetchesWhatItWatches(cfg, b)
    requires b[0].LRange? ==> |b| >= 2 && b[1] == Del(b[0].key)
    ensures NotOverlookedYet(cfg, Exec(r, b[0]), b[1..], cmds, u)
  {
    hide IsDigest;
    var key := ListKey(cfg, u);
    UserKeys(cfg, u);
    match b[0]
    case RPush(k, ps) =>
      if k == key { NotifyChannelOfKey(cfg, u); } else { assert ListAt(Exec(r, b[0]).lists, key) == ListAt(r.lists, key); }
    case Del(k) => if k != key { assert ListAt(Exec(r, b[0]).lists, key) == ListAt(r.lists, key); }
    case Subscribe(ch) =>
    case _ =>
  }

  lemma {:induction false} ExecBatchNotOverlooked(cfg: Config, r: Store, b: Batch, cmds: seq<Batch>, u: string)
    requires IsDigest(u) && NotOverlookedYet(cfg, r, b, cmds, u) && FetchesWhatItWatches(cfg, b)
    requires Paired(b) || (b != [] && b[0].Del? && Paired(b[1..]))
    ensures NotOverlooked(cfg, ExecBatch(r, b), cmds, u)
    decreases |b|
  {
    hide IsDigest, Exec;
    if b != [] {
      ExecNotOverlooked(cfg, r, b, cmds, u);
      if b[0].LRange? { assert b[1..][1..] == b[2..]; }
      ExecBatchNotOverlooked(cfg, Exec(r, b[0]), b[1..], cmds, u);
    }
  }

  lemma FetchComingMore(cmds: seq<Batch>, more: seq<Batch>, key: string)
    requires FetchComing(cmds, key)
    ensures FetchComing(cmds + more, key)
  {
    hide Fetches;
    var b :| b in cmds && Fetches(b, key);
    assert b in cmds + more;
  }

  lemma NotOverlookedMore(cfg: Config, r: Store, cmds: seq<Batch>, more: seq<Batch>, u: string)
    requires NotOverlooked(cfg, r, cmds, u)
    ensures NotOverlooked(cfg, r, cmds + more, u)
  {
    hide FetchComing;
    if FetchComing(cmds, ListKey(cfg, u)) { FetchComingMore(cmds, more, ListKey(cfg, u)); }
  }

  lemma ExecutesNotOverlooked(cfg: Config, r: Store, cmds: seq<Batch>, u: string)
    requires IsDigest(u) && cmds != [] && BatchOk(cfg, cmds[0]) && NotOverlooked(cfg, r, cmds, u)
    ensures NotOverlooked(cfg, ExecBatch(r, cmds[0]), cmds[1..], u)
  {
    hide IsDigest, Fetches, Paired, FetchesWhatItWatches, CmdOk;
    assert FetchComing(cmds, ListKey(cfg, u)) ==> Fetches(cmds[0], ListKey(cfg, u)) || FetchComing(cmds[1..], ListKey(cfg, u));
    ExecBatchNotOverlooked(cfg, r, cmds[0], cmds[1..], u);
  }

  /** A notification leaves the inbox only when the list it is about is going to be fetched. */
  lemma RepliesNotOverlooked(cfg: Config, s: System, u: string)
    requires IsDigest(u) && SystemOk(cfg, s) && Enabled(s, RedisReplies)
    requires NotOverlooked(cfg, s.store, s.node.cmds, u)
    ensures var s1 := Next(cfg, s, RedisReplies); NotOverlooked(cfg, s1.store, s1.node.cmds, u)
  {
    hide SystemOk, FetchComing, OnReply, Fetches;
    var x := s.store.inbox[0];
    NextSends(cfg, s, RedisReplies);
    var more := EventSends(cfg, s, RedisReplies);
    var key := ListKey(cfg, u);
    if FetchComing(s.node.cmds, key) {
      FetchComingMore(s.node.cmds, more, key);
    }
    if x == Push(NotifyChannel(cfg, u), Keyspace("rpush")) {
      Unprefix(NotifyPrefix(cfg), u);
      NotifiedFetches(cfg, s.node.cmds, u);
      assert more == [FetchBatch(cfg, u, PushedValue(cfg, u))];
    }
  }

  lemma NotifiedFetches(cfg: Config, cmds: seq<Batch>, u: string)
    ensures FetchComing(cmds + [FetchBatch(cfg, u, PushedValue(cfg, u))], ListKey(cfg, u))
  {
    var b := FetchBatch(cfg, u, PushedValue(cfg, u));
    assert Fetches(b, ListKey(cfg, u));
    assert b in cmds + [b];
  }

  lemma ForeignStoreNotOverlooked(cfg: Config, r: Store, cmds: seq<Batch>, ps: seq<Parcel>, user: string, u: string)
    requires IsDigest(u) && ps != [] && NotOverlooked(cfg, r, cmds, u)
    ensures NotOverlooked(cfg, ExecBatch(r, StoreBatch(cfg, ps, user)), cmds, u)
  {
    hide IsDigest, StoreBatch, Paired, FetchesWhatItWatches, CmdOk, FetchComing;
    StoreBatchOk(cfg, ps, user);
    ExecBatchNotOverlooked(cfg, r, StoreBatch(cfg, ps, user), cmds, u);
  }

  lemma ForeignFetchNotOverlooked(cfg: Config, r: Store, cmds: seq<Batch>, key: string, u: string)
    requires IsDigest(u) && NotOverlooked(cfg, r, cmds, u)
    ensures NotOverlooked(cfg, Exec(r, Del(key)), cmds, u)
  {
    hide IsDigest, FetchComing;
    if key != ListKey(cfg, u) {
      assert ListAt(Exec(r, Del(key)).lists, ListKey(cfg, u)) == ListAt(r.lists, ListKey(cfg, u));
    }
  }

  lemma PublishNotOverlooked(cfg: Config, r: Store, cmds: seq<Batch>, channel: string, payload: Payload, u: string)
    requires NotOverlooked(cfg, r, cmds, u)
    ensures NotOverlooked(cfg, Exec(r, Publish(channel, payload)), cmds, u)
  {
    hide IsDigest, FetchComing;
  }

  lemma NextNotOverlooked(cfg: Config, s: System, e: Event, u: string)
    requires ConfigOk(cfg) && SystemOk(cfg, s) && Enabled(s, e) && IsDigest(u)
    requires NotOverlooked(cfg, s.store, s.node.cmds, u)
    ensures var s1 := Next(cfg, s, e); NotOverlooked(cfg, s1.store, s1.node.cmds, u)
  {
    hide NodeOk, StoreOk, Correlated, BatchOk, FetchComing, NotOverlooked, ExecBatch, StoreBatch, EventSends, IsDigest,
      OnRead, OnReadError, OnWritten, OnRun, ShutdownAll, OnReply;
    match e
    case RedisExecutes =>
      assert BatchOk(cfg, s.node.cmds[0]);
      ExecutesNotOverlooked(cfg, s.store, s.node.cmds, u);
    case RedisReplies => RepliesNotOverlooked(cfg, s, u);
    case ForeignStore(user, msgs) => ForeignStoreNotOverlooked(cfg, s.store, s.node.cmds, ParcelsFor(user, msgs), user, u);
    case ForeignFetch(user) => ForeignFetchNotOverlooked(cfg, s.store, s.node.cmds, ListKey(cfg, user), u);
    case ForeignPublish(channel, payload) => PublishNotOverlooked(cfg, s.store, s.node.cmds, channel, payload, u);
    case _ =>
      NextSends(cfg, s, e);
      NotOverlookedMore(cfg, s.store, s.node.cmds, EventSends(cfg, s, e), u);
  }

  /** In every state of every run: whenever Redis holds messages for a user the node is subscribed to,
      a notification or a fetch is on its way.  This holds whatever on_push queues. */
  lemma {:induction false} RunNotOverlooked(cfg: Config, ss: seq<System>, es: seq<Event>, k: nat, u: string)
    requires ConfigOk(cfg) && IsRun(cfg, ss, es) && k < |ss| && IsDigest(u)
    ensures NotOverlooked(cfg, ss[k].store, ss[k].node.cmds, u)
  {
    if k > 0 {
      RunNotOverlooked(cfg, ss, es, k - 1, u);
      RunOk(cfg, ss, es, k - 1);
      NextNotOverlooked(cfg, ss[k - 1], es[k - 1], u);
    }
  }
}
