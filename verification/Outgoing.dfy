/** The batches a node sends to Redis at each event. */
module Outgoing {
  import opened Prelude
  import opened Crypto
  import opened Messages
  import opened Sessions
  import opened Redis
  import opened Nodes
  import opened NodeInvariant
  import opened Systems
  import opened Wire
  import opened Effects
  import opened Safety
  import opened Answers

  /** The user id that the message `m` would log session `i` in with. */
  function LoginUser(cfg: Config, n: Node, i: nat, m: AppMsg): (u: Option<string>)
    requires i < |n.sessions|
    ensures u.Some? ==> IsDigest(u.value)
  {
    if LoggedIn(n.sessions[i]) || !m.LoginMsg? || m.user.None? || m.key.None? then None
    else
      var user := MakeHexDigest(cfg.hash, m.user.value, m.key.value);
      if user == "" then None else Some(user)
  }

  function AppSends(cfg: Config, n: Node, i: nat, m: AppMsg): seq<Batch>
    requires i < |n.sessions|
  {
    var me := n.sessions[i].pubHash;
    if !LoggedIn(n.sessions[i]) then
      var user := LoginUser(cfg, n, i, m);
      if user.None? || m.token.MalformedToken? then []
      else
        (if m.token.TextToken? then [[Publish(cfg.notifyChannel, TokenText(user.value, m.token.text)), HSet(user.value)]] else [])
        + [LoginBatch(cfg, user.value)]
    else
      match m
      case ChatMsg(to, _, _, _) =>
        if to.Some? && ChatTo(cfg, to.value) !in n.index
        then [StoreBatch(cfg, [ChatParcel(cfg, me, m)], ChatTo(cfg, to.value))] else []
      case PresenceMsg(to, body) =>
        if to.Some? && ChatTo(cfg, to.value) !in n.index
        then [[Publish(PresenceChannel(ChatTo(cfg, to.value)), PresenceText(me, ChatTo(cfg, to.value), body))]] else []
      case PublishMsg(user, key, hasPost, newId) =>
        if user.Some? && key.Some? && MakeHexDigest(cfg.hash, user.value, key.value) != "" && hasPost
        then [[HSet(newId), Publish(cfg.postsChannel, PostText(newId))]] else []
      case _ => []
  }

  function ReplySends(cfg: Config, n: Node, r: Reply): seq<Batch> {
    match r
    case LRangeReply(_, _, ps) =>
      if n.fifo == [] || n.fifo[0] in n.index || ps == [] then [] else [StoreBatch(cfg, ps, n.fifo[0])]
    case Push(channel, payload) =>
      var pos := |NotifyPrefix(cfg)|;
      if payload != Keyspace("rpush") || pos >= |channel| then []
      else [FetchBatch(cfg, channel[pos..], PushedValue(cfg, channel[pos..]))]
    case Confirm(_) => []
  }

  function EventSends(cfg: Config, s: System, e: Event): seq<Batch>
    requires Enabled(s, e)
  {
    match e
    case AppRead(i, m) => AppSends(cfg, s.node, i, m)
    case ReadFailed(i) => Farewell(cfg, s.node.sessions[i])
    case RedisReplies => ReplySends(cfg, s.node, s.store.inbox[0])
    case Signal => [[Quit]]
    case _ => []
  }

  /** What Redis has not executed before the event, except a batch it executes now. */
  function Remaining(s: System, e: Event): seq<Batch>
    requires Enabled(s, e)
  {
    if e.RedisExecutes? then s.node.cmds[1..] else s.node.cmds
  }

  /** What a message of a client does to Redis, to the map and to the closing of sessions. */
  lemma ReadSummary(cfg: Config, n: Node, i: nat, m: AppMsg, k: nat)
    requires NodeOk(n) && InRange(n) && i < |n.sessions| && k < |n.sessions| && Open(n.sessions[i])
    ensures var n1, u := OnRead(cfg, n, i, m), LoginUser(cfg, n, i, m);
      && |n1.sessions| == |n.sessions|
      && n1.cmds == n.cmds + AppSends(cfg, n, i, m)
      && n1.index == (if u.Some? then n.index[u.value := i] else n.index)
      && n1.fifo == n.fifo + (if u.Some? && !m.token.MalformedToken? then [u.value] else [])
      && (n.sessions[k].closing ==> n1.sessions[k].closing)
      && (u.Some? && m.token.MalformedToken? && k == i ==> n1.sessions[k].closing)
  {
    hide OnRead, NodeOk, MakeHexDigest;
    if !LoggedIn(n.sessions[i]) && m.LoginMsg? {
      LoginAnswered(cfg, n, i, m, k);
    } else if LoggedIn(n.sessions[i]) && m.ChatMsg? {
      ChatAnswered(cfg, n, i, m, k);
    } else if LoggedIn(n.sessions[i]) && m.PresenceMsg? {
      PresenceAnswered(cfg, n, i, m, k);
    } else if LoggedIn(n.sessions[i]) && m.PublishMsg? {
      PublishAnswered(cfg, n, i, m, k);
    } else {
      OtherAnswered(cfg, n, i, m, k);
    }
  }

  lemma NextSends(cfg: Config, s: System, e: Event)
    requires SystemOk(cfg, s) && Enabled(s, e)
    ensures Next(cfg, s, e).node.cmds == Remaining(s, e) + EventSends(cfg, s, e)
  {
    hide OnRead, AppSends, Farewell, OnReadError, BatchOk, StoreOk, Correlated, QueueOk, EntryOk, SlotOk, ExecBatch, StoreBatch;
    match e
    case AppRead(i, m) =>
      assert SessionOk(s.node.sessions[i]);
      ReadSummary(cfg, s.node, i, m, i);
    case ReadFailed(i) =>
      assert SessionOk(s.node.sessions[i]);
      OnReadErrorSends(cfg, s.node, i);
    case _ =>
  }
}
