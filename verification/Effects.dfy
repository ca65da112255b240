/** What each handler does to the parcels a node is responsible for, and what it asks of Redis. */
module Effects {
  import opened Prelude
  import opened Crypto
  import opened Messages
  import opened Sessions
  import opened Redis
  import opened Nodes
  import opened NodeInvariant
  import opened Wire

  /** The parcels `p` that the node has written, holds in queues or has given to Redis without
      Redis having taken them, less those it has ever accepted. */
  ghost function Slack(n: Node, p: Parcel): int {
    Sum(Held, n.sessions)[p] as int + Pending(n.cmds)[p] as int - multiset(n.accepted)[p] as int
  }

  lemma HeldSame(s: Session, t: Session)
    requires s.queue == t.queue && s.written == t.written
    ensures Held(s) == Held(t)
  {
  }

  /** Histories of tags, the map and the count do not matter. */
  lemma SlackSame(n: Node, n1: Node, p: Parcel)
    requires n1.sessions == n.sessions && n1.cmds == n.cmds && n1.accepted == n.accepted
    ensures Slack(n1, p) == Slack(n, p)
  {
  }

  lemma SlackWith(n: Node, i: nat, s: Session, p: Parcel)
    requires i < |n.sessions|
    ensures Slack(With(n, i, s), p) == Slack(n, p) + Held(s)[p] - Held(n.sessions[i])[p]
  {
    hide Sum, Held;
    SumUpdate(Held, n.sessions, i, s, p);
  }

  lemma SlackRequest(n: Node, b: Batch, p: Parcel)
    ensures Slack(Request(n, b), p) == Slack(n, p) + PushedByBatch(b)[p]
  {
    hide Sum, Held;
    SumAppend(PushedByBatch, n.cmds, b, p);
  }

  lemma SlackSend(n: Node, i: nat, e: Entry, p: Parcel)
    requires i < |n.sessions|
    ensures Slack(SendTo(n, i, e), p) == Slack(n, p) + (if e.persist && e.parcel == p then 1 else 0)
  {
    hide Sum, Held;
    SlackWith(n, i, Send(n.sessions[i], e), p);
    SendHeld(n.sessions[i], e, p);
  }

  /** A persistent message that is accepted and sent at once. */
  lemma SlackAcceptAndSend(n: Node, i: nat, q: Parcel, p: Parcel)
    requires i < |n.sessions|
    ensures Slack(SendTo(Accept(n, q), i, Entry(q, true)), p) == Slack(n, p)
  {
    hide Sum, Held;
    SlackSend(Accept(n, q), i, Entry(q, true), p);
  }

  lemma StoreChatMsgEffect(cfg: Config, n: Node, ps: seq<Parcel>, to: string, p: Parcel)
    ensures var n1 := StoreChatMsg(cfg, n, ps, to);
      Requested(cfg, n, n1) && Slack(n1, p) == Slack(n, p) + multiset(ps)[p]
  {
    hide Sum, Held;
    if ps != [] {
      var b := StoreBatch(cfg, ps, to);
      StoreBatchOk(cfg, ps, to);
      SlackRequest(n, b, p);
      RequestedOne(cfg, n, Request(n, b), b);
    }
  }

  /** Taking a user id away from a session, or giving one to it, moves no message. */
  lemma EnrollSlack(n: Node, i: nat, user: string, p: Parcel)
    requires i < |n.sessions| && InRange(n)
    ensures Slack(Enroll(n, i, user), p) == Slack(n, p)
  {
    hide Sum, Held;
    if user in n.index {
      HeldSame(n.sessions[n.index[user]], Overridden(n.sessions[n.index[user]]));
      SlackWith(n, n.index[user], Overridden(n.sessions[n.index[user]]), p);
    }
  }

  lemma PublishTokenSlack(cfg: Config, n: Node, user: string, token: TokenField, p: Parcel)
    ensures Slack(PublishToken(cfg, n, user, token), p) == Slack(n, p)
  {
    hide Sum, Held;
    if token.TextToken? {
      var b := [Publish(cfg.notifyChannel, TokenText(user, token.text)), HSet(user)];
      PlainBatchOk(cfg, b);
      SlackRequest(n, b, p);
    }
  }

  lemma RequestedThen(cfg: Config, n: Node, n1: Node, n2: Node)
    requires Requested(cfg, n, n1) && Requested(cfg, n1, n2)
    ensures Requested(cfg, n, n2)
  {
    var a, b := n1.cmds[|n.cmds|..], n2.cmds[|n1.cmds|..];
    assert n2.cmds[|n.cmds|..] == a + b;
    QueueTagsConcat(a, b);
  }

  lemma OnAppLoginRequests(cfg: Config, n: Node, i: nat, m: AppMsg)
    requires m.LoginMsg? && i < |n.sessions| && InRange(n)
    ensures Requested(cfg, n, OnAppLogin(cfg, n, i, m).0)
  {
    if m.user.Some? && m.key.Some? {
      var user := MakeHexDigest(cfg.hash, m.user.value, m.key.value);
      if user != "" {
        var n1 := Enroll(With(n, i, SetPubHash(n.sessions[i], user)), i, user);
        assert n1.cmds == n.cmds && n1.fifo == n.fifo;
        if m.token.MalformedToken? {
          RequestedNone(cfg, n, n1);
        } else {
          LoginRequests(cfg, n1, user, m.token);
          var n2 := PublishToken(cfg, n1, user, m.token);
          var n3 := Request(n2, LoginBatch(cfg, user)).(fifo := n2.fifo + [user]);
          RequestedLike(cfg, n1, n3, n, OnAppLogin(cfg, n, i, m).0);
        }
      } else {
        RequestedNone(cfg, n, OnAppLogin(cfg, n, i, m).0);
      }
    } else {
      RequestedNone(cfg, n, OnAppLogin(cfg, n, i, m).0);
    }
  }

  /** Only the commands and the queue of tags matter. */
  lemma RequestedLike(cfg: Config, a: Node, b: Node, n: Node, n1: Node)
    requires Requested(cfg, a, b)
    requires n.cmds == a.cmds && n.fifo == a.fifo && n1.cmds == b.cmds && n1.fifo == b.fifo
    ensures Requested(cfg, n, n1)
  {
  }

  lemma LoginRequests(cfg: Config, n: Node, user: string, token: TokenField)
    requires IsDigest(user)
    ensures var n2 := PublishToken(cfg, n, user, token);
      Requested(cfg, n, Request(n2, LoginBatch(cfg, user)).(fifo := n2.fifo + [user]))
  {
    var b := LoginBatch(cfg, user);
    var n2 := PublishToken(cfg, n, user, token);
    LoginBatchOk(cfg, user);
    if token.TextToken? {
      var t := [Publish(cfg.notifyChannel, TokenText(user, token.text)), HSet(user)];
      PlainBatchOk(cfg, t);
      RequestedTwo(cfg, n, Request(n2, b).(fifo := n2.fifo + [user]), t, b);
    } else {
      RequestedOne(cfg, n, Request(n2, b).(fifo := n2.fifo + [user]), b);
    }
  }

  lemma OnAppLoginSlack(cfg: Config, n: Node, i: nat, m: AppMsg, p: Parcel)
    requires m.LoginMsg? && i < |n.sessions| && InRange(n)
    ensures Slack(OnAppLogin(cfg, n, i, m).0, p) == Slack(n, p)
  {
    hide Sum, Held, Slack, PushedByBatch, CmdTags, Send, Kept, BatchOk;
    if m.user.Some? && m.key.Some? {
      var user := MakeHexDigest(cfg.hash, m.user.value, m.key.value);
      if user == "" {
        SlackSend(n, i, Entry(Parcel("", LoginAck(false)), false), p);
      } else {
        var n0 := With(n, i, SetPubHash(n.sessions[i], user));
        HeldSame(n.sessions[i], SetPubHash(n.sessions[i], user));
        SlackWith(n, i, SetPubHash(n.sessions[i], user), p);
        EnrollSlack(n0, i, user, p);
        if !m.token.MalformedToken? {
          var n1 := Enroll(n0, i, user);
          PublishTokenSlack(cfg, n1, user, m.token, p);
          var n2 := PublishToken(cfg, n1, user, m.token);
          LoginBatchOk(cfg, user);
          SlackRequest(n2, LoginBatch(cfg, user), p);
          var n3 := Request(n2, LoginBatch(cfg, user)).(fifo := n2.fifo + [user]);
          SlackSame(Request(n2, LoginBatch(cfg, user)), n3, p);
          SlackSend(n3, i, Entry(Parcel(user, LoginAck(true)), false), p);
        }
      }
    }
  }

  lemma DispatchEffect(cfg: Config, n: Node, q: Parcel, p: Parcel)
    requires NodeOk(n) && InRange(n)
    ensures var n1 := Dispatch(cfg, n, q); Requested(cfg, n, n1) && Slack(n1, p) == Slack(n, p)
  {
    hide Sum, Held;
    if q.addr !in n.index {
      StoreChatMsgEffect(cfg, Accept(n, q), [q], q.addr, p);
      RequestedThen(cfg, n, Accept(n, q), Dispatch(cfg, n, q));
    } else {
      assert EntryOk(n, q.addr) && SessionOk(n.sessions[n.index[q.addr]]);
      SlackAcceptAndSend(n, n.index[q.addr], q, p);
    }
  }

  lemma OnAppChatMsgEffect(cfg: Config, n: Node, i: nat, m: AppMsg, p: Parcel)
    requires m.ChatMsg? && NodeOk(n) && InRange(n) && i < |n.sessions|
    ensures Requested(cfg, n, OnAppChatMsg(cfg, n, i, m).0)
    ensures Slack(OnAppChatMsg(cfg, n, i, m).0, p) == Slack(n, p)
  {
    hide Sum, Held, Slack, PushedByBatch, Requested, Send, Kept;
    if m.to.Some? {
      var from := n.sessions[i].pubHash;
      var q := ChatParcel(cfg, from, m);
      var n1 := Dispatch(cfg, n, q);
      DispatchEffect(cfg, n, q, p);
      if m.postId.Some? && m.id.Some? {
        SlackSend(n1, i, Entry(Parcel(from, ServerAck(m.to.value, from, m.postId.value, m.id.value)), false), p);
      }
      RequestedLike(cfg, n, n1, n, OnAppChatMsg(cfg, n, i, m).0);
    } else {
      RequestedNone(cfg, n, OnAppChatMsg(cfg, n, i, m).0);
    }
  }

  lemma OnAppPresenceEffect(cfg: Config, n: Node, i: nat, m: AppMsg, p: Parcel)
    requires m.PresenceMsg? && i < |n.sessions| && InRange(n)
    ensures Requested(cfg, n, OnAppPresence(cfg, n, i, m).0)
    ensures Slack(OnAppPresence(cfg, n, i, m).0, p) == Slack(n, p)
  {
    hide Sum, Held;
    if m.to.Some? && ChatTo(cfg, m.to.value) !in n.index {
      var to := ChatTo(cfg, m.to.value);
      var b := [Publish(PresenceChannel(to), PresenceText(n.sessions[i].pubHash, to, m.body))];
      PlainBatchOk(cfg, b);
      SlackRequest(n, b, p);
      RequestedOne(cfg, n, Request(n, b), b);
    } else {
      RequestedNone(cfg, n, OnAppPresence(cfg, n, i, m).0);
      if m.to.Some? {
        var to := ChatTo(cfg, m.to.value);
        var text := PresenceText(n.sessions[i].pubHash, to, m.body);
        SlackSend(n, n.index[to], Entry(Parcel(to, Relayed(text)), false), p);
      }
    }
  }

  lemma OnAppPublishRequests(cfg: Config, n: Node, i: nat, m: AppMsg)
    requires m.PublishMsg? && i < |n.sessions|
    ensures Requested(cfg, n, OnAppPublish(cfg, n, i, m).0)
  {
    var n1 := OnAppPublish(cfg, n, i, m).0;
    if m.user.Some? && m.key.Some? && MakeHexDigest(cfg.hash, m.user.value, m.key.value) != "" && m.hasPost {
      var b := [HSet(m.newId), Publish(cfg.postsChannel, PostText(m.newId))];
      PlainBatchOk(cfg, b);
      RequestedOne(cfg, n, n1, b);
    } else {
      RequestedNone(cfg, n, n1);
    }
  }

  lemma OnAppPublishSlack(cfg: Config, n: Node, i: nat, m: AppMsg, p: Parcel)
    requires m.PublishMsg? && i < |n.sessions|
    ensures Slack(OnAppPublish(cfg, n, i, m).0, p) == Slack(n, p)
  {
    hide Sum, Held, Slack, PushedByBatch, CmdTags, BatchOk, Kept, Send;
    if m.user.Some? && m.key.Some? {
      var me := n.sessions[i].pubHash;
      if MakeHexDigest(cfg.hash, m.user.value, m.key.value) == "" {
        SlackAcceptAndSend(n, i, Parcel(me, PublishAck(false, "")), p);
      } else if m.hasPost {
        var b := [HSet(m.newId), Publish(cfg.postsChannel, PostText(m.newId))];
        PlainBatchOk(cfg, b);
        SlackRequest(n, b, p);
        SlackAcceptAndSend(Request(n, b), i, Parcel(me, PublishAck(true, m.newId)), p);
      }
    }
  }

  lemma OnAppEffect(cfg: Config, n: Node, i: nat, m: AppMsg, p: Parcel)
    requires NodeOk(n) && InRange(n) && i < |n.sessions|
    ensures var n1 := OnApp(cfg, n, i, m).0; Requested(cfg, n, n1) && Slack(n1, p) == Slack(n, p)
  {
    hide Sum, Held;
    if LoggedIn(n.sessions[i]) {
      match m {
        case ChatMsg(_, _, _, _) => OnAppChatMsgEffect(cfg, n, i, m, p);
        case PresenceMsg(_, _) => OnAppPresenceEffect(cfg, n, i, m, p);
        case PublishMsg(_, _, _, _) =>
          OnAppPublishRequests(cfg, n, i, m);
          OnAppPublishSlack(cfg, n, i, m, p);
        case _ =>
      }
    } else if m.LoginMsg? {
      OnAppLoginRequests(cfg, n, i, m);
      OnAppLoginSlack(cfg, n, i, m, p);
    }
  }

  lemma OnReadEffect(cfg: Config, n: Node, i: nat, m: AppMsg, p: Parcel)
    requires NodeOk(n) && InRange(n) && i < |n.sessions|
    ensures var n1 := OnRead(cfg, n, i, m); Requested(cfg, n, n1) && Slack(n1, p) == Slack(n, p)
  {
    hide Sum, Held;
    OnAppShape(cfg, n, i, m);
    OnAppEffect(cfg, n, i, m, p);
    var (n1, ev) := OnApp(cfg, n, i, m);
    HeldSame(n1.sessions[i], Shutdown(n1.sessions[i]));
    SlackWith(n1, i, Shutdown(n1.sessions[i]), p);
    var n2 := HandleEv(n1, i, ev);
    HeldSame(n2.sessions[i], ReadDone(DoRead(n2.sessions[i])));
    SlackWith(n2, i, ReadDone(DoRead(n2.sessions[i])), p);
    RequestedLike(cfg, n, n1, n, OnRead(cfg, n, i, m));
  }

  /** What goes back to Redis when the session `s` ends. */
  function Farewell(cfg: Config, s: Session): seq<Batch> {
    if !LoggedIn(s) then []
    else if Kept(s.queue) == [] then [LeaveBatch(cfg, s.pubHash)]
    else [LeaveBatch(cfg, s.pubHash), StoreBatch(cfg, Kept(s.queue), s.pubHash)]
  }

  /** At the end of a session exactly its persistent messages go back to Redis, in order, after the
      subscriptions of its user have been given up; the messages of an overridden session stay. */
  lemma OnReadErrorSends(cfg: Config, n: Node, i: nat)
    requires NodeOk(n) && i < |n.sessions| && Open(n.sessions[i])
    ensures var n1 := OnReadError(cfg, n, i);
      && n1.cmds == n.cmds + Farewell(cfg, n.sessions[i])
      && n1.fifo == n.fifo && n1.accepted == n.accepted
  {
    assert SlotOk(n, i);
  }

  lemma OnReadErrorRequests(cfg: Config, n: Node, i: nat)
    requires NodeOk(n) && i < |n.sessions| && Open(n.sessions[i])
    ensures Requested(cfg, n, OnReadError(cfg, n, i))
  {
    var s := n.sessions[i];
    var n1 := OnReadError(cfg, n, i);
    OnReadErrorSends(cfg, n, i);
    if LoggedIn(s) {
      assert SlotOk(n, i) && EntryOk(n, s.pubHash);
      var b := LeaveBatch(cfg, s.pubHash);
      LeaveBatchOk(cfg, s.pubHash);
      if Kept(s.queue) == [] {
        RequestedOne(cfg, n, n1, b);
      } else {
        StoreBatchOk(cfg, Kept(s.queue), s.pubHash);
        RequestedTwo(cfg, n, n1, b, StoreBatch(cfg, Kept(s.queue), s.pubHash));
      }
    } else {
      RequestedNone(cfg, n, n1);
    }
  }

  lemma FinishHeld(s: Session, p: Parcel)
    ensures Held(ReadDone(Sessions.Finish(s)))[p] + (if LoggedIn(s) then multiset(Kept(s.queue))[p] else 0) == Held(s)[p]
  {
  }

  lemma OnReadErrorSlack(cfg: Config, n: Node, i: nat, p: Parcel)
    requires NodeOk(n) && i < |n.sessions| && Open(n.sessions[i])
    ensures Slack(OnReadError(cfg, n, i), p) == Slack(n, p)
  {
    hide Sum, Held;
    var s := n.sessions[i];
    var t := ReadDone(Sessions.Finish(s));
    var n1 := OnReadError(cfg, n, i);
    OnReadErrorShape(cfg, n, i);
    OnReadErrorSends(cfg, n, i);
    SlackWith(n, i, t, p);
    FinishHeld(s, p);
    if LoggedIn(s) {
      assert SlotOk(n, i) && EntryOk(n, s.pubHash);
      var b := LeaveBatch(cfg, s.pubHash);
      LeaveBatchOk(cfg, s.pubHash);
      SumAppend(PushedByBatch, n.cmds, b, p);
      if Kept(s.queue) == [] {
        assert n1.cmds == n.cmds + [b];
      } else {
        var c := StoreBatch(cfg, Kept(s.queue), s.pubHash);
        StoreBatchOk(cfg, Kept(s.queue), s.pubHash);
        SumAppend(PushedByBatch, n.cmds + [b], c, p);
        assert n1.cmds == n.cmds + [b] + [c];
      }
    } else {
      assert n1.cmds == n.cmds;
    }
  }

  lemma OnRunEffect(cfg: Config, n: Node, p: Parcel)
    ensures Requested(cfg, n, OnRun(n)) && Slack(OnRun(n), p) == Slack(n, p)
  {
    SumAppend(Held, n.sessions, DoRead(FRESH), p);
  }

  lemma OnWrittenEffect(cfg: Config, n: Node, i: nat, p: Parcel)
    requires NodeOk(n) && i < |n.sessions| && Open(n.sessions[i]) && n.sessions[i].inFlight != []
    ensures Requested(cfg, n, OnWritten(n, i)) && Slack(OnWritten(n, i), p) == Slack(n, p)
  {
    hide Sum, Held;
    OnWriteOkHeld(n.sessions[i], p);
    SlackWith(n, i, OnWriteOk(n.sessions[i]), p);
  }

  lemma OnDbChatMsgEffect(cfg: Config, n: Node, user: string, ps: seq<Parcel>, p: Parcel)
    requires NodeOk(n) && InRange(n)
    ensures var n1 := OnDbChatMsg(cfg, n, user, ps);
      Requested(cfg, n, n1) && Slack(n1, p) == Slack(n, p) + multiset(ps)[p]
  {
    hide Sum, Held;
    if user !in n.index {
      StoreChatMsgEffect(cfg, n, ps, user, p);
    } else {
      assert EntryOk(n, user) && SessionOk(n.sessions[n.index[user]]);
      SendAllHeld(n.sessions[n.index[user]], ps, p);
      SlackWith(n, n.index[user], SendAll(n.sessions[n.index[user]], ps), p);
    }
  }

  /** Handling a notification or a confirmation. */
  lemma OnPushEffect(cfg: Config, n: Node, channel: string, payload: Payload, p: Parcel)
    requires NodeOk(n) && InRange(n) && ReplyOk(cfg, Push(channel, payload))
    ensures var n1 := OnPush(cfg, n, channel, payload); Requested(cfg, n, n1) && Slack(n1, p) == Slack(n, p)
  {
    hide Sum, Held;
    if payload == Keyspace("rpush") {
      var user := channel[|NotifyPrefix(cfg)|..];
      var tag := PushedValue(cfg, user);
      var b := FetchBatch(cfg, user, tag);
      FetchBatchOk(cfg, user, tag);
      SlackRequest(n, b, p);
      RequestedOne(cfg, n, OnPush(cfg, n, channel, payload), b);
    } else if PRESENCE <= channel && Rest(PRESENCE, channel) in n.index {
      var user := Rest(PRESENCE, channel);
      assert EntryOk(n, user);
      SlackSend(n, n.index[user], Entry(Parcel(user, Relayed(payload)), false), p);
    }
  }

  lemma ShutdownAllEffect(cfg: Config, n: Node, p: Parcel)
    ensures Requested(cfg, n, ShutdownAll(n)) && Slack(ShutdownAll(n), p) == Slack(n, p)
  {
    var n1 := ShutdownAll(n);
    PlainBatchOk(cfg, [Quit]);
    RequestedOne(cfg, n, n1, [Quit]);
    SumAppend(PushedByBatch, n.cmds, [Quit], p);
    SameHeld(n.sessions, n1.sessions, p);
  }

  lemma {:induction false} SameHeld(ss: seq<Session>, tt: seq<Session>, p: Parcel)
    requires |ss| == |tt|
    requires forall i :: 0 <= i < |ss| ==> tt[i].queue == ss[i].queue && tt[i].written == ss[i].written
    ensures Sum(Held, ss)[p] == Sum(Held, tt)[p]
  {
    if ss != [] {
      SameHeld(ss[1..], tt[1..], p);
    }
  }
}
