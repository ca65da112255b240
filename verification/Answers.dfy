/** What the clients and Redis are told: the answer to every message of a client and to every fetch, spelled
    out entry by entry and command by command. Sessions are compared by all that they have been given to
    send, which by Safety.WriteDiscipline is what they have written and what waits in their queues. */
module Answers {
  import opened Prelude
  import opened Crypto
  import opened Messages
  import opened Sessions
  import opened Redis
  import opened Nodes
  import opened NodeInvariant
  import opened Systems
  import opened Wire
  import opened Safety

  /** The handler of a read is what the command does, and then a shutdown if the command failed. */
  lemma ReadEnds(cfg: Config, n: Node, i: nat, m: AppMsg, k: nat)
    requires i < |n.sessions| && k < |n.sessions| && InRange(n)
    ensures var (n1, ev), n2 := OnApp(cfg, n, i, m), OnRead(cfg, n, i, m);
      && |n2.sessions| == |n1.sessions| == |n.sessions|
      && n2.cmds == n1.cmds && n2.index == n1.index && n2.fifo == n1.fifo && n2.accepted == n1.accepted
      && n2.sessions[k].sent == n1.sessions[k].sent && n2.sessions[k].pubHash == n1.sessions[k].pubHash
      && (n2.sessions[k].closing <==> n1.sessions[k].closing || (k == i && (ev.LoginFail? || ev.Unknown?)))
  {
    OnAppShape(cfg, n, i, m);
    hide OnApp;
  }

  /** Either the message is the only new thing for Redis, or the only new thing in the session of its
      addressee. */
  lemma DispatchPlaces(cfg: Config, n: Node, p: Parcel, k: nat)
    requires NodeOk(n) && InRange(n) && k < |n.sessions|
    ensures var n1 := Dispatch(cfg, n, p);
      && |n1.sessions| == |n.sessions| && n1.index == n.index && n1.fifo == n.fifo && n1.accepted == n.accepted + [p]
      && n1.cmds == n.cmds + (if p.addr in n.index then [] else
           [[Incr, RPush(cfg.chatPrefix + p.addr, [p]), Expire(cfg.chatPrefix + p.addr),
             Publish(cfg.notifyChannel, NoticeText(p))]])
      && n1.sessions[k].sent == n.sessions[k].sent
           + (if p.addr in n.index && n.index[p.addr] == k then [Entry(p, true)] else [])
      && n1.sessions[k].closing == n.sessions[k].closing && n1.sessions[k].pubHash == n.sessions[k].pubHash
  {
    hide NodeOk, Send;
    if p.addr in n.index {
      MappedAlive(n, p.addr);
      SendAppends(n.sessions[n.index[p.addr]], Entry(p, true));
    }
  }

  // Messages of clients --------------------------------------------------------------------------

  /** The handler of a chat message: the message is the last thing pushed towards the list of its addressee, or
      stands in the session of its addressee before the acknowledgement, also when somebody writes to
      himself; only then comes the acknowledgement, exactly if the message has a post and an id. */
  lemma AckComesAfterPlacement(cfg: Config, n: Node, i: nat, m: AppMsg, k: nat)
    requires m.ChatMsg? && m.to.Some? && NodeOk(n) && InRange(n) && i < |n.sessions| && k < |n.sessions|
    ensures var (n1, ev) := OnAppChatMsg(cfg, n, i, m);
      var from := n.sessions[i].pubHash;
      var to := if m.to.value == "chat_admin_id_key_0" then cfg.chatAdminId else m.to.value;
      var p := Parcel(to, Chat(from, to, m.postId, m.id, m.body));
      var full := m.postId.Some? && m.id.Some?;
      && ev == (if full then ChatMsgOk else Unknown)
      && |n1.sessions| == |n.sessions| && n1.index == n.index && n1.fifo == n.fifo && n1.accepted == n.accepted + [p]
      && n1.cmds == n.cmds + (if to in n.index then [] else
           [[Incr, RPush(cfg.chatPrefix + to, [p]), Expire(cfg.chatPrefix + to),
             Publish(cfg.notifyChannel, NoticeText(p))]])
      && n1.sessions[k].sent == n.sessions[k].sent
           + (if to in n.index && n.index[to] == k then [Entry(p, true)] else [])
           + (if k == i && full then
                [Entry(Parcel(from, ServerAck(m.to.value, from, m.postId.value, m.id.value)), false)] else [])
      && n1.sessions[k].closing == n.sessions[k].closing && n1.sessions[k].pubHash == n.sessions[k].pubHash
  {
    hide NodeOk, Dispatch, Send;
    var from := n.sessions[i].pubHash;
    var p := ChatParcel(cfg, from, m);
    DispatchPlaces(cfg, n, p, k);
    if m.postId.Some? && m.id.Some? {
      SendAppends(Dispatch(cfg, n, p).sessions[i],
                  Entry(Parcel(from, ServerAck(m.to.value, from, m.postId.value, m.id.value)), false));
    }
  }

  /** A chat message, with the admin's id in place of the admin's key and the sender's id in it, goes to the
      session of its addressee or else to the addressee's list and the notifier. Then its sender gets an
      acknowledgement that names the addressee as the sender did, provided that the message has a post and an
      id; otherwise the sender is disconnected without one. Nobody else is told anything. */
  lemma ChatAnswered(cfg: Config, n: Node, i: nat, m: AppMsg, k: nat)
    requires m.ChatMsg? && NodeOk(n) && InRange(n) && i < |n.sessions| && k < |n.sessions| && LoggedIn(n.sessions[i])
    ensures var n1 := OnRead(cfg, n, i, m);
      var from := n.sessions[i].pubHash;
      var full := m.to.Some? && m.postId.Some? && m.id.Some?;
      && |n1.sessions| == |n.sessions| && n1.index == n.index && n1.fifo == n.fifo
      && n1.sessions[k].pubHash == n.sessions[k].pubHash
      && (n1.sessions[k].closing <==> n.sessions[k].closing || (k == i && !full))
      && (m.to.None? ==>
            n1.accepted == n.accepted && n1.cmds == n.cmds && n1.sessions[k].sent == n.sessions[k].sent)
      && (m.to.Some? ==>
            var to := if m.to.value == "chat_admin_id_key_0" then cfg.chatAdminId else m.to.value;
            var p := Parcel(to, Chat(from, to, m.postId, m.id, m.body));
            && n1.accepted == n.accepted + [p]
            && n1.cmds == n.cmds + (if to in n.index then [] else
                 [[Incr, RPush(cfg.chatPrefix + to, [p]), Expire(cfg.chatPrefix + to),
                   Publish(cfg.notifyChannel, NoticeText(p))]])
            && n1.sessions[k].sent == n.sessions[k].sent
                 + (if to in n.index && n.index[to] == k then [Entry(p, true)] else [])
                 + (if k == i && full then
                      [Entry(Parcel(from, ServerAck(m.to.value, from, m.postId.value, m.id.value)), false)] else []))
  {
    hide NodeOk, Dispatch, Send, OnRead;
    ReadEnds(cfg, n, i, m, k);
    if m.to.Some? {
      AckComesAfterPlacement(cfg, n, i, m, k);
      hide OnAppChatMsg;
    }
  }

  /** A presence message goes to the session of its addressee, or else to the addressee's channel. */
  lemma PresenceAnswered(cfg: Config, n: Node, i: nat, m: AppMsg, k: nat)
    requires m.PresenceMsg? && NodeOk(n) && InRange(n) && i < |n.sessions| && k < |n.sessions| && LoggedIn(n.sessions[i])
    ensures var n1 := OnRead(cfg, n, i, m);
      var from := n.sessions[i].pubHash;
      && |n1.sessions| == |n.sessions| && n1.index == n.index && n1.fifo == n.fifo && n1.accepted == n.accepted
      && n1.sessions[k].pubHash == n.sessions[k].pubHash
      && (n1.sessions[k].closing <==> n.sessions[k].closing || (k == i && m.to.None?))
      && (m.to.None? ==> n1.cmds == n.cmds && n1.sessions[k].sent == n.sessions[k].sent)
      && (m.to.Some? ==>
            var to := if m.to.value == "chat_admin_id_key_0" then cfg.chatAdminId else m.to.value;
            var text := PresenceText(from, to, m.body);
            && n1.cmds == n.cmds + (if to in n.index then [] else [[Publish("pc:" + to, text)]])
            && n1.sessions[k].sent == n.sessions[k].sent
                 + (if to in n.index && n.index[to] == k then [Entry(Parcel(to, Relayed(text)), false)] else []))
  {
    hide NodeOk, Send, OnRead;
    ReadEnds(cfg, n, i, m, k);
    if m.to.Some? {
      var to := ChatTo(cfg, m.to.value);
      if to in n.index {
        MappedAlive(n, to);
        SendAppends(n.sessions[n.index[to]], Entry(Parcel(to, Relayed(PresenceText(n.sessions[i].pubHash, to, m.body))), false));
      }
    }
  }

  lemma MappedAlive(n: Node, u: string)
    requires NodeOk(n) && u in n.index
    ensures n.index[u] < |n.sessions| && Alive(n.sessions[n.index[u]]) && n.sessions[n.index[u]].pubHash == u
  {
    assert EntryOk(n, u) && SessionOk(n.sessions[n.index[u]]);
  }

  /** A publication is stored, announced and acknowledged with the id of the new post; with wrong credentials it
      is refused, and without a post, a user or a key its sender is disconnected. The acknowledgement is
      persistent in both cases. */
  lemma PublishAnswered(cfg: Config, n: Node, i: nat, m: AppMsg, k: nat)
    requires m.PublishMsg? && NodeOk(n) && InRange(n) && i < |n.sessions| && k < |n.sessions| && LoggedIn(n.sessions[i])
    ensures var n1 := OnRead(cfg, n, i, m);
      var me := n.sessions[i].pubHash;
      var named := m.user.Some? && m.key.Some?;
      var refused := named && (m.user.value == "" || |m.key.value| != 32);
      var stored := named && !refused && m.hasPost;
      var acks := if refused then [Parcel(me, PublishAck(false, ""))] else if stored then [Parcel(me, PublishAck(true, m.newId))] else [];
      && |n1.sessions| == |n.sessions| && n1.index == n.index && n1.fifo == n.fifo
      && n1.accepted == n.accepted + acks
      && n1.sessions[k].pubHash == n.sessions[k].pubHash
      && n1.cmds == n.cmds + (if stored then [[HSet(m.newId), Publish(cfg.postsChannel, PostText(m.newId))]] else [])
      && n1.sessions[k].sent == n.sessions[k].sent + (if k == i && acks != [] then [Entry(acks[0], true)] else [])
      && (n1.sessions[k].closing <==> n.sessions[k].closing || (k == i && acks == []))
  {
    hide NodeOk, Send, OnRead, MakeHexDigest;
    ReadEnds(cfg, n, i, m, k);
    var me := n.sessions[i].pubHash;
    SendAppends(n.sessions[i], Entry(Parcel(me, PublishAck(false, "")), true));
    SendAppends(n.sessions[i], Entry(Parcel(me, PublishAck(true, m.newId)), true));
  }

  /** A login with user and key gives the session the user id that Crypto.UserIdIsHash describes and puts it in
      the map; the user's older session loses its id and is disconnected. Unless the token is malformed, the
      token is published and stored, the node subscribes and asks for the user's list, and the client is told
      so. A login that cannot be hashed is refused. A refused, malformed or incomplete login disconnects. */
  lemma LoginAnswered(cfg: Config, n: Node, i: nat, m: AppMsg, k: nat)
    requires m.LoginMsg? && NodeOk(n) && InRange(n) && i < |n.sessions| && k < |n.sessions|
    requires !LoggedIn(n.sessions[i]) && Open(n.sessions[i])
    ensures var n1 := OnRead(cfg, n, i, m);
      var named := m.user.Some? && m.key.Some?;
      var refused := named && (m.user.value == "" || |m.key.value| != 32);
      var entered := named && !refused;
      var u := if entered then MakeHexDigest(cfg.hash, m.user.value, m.key.value) else "";
      var answered := entered && !m.token.MalformedToken?;
      var overridden := entered && u in n.index && n.index[u] == k;
      && |n1.sessions| == |n.sessions| && n1.accepted == n.accepted
      && n1.index == (if entered then n.index[u := i] else n.index)
      && n1.sessions[k].pubHash == (if k == i then u else if overridden then "" else n.sessions[k].pubHash)
      && (n1.sessions[k].closing <==> n.sessions[k].closing || (k == i && !answered) || overridden)
      && n1.fifo == n.fifo + (if answered then [u] else [])
      && n1.cmds == n.cmds
           + (if answered && m.token.TextToken? then [[Publish(cfg.notifyChannel, TokenText(u, m.token.text)), HSet(u)]] else [])
           + (if answered then
                [[Subscribe("__keyspace@0__:" + cfg.chatPrefix + u), Subscribe("pc:" + u),
                  LRange(cfg.chatPrefix + u, u), Del(cfg.chatPrefix + u)]] else [])
      && n1.sessions[k].sent == n.sessions[k].sent
           + (if k == i && refused then [Entry(Parcel("", LoginAck(false)), false)] else [])
           + (if k == i && answered then [Entry(Parcel(u, LoginAck(true)), false)] else [])
  {
    hide NodeOk, Send, OnRead, MakeHexDigest, OnAppLogin;
    ReadEnds(cfg, n, i, m, k);
    if m.user.Some? && m.key.Some? {
      if m.user.value == "" || |m.key.value| != 32 {
        LoginRefused(cfg, n, i, m);
      } else {
        LoginEntered(cfg, n, i, m, k);
      }
    } else {
      LoginIncomplete(cfg, n, i, m);
    }
  }

  lemma LoginIncomplete(cfg: Config, n: Node, i: nat, m: AppMsg)
    requires m.LoginMsg? && InRange(n) && i < |n.sessions| && (m.user.None? || m.key.None?)
    ensures OnAppLogin(cfg, n, i, m) == (n, Unknown)
  {
  }

  lemma LoginRefused(cfg: Config, n: Node, i: nat, m: AppMsg)
    requires m.LoginMsg? && InRange(n) && i < |n.sessions| && m.user.Some? && m.key.Some?
    requires m.user.value == "" || |m.key.value| != 32
    ensures var (n1, ev) := OnAppLogin(cfg, n, i, m);
      var e := Entry(Parcel("", LoginAck(false)), false);
      && ev == LoginFail && |n1.sessions| == |n.sessions|
      && n1 == n.(sessions := n.sessions[i := n1.sessions[i]])
      && n1.sessions[i].sent == n.sessions[i].sent + [e]
      && n1.sessions[i].closing == n.sessions[i].closing && n1.sessions[i].pubHash == n.sessions[i].pubHash
  {
    SendAppends(n.sessions[i], Entry(Parcel("", LoginAck(false)), false));
    hide Send;
  }

  lemma LoginEntered(cfg: Config, n: Node, i: nat, m: AppMsg, k: nat)
    requires m.LoginMsg? && NodeOk(n) && InRange(n) && i < |n.sessions| && k < |n.sessions|
    requires !LoggedIn(n.sessions[i]) && Open(n.sessions[i])
    requires m.user.Some? && m.key.Some? && m.user.value != "" && |m.key.value| == 32
    ensures var (n1, ev) := OnAppLogin(cfg, n, i, m);
      var u := MakeHexDigest(cfg.hash, m.user.value, m.key.value);
      var answered := !m.token.MalformedToken?;
      var overridden := u in n.index && n.index[u] == k;
      && ev == (if answered then LoginOk else Unknown)
      && |n1.sessions| == |n.sessions| && n1.accepted == n.accepted && n1.index == n.index[u := i]
      && n1.sessions[k].pubHash == (if k == i then u else if overridden then "" else n.sessions[k].pubHash)
      && (n1.sessions[k].closing <==> n.sessions[k].closing || overridden)
      && n1.fifo == n.fifo + (if answered then [u] else [])
      && n1.cmds == n.cmds
           + (if answered && m.token.TextToken? then [[Publish(cfg.notifyChannel, TokenText(u, m.token.text)), HSet(u)]] else [])
           + (if answered then
                [[Subscribe("__keyspace@0__:" + cfg.chatPrefix + u), Subscribe("pc:" + u),
                  LRange(cfg.chatPrefix + u, u), Del(cfg.chatPrefix + u)]] else [])
      && n1.sessions[k].sent == n.sessions[k].sent
           + (if k == i && answered then [Entry(Parcel(u, LoginAck(true)), false)] else [])
  {
    hide NodeOk, Send, MakeHexDigest, Enroll, IsDigest;
    var u := MakeHexDigest(cfg.hash, m.user.value, m.key.value);
    assert u != "";
    EnrollShape(n, i, u);
    var n1 := Enroll(With(n, i, SetPubHash(n.sessions[i], u)), i, u);
    SendAppends(n1.sessions[i], Entry(Parcel(u, LoginAck(true)), false));
  }

  /** An accepted connection is one more session, which is nobody's, has been told nothing and is being read. */
  lemma ArrivalAnswered(n: Node)
    ensures var n1 := OnRun(n);
      && |n1.sessions| == |n.sessions| + 1 && n1.sessions[..|n.sessions|] == n.sessions
      && n1 == n.(sessions := n1.sessions, live := n.live + 1)
      && var s := n1.sessions[|n.sessions|];
         s.pubHash == "" && s.sent == [] && s.queue == [] && !s.closing && s.readOps == 1 && s.pongs == 0
  {
  }

  /** Everything else is not understood: it disconnects its sender, and nobody is told anything. */
  lemma OtherAnswered(cfg: Config, n: Node, i: nat, m: AppMsg, k: nat)
    requires InRange(n) && i < |n.sessions| && k < |n.sessions|
    requires if LoggedIn(n.sessions[i]) then m.LoginMsg? || m.OtherMsg? else !m.LoginMsg?
    ensures var n1 := OnRead(cfg, n, i, m);
      && |n1.sessions| == |n.sessions| && n1.index == n.index && n1.fifo == n.fifo
      && n1.accepted == n.accepted && n1.cmds == n.cmds
      && n1.sessions[k].sent == n.sessions[k].sent && n1.sessions[k].pubHash == n.sessions[k].pubHash
      && (n1.sessions[k].closing <==> n.sessions[k].closing || k == i)
  {
    hide OnRead;
    ReadEnds(cfg, n, i, m, k);
  }

  // Redis ----------------------------------------------------------------------------------------

  /** What a store does: the messages stand in their order behind those that were in the list, and the
      notifier is told the last of them. */
  lemma StoreExecuted(cfg: Config, r: Store, ps: seq<Parcel>, to: string)
    requires ps != []
    ensures var r1, key := ExecBatch(r, StoreBatch(cfg, ps, to)), cfg.chatPrefix + to;
      && r1.lists == r.lists[key := ListAt(r.lists, key) + ps]
      && r1.subs == r.subs && r1.open == r.open
      && r1.inbox == r.inbox
           + (if "__keyspace@0__:" + key in r.subs then
                [Push("__keyspace@0__:" + key, Keyspace("rpush")), Push("__keyspace@0__:" + key, Keyspace("expire"))] else [])
           + (if cfg.notifyChannel in r.subs then [Push(cfg.notifyChannel, NoticeText(ps[|ps| - 1]))] else [])
  {
    var key := ListKey(cfg, to);
    var b := StoreBatch(cfg, ps, to);
    var r1 := Exec(r, RPush(key, ps));
    var r2 := Exec(r1, Expire(key));
    assert b[1..][1..] == b[2..] && b[2..][1..] == b[3..] && b[3..][1..] == [];
    assert ExecBatch(r, b) == ExecBatch(r, b[1..]) == ExecBatch(r1, b[2..]) == ExecBatch(r2, b[3..]) == Exec(r2, b[3]);
  }

  /** Storing and fetching is a round trip: a fetch that follows is answered with what the list held before
      and then the stored messages, in order, and leaves nothing in the list. */
  lemma StoredThenFetched(cfg: Config, r: Store, ps: seq<Parcel>, to: string, tag: string)
    requires ps != []
    ensures var key := cfg.chatPrefix + to;
      var r2 := ExecBatch(ExecBatch(r, StoreBatch(cfg, ps, to)), FetchBatch(cfg, to, tag));
      && LRangeReply(tag, key, ListAt(r.lists, key) + ps) in r2.inbox
      && ListAt(r2.lists, key) == []
  {
    hide StoreBatch;
    StoreExecuted(cfg, r, ps, to);
    var r1, key := ExecBatch(r, StoreBatch(cfg, ps, to)), ListKey(cfg, to);
    FetchExecuted(cfg, r1, to, tag);
  }

  lemma FetchExecuted(cfg: Config, r: Store, to: string, tag: string)
    ensures var r1, key := ExecBatch(r, FetchBatch(cfg, to, tag)), cfg.chatPrefix + to;
      && LRangeReply(tag, key, ListAt(r.lists, key)) in r1.inbox
      && r1.lists == r.lists - {key}
  {
    var key := ListKey(cfg, to);
    var b := FetchBatch(cfg, to, tag);
    var r1 := Exec(r, LRange(key, tag));
    assert b[1..] == [Del(key)] && b[1..][1..] == [];
    assert ExecBatch(r, b) == ExecBatch(r1, b[1..]) == Exec(r1, Del(key));
    assert r1.inbox[|r.inbox|] == LRangeReply(tag, key, ListAt(r.lists, key));
  }

  /** A fetched range: all of it is sent, in order and persistently, to the session of the tag, or else it is
      stored in the same order under the tag; the other sessions are told nothing. */
  lemma FetchAnswered(cfg: Config, s: System, k: nat)
    requires SystemOk(cfg, s) && Enabled(s, RedisReplies) && s.store.inbox[0].LRangeReply? && k < |s.node.sessions|
    ensures var n, n1, x := s.node, Next(cfg, s, RedisReplies).node, s.store.inbox[0];
      && |n1.sessions| == |n.sessions| && n1.index == n.index
      && n1.cmds == n.cmds + (if x.tag in n.index || x.parcels == [] then [] else
           [[Incr, RPush(cfg.chatPrefix + x.tag, x.parcels), Expire(cfg.chatPrefix + x.tag),
             Publish(cfg.notifyChannel, NoticeText(x.parcels[|x.parcels| - 1]))]])
      && Grows(n.sessions[k], n1.sessions[k], if x.tag in n.index && n.index[x.tag] == k then x.parcels else [])
  {
    hide OnDbChatMsg, QueueOk, StoreOk, Correlated, NodeOk, Grows;
    FetchReplyOk(cfg, s);
    RangeAnswered(cfg, s.node, s.store.inbox[0].tag, s.store.inbox[0].parcels, k);
  }

  lemma RangeAnswered(cfg: Config, n: Node, tag: string, ps: seq<Parcel>, k: nat)
    requires NodeOk(n) && InRange(n) && k < |n.sessions|
    ensures var n1 := OnDbChatMsg(cfg, n, tag, ps);
      && |n1.sessions| == |n.sessions| && n1.index == n.index
      && n1.cmds == n.cmds + (if tag in n.index || ps == [] then [] else
           [[Incr, RPush(cfg.chatPrefix + tag, ps), Expire(cfg.chatPrefix + tag),
             Publish(cfg.notifyChannel, NoticeText(ps[|ps| - 1]))]])
      && Grows(n.sessions[k], n1.sessions[k], if tag in n.index && n.index[tag] == k then ps else [])
  {
    hide SendAll, NodeOk;
    if tag in n.index {
      MappedAlive(n, tag);
      SendAllInOrder(n.sessions[n.index[tag]], ps);
    }
  }

  /** A notification that messages have been stored for `u` makes the node ask for them once, and remember under
      which string; every other notification about a list, and every text that is not presence, leaves the
      sessions alone. */
  lemma NoticeAnswered(cfg: Config, n: Node, channel: string, payload: Payload, u: string)
    requires InRange(n) && u != ""
    ensures var key := cfg.chatPrefix + u;
      var tag := if cfg.pushed.QueuesUserId? then u else key;
      OnReply(cfg, n, Push("__keyspace@0__:" + key, Keyspace("rpush")))
      == n.(cmds := n.cmds + [[LRange(key, tag), Del(key)]], fifo := n.fifo + [tag])
    ensures payload != Keyspace("rpush") && !("pc:" <= channel) ==> OnReply(cfg, n, Push(channel, payload)) == n
    ensures OnReply(cfg, n, Confirm(channel)) == n
  {
    NotifyChannelOfKey(cfg, u);
    Unprefix(NotifyPrefix(cfg), u);
  }

  // Ends -----------------------------------------------------------------------------------------

  /** The end of a session that has its user: the node unsubscribes, and then stores what the queue holds of
      persistent messages, if anything, in order. The end of any other session says nothing to Redis. */
  lemma EndAnswered(cfg: Config, n: Node, i: nat)
    requires NodeOk(n) && i < |n.sessions| && Open(n.sessions[i])
    ensures var s, n1 := n.sessions[i], OnReadError(cfg, n, i);
      var u, ps := s.pubHash, Kept(s.queue);
      n1.cmds == n.cmds + if u == "" then [] else
        [[Unsubscribe("__keyspace@0__:" + cfg.chatPrefix + u), Unsubscribe("pc:" + u)]]
        + if ps == [] then [] else
            [[Incr, RPush(cfg.chatPrefix + u, ps), Expire(cfg.chatPrefix + u),
              Publish(cfg.notifyChannel, NoticeText(ps[|ps| - 1]))]]
  {
    assert SlotOk(n, i);
  }

  /** A shutdown closes exactly the sessions of users who are logged in, and then asks Redis to quit. */
  lemma ShutdownAnswered(cfg: Config, n: Node, k: nat)
    requires NodeOk(n) && k < |n.sessions|
    ensures var n1 := ShutdownAll(n);
      && |n1.sessions| == |n.sessions| && n1.index == n.index && n1.cmds == n.cmds + [[Quit]]
      && (n1.sessions[k].closing <==> n.sessions[k].closing || exists u :: u in n.index && n.index[u] == k)
      && n1.sessions[k].sent == n.sessions[k].sent && n1.sessions[k].pubHash == n.sessions[k].pubHash
  {
    if u :| u in n.index && n.index[u] == k {
      MappedAlive(n, u);
      assert k in n.index.Values;
    }
  }
}
