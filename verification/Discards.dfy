/** Only a login of a user who is already logged in puts messages aside. */
module Discards {
  import opened Prelude
  import opened Crypto
  import opened Messages
  import opened Sessions
  import opened Redis
  import opened Nodes
  import opened NodeInvariant
  import opened Systems
  import opened Wire
  import opened Safety
  import opened Outgoing
  import opened Conservation

  /** Every session without a user holds as many copies of `p` as before. */
  ghost predicate KeepsAside(n: Node, n1: Node, p: Parcel) {
    && |n.sessions| == |n1.sessions|
    && forall k :: 0 <= k < |n.sessions| ==> DiscardedBy(n1.sessions[k])[p] == DiscardedBy(n.sessions[k])[p]
  }

  lemma {:induction false} SumSame(ss: seq<Session>, tt: seq<Session>, p: Parcel)
    requires |ss| == |tt| && forall k :: 0 <= k < |ss| ==> DiscardedBy(tt[k])[p] == DiscardedBy(ss[k])[p]
    ensures Sum(DiscardedBy, tt)[p] == Sum(DiscardedBy, ss)[p]
  {
    hide DiscardedBy;
    if ss != [] {
      SumSame(ss[1..], tt[1..], p);
    }
  }

  lemma KeepsAsideSame(n: Node, n1: Node, p: Parcel)
    requires |n.sessions| == |n1.sessions|
    requires forall k :: 0 <= k < |n.sessions| ==>
      n1.sessions[k].queue == n.sessions[k].queue && n1.sessions[k].pubHash == n.sessions[k].pubHash
    ensures KeepsAside(n, n1, p)
  {
    hide Kept;
  }

  lemma KeepsAsideThen(n: Node, n1: Node, n2: Node, p: Parcel)
    requires KeepsAside(n, n1, p) && KeepsAside(n1, n2, p)
    ensures KeepsAside(n, n2, p)
  {
    hide DiscardedBy;
  }

  lemma SendKeepsAside(n: Node, i: nat, e: Entry, p: Parcel)
    requires i < |n.sessions| && (e.persist ==> LoggedIn(n.sessions[i]))
    ensures KeepsAside(n, SendTo(n, i, e), p)
  {
    hide Kept;
    KeptSnoc(n.sessions[i].queue, e);
  }

  lemma {:induction false} SendAllHash(s: Session, ps: seq<Parcel>)
    ensures SendAll(s, ps).pubHash == s.pubHash
    decreases |ps|
  {
    if ps != [] {
      SendAllHash(Send(s, Entry(ps[0], true)), ps[1..]);
    }
  }

  lemma OnAppKeepsAside(cfg: Config, n: Node, i: nat, m: AppMsg, p: Parcel)
    requires NodeOk(n) && InRange(n) && i < |n.sessions| && LoginUser(cfg, n, i, m).None?
    ensures KeepsAside(n, OnApp(cfg, n, i, m).0, p)
  {
    hide KeepsAside, Send, StoreBatch, MakeHexDigest, SessionOk, SlotOk;
    var s := n.sessions[i];
    var n1 := OnApp(cfg, n, i, m).0;
    if LoggedIn(s) {
      match m {
        case ChatMsg(to, postId, id, _) =>
          if to.Some? { ChatKeepsAside(cfg, n, i, m, p); } else { KeepsAsideSame(n, n1, p); }
        case PresenceMsg(to, body) =>
          if to.Some? && ChatTo(cfg, to.value) in n.index {
            var peer := ChatTo(cfg, to.value);
            assert EntryOk(n, peer);
            SendKeepsAside(n, n.index[peer], Entry(Parcel(peer, Relayed(PresenceText(s.pubHash, peer, body))), false), p);
            KeepsAsideSame(n, n, p);
          } else {
            KeepsAsideSame(n, n1, p);
          }
        case PublishMsg(_, _, _, newId) =>
          PublishKeepsAside(cfg, n, i, m, p);
        case _ => KeepsAsideSame(n, n1, p);
      }
    } else {
      SendKeepsAside(n, i, Entry(Parcel("", LoginAck(false)), false), p);
      KeepsAsideSame(n, n, p);
    }
  }

  lemma PublishKeepsAside(cfg: Config, n: Node, i: nat, m: AppMsg, p: Parcel)
    requires m.PublishMsg? && i < |n.sessions| && LoggedIn(n.sessions[i])
    ensures KeepsAside(n, OnAppPublish(cfg, n, i, m).0, p)
  {
    hide KeepsAside, Send, MakeHexDigest;
    var me := n.sessions[i].pubHash;
    var q, r := Parcel(me, PublishAck(false, "")), Parcel(me, PublishAck(true, m.newId));
    var n2 := Request(n, [HSet(m.newId), Publish(cfg.postsChannel, PostText(m.newId))]);
    KeepsAsideSame(n, n, p);
    KeepsAsideSame(n, Accept(n, q), p);
    KeepsAsideSame(n, Accept(n2, r), p);
    SendKeepsAside(Accept(n, q), i, Entry(q, true), p);
    SendKeepsAside(Accept(n2, r), i, Entry(r, true), p);
    KeepsAsideThen(n, Accept(n, q), SendTo(Accept(n, q), i, Entry(q, true)), p);
    KeepsAsideThen(n, Accept(n2, r), SendTo(Accept(n2, r), i, Entry(r, true)), p);
  }

  lemma ChatKeepsAside(cfg: Config, n: Node, i: nat, m: AppMsg, p: Parcel)
    requires m.ChatMsg? && m.to.Some? && NodeOk(n) && InRange(n) && i < |n.sessions|
    ensures KeepsAside(n, OnAppChatMsg(cfg, n, i, m).0, p)
  {
    hide KeepsAside, Send, StoreBatch, SessionOk, SlotOk, IsDigest;
    var from := n.sessions[i].pubHash;
    var q := ChatParcel(cfg, from, m);
    var n1 := Dispatch(cfg, n, q);
    KeepsAsideSame(n, Accept(n, q), p);
    if q.addr in n.index {
      assert EntryOk(n, q.addr) && LoggedIn(n.sessions[n.index[q.addr]]) by { MappedLoggedIn(n, q.addr); }
      SendKeepsAside(Accept(n, q), n.index[q.addr], Entry(q, true), p);
      KeepsAsideThen(n, Accept(n, q), SendTo(Accept(n, q), n.index[q.addr], Entry(q, true)), p);
    } else {
      KeepsAsideSame(n, n1, p);
    }
    if m.postId.Some? && m.id.Some? {
      var e := Entry(Parcel(from, ServerAck(m.to.value, from, m.postId.value, m.id.value)), false);
      SendKeepsAside(n1, i, e, p);
      KeepsAsideThen(n, n1, SendTo(n1, i, e), p);
    }
  }

  lemma MappedLoggedIn(n: Node, u: string)
    requires IndexOk(n) && u in n.index
    ensures EntryOk(n, u) && LoggedIn(n.sessions[n.index[u]])
  {
    assert EntryOk(n, u);
  }

  lemma ReplyKeepsAside(cfg: Config, n: Node, r: Reply, p: Parcel)
    requires NodeOk(n) && InRange(n)
    ensures KeepsAside(n, OnReply(cfg, n, r), p)
  {
    hide KeepsAside, Send, SendAll, StoreBatch, FetchBatch, SessionOk, SlotOk, IsDigest;
    var n1 := OnReply(cfg, n, r);
    match r
    case LRangeReply(_, _, ps) =>
      if n.fifo != [] && n.fifo[0] in n.index {
        MappedLoggedIn(n, n.fifo[0]);
        HandedKeepsAside(n, n.index[n.fifo[0]], ps, p);
        KeepsAsideSame(n, Fault(n), p);
        LikeKeepsAside(n, OnDbChatMsg(cfg, n, n.fifo[0], ps), n1, p);
      } else {
        KeepsAsideSame(n, n1, p);
      }
    case Push(channel, payload) =>
      if payload != Keyspace("rpush") && PRESENCE <= channel && Rest(PRESENCE, channel) in n.index {
        var u := Rest(PRESENCE, channel);
        MappedLoggedIn(n, u);
        SendKeepsAside(n, n.index[u], Entry(Parcel(u, Relayed(payload)), false), p);
        KeepsAsideSame(n, Fault(n), p);
      } else {
        KeepsAsideSame(n, n1, p);
      }
    case Confirm(_) => KeepsAsideSame(n, n1, p);
  }

  lemma HandedKeepsAside(n: Node, i: nat, ps: seq<Parcel>, p: Parcel)
    requires i < |n.sessions| && LoggedIn(n.sessions[i])
    ensures KeepsAside(n, With(n, i, SendAll(n.sessions[i], ps)), p)
  {
    hide Kept;
    SendAllHash(n.sessions[i], ps);
  }

  lemma LikeKeepsAside(n: Node, n1: Node, n2: Node, p: Parcel)
    requires KeepsAside(n, n1, p) && n2.sessions == n1.sessions
    ensures KeepsAside(n, n2, p)
  {
  }

  /** A login puts aside what the user's previous session holds, and takes back what its own session
      had put aside before. */
  lemma LoginAside(cfg: Config, n: Node, i: nat, m: AppMsg, p: Parcel)
    requires NodeOk(n) && InRange(n) && i < |n.sessions| && Open(n.sessions[i]) && LoginUser(cfg, n, i, m).Some?
    ensures var u := LoginUser(cfg, n, i, m).value;
      && (u in n.index ==> n.index[u] < |n.sessions|)
      && Discarded(OnRead(cfg, n, i, m))[p] + multiset(Kept(n.sessions[i].queue))[p]
         == Discarded(n)[p] + (if u in n.index then multiset(Kept(n.sessions[n.index[u]].queue))[p] else 0)
  {
    hide Sum, Kept, MakeHexDigest, LoginBatch, SessionOk, SlotOk, IsDigest, Enroll, OnAppLogin, EntryOk, DiscardedBy;
    var u := LoginUser(cfg, n, i, m).value;
    var s := n.sessions[i];
    var n1 := Enroll(With(n, i, SetPubHash(s, u)), i, u);
    InRangeOk(n);
    EnrollShape(n, i, u);
    EnrollAside(n, i, u, p);
    EnrollOk(n, i, u);
    LoginLike(cfg, n, i, m);
    var n2 := OnRead(cfg, n, i, m);
    AsideUpdate(n1, n2, i, p);
  }

  lemma EnrollAside(n: Node, i: nat, u: string, p: Parcel)
    requires NodeOk(n) && i < |n.sessions| && Open(n.sessions[i]) && !LoggedIn(n.sessions[i]) && IsDigest(u)
    requires InRange(n) && InRange(With(n, i, SetPubHash(n.sessions[i], u)))
    ensures Discarded(Enroll(With(n, i, SetPubHash(n.sessions[i], u)), i, u))[p] + multiset(Kept(n.sessions[i].queue))[p]
      == Discarded(n)[p] + (if u in n.index then multiset(Kept(n.sessions[n.index[u]].queue))[p] else 0)
  {
    hide Sum, Kept, SessionOk, SlotOk, IsDigest, Enroll;
    var s := n.sessions[i];
    EnrollShape(n, i, u);
    assert LoggedIn(SetPubHash(s, u)) by { DigestNotBlank(u); }
    SumUpdate(DiscardedBy, n.sessions, i, SetPubHash(s, u), p);
    if u in n.index {
      MappedLoggedIn(n, u);
      var t := n.sessions[n.index[u]];
      SumUpdate(DiscardedBy, n.sessions[i := SetPubHash(s, u)], n.index[u], Overridden(t), p);
    }
  }

  lemma DigestNotBlank(u: string)
    requires IsDigest(u)
    ensures u != ""
  {
  }

  /** `n1` differs from `n` in session `i` only, whose user is the same. */
  ghost predicate OnlySession(n: Node, n1: Node, i: nat)
    requires i < |n.sessions|
  {
    && |n1.sessions| == |n.sessions|
    && n1.sessions[i].pubHash == n.sessions[i].pubHash
    && n1.sessions == n.sessions[i := n1.sessions[i]]
  }

  lemma SendOnlySession(n: Node, n1: Node, i: nat, e: Entry)
    requires i < |n.sessions| && n1.sessions == n.sessions
    ensures OnlySession(n, SendTo(n1, i, e), i)
  {
  }

  /** After the map has been updated, the rest of a login changes session `i` only. */
  lemma LoginOnlySession(cfg: Config, n: Node, i: nat, m: AppMsg)
    requires InRange(n) && i < |n.sessions| && LoginUser(cfg, n, i, m).Some?
    ensures var u := LoginUser(cfg, n, i, m).value;
      var n1 := Enroll(With(n, i, SetPubHash(n.sessions[i], u)), i, u);
      |n1.sessions| == |n.sessions| && OnlySession(n1, OnAppLogin(cfg, n, i, m).0, i)
  {
    hide Send, LoginBatch, MakeHexDigest, OnlySession;
    var u := LoginUser(cfg, n, i, m).value;
    var n1 := Enroll(With(n, i, SetPubHash(n.sessions[i], u)), i, u);
    SameOnlySession(n1, i);
    if !m.token.MalformedToken? {
      var n2 := PublishToken(cfg, n1, u, m.token);
      var n3 := Request(n2, LoginBatch(cfg, u)).(fifo := n2.fifo + [u]);
      SendOnlySession(n1, n3, i, Entry(Parcel(u, LoginAck(true)), false));
    }
  }

  lemma SameOnlySession(n: Node, i: nat)
    requires i < |n.sessions|
    ensures OnlySession(n, n, i)
  {
  }

  lemma LoginLike(cfg: Config, n: Node, i: nat, m: AppMsg)
    requires InRange(n) && i < |n.sessions| && LoginUser(cfg, n, i, m).Some?
    ensures var u := LoginUser(cfg, n, i, m).value;
      var n1 := Enroll(With(n, i, SetPubHash(n.sessions[i], u)), i, u);
      |n1.sessions| == |n.sessions| && OnlySession(n1, OnRead(cfg, n, i, m), i)
  {
    hide OnAppLogin, MakeHexDigest, Enroll;
    OnAppShape(cfg, n, i, m);
    LoginOnlySession(cfg, n, i, m);
  }

  lemma AsideUpdate(n1: Node, n2: Node, i: nat, p: Parcel)
    requires i < |n1.sessions| && LoggedIn(n1.sessions[i]) && OnlySession(n1, n2, i)
    ensures Discarded(n2)[p] == Discarded(n1)[p]
  {
    hide Sum, Kept;
    SumUpdate(DiscardedBy, n1.sessions, i, n2.sessions[i], p);
  }

  predicate LogsIn(cfg: Config, s: System, e: Event)
    requires Enabled(s, e)
  {
    e.AppRead? && LoginUser(cfg, s.node, e.i, e.m).Some?
  }

  predicate Relogs(cfg: Config, s: System, e: Event)
    requires Enabled(s, e)
  {
    LogsIn(cfg, s, e) && LoginUser(cfg, s.node, e.i, e.m).value in s.node.index
  }

  /** The event completes the write of `p` on an overridden session. */
  predicate WritesAside(s: System, e: Event, p: Parcel)
    requires Enabled(s, e)
  {
    e.WriteDone? && var t := s.node.sessions[e.i]; !LoggedIn(t) && t.queue != [] && t.queue[0] == Entry(p, true)
  }

  /** Every event that is not a login discards nothing; what an overridden session still writes leaves the
      discarded messages. */
  lemma NextDiscards(cfg: Config, s: System, e: Event, p: Parcel)
    requires ConfigOk(cfg) && SystemOk(cfg, s) && Enabled(s, e) && !LogsIn(cfg, s, e)
    ensures Discarded(Next(cfg, s, e).node)[p] + (if WritesAside(s, e, p) then 1 else 0) == Discarded(s.node)[p]
  {
    hide Sum, KeepsAside, BatchOk, StoreOk, Correlated, QueueOk, EntryOk, SlotOk, OnRead, OnReadError, OnReply, ExecBatch,
      StoreBatch, LoginUser, DiscardedBy;
    var n, n1 := s.node, Next(cfg, s, e).node;
    match e
    case Arrival => ArrivalAside(n, p);
    case AppRead(i, m) => ReadAside(cfg, n, i, m, p);
    case ReadFailed(i) =>
      assert SessionOk(n.sessions[i]);
      OnReadErrorShape(cfg, n, i);
      SessionAside(n, n1, i, p);
      FinishAside(n.sessions[i], p);
    case WriteDone(i) =>
      assert SessionOk(n.sessions[i]);
      SessionAside(n, n1, i, p);
      WriteAside(n.sessions[i], p);
    case RedisReplies =>
      ReplyKeepsAside(cfg, n, s.store.inbox[0], p);
      AsideSum(n, n1, p);
    case _ => KeepsAsideSame(n, n1, p); AsideSum(n, n1, p);
  }

  lemma AsideSum(n: Node, n1: Node, p: Parcel)
    requires KeepsAside(n, n1, p)
    ensures Discarded(n1)[p] == Discarded(n)[p]
  {
    SumSame(n.sessions, n1.sessions, p);
  }

  lemma ArrivalAside(n: Node, p: Parcel)
    ensures Discarded(OnRun(n))[p] == Discarded(n)[p]
  {
    hide Sum;
    SumAppend(DiscardedBy, n.sessions, DoRead(FRESH), p);
  }

  lemma ReadAside(cfg: Config, n: Node, i: nat, m: AppMsg, p: Parcel)
    requires NodeOk(n) && InRange(n) && i < |n.sessions| && LoginUser(cfg, n, i, m).None?
    ensures Discarded(OnRead(cfg, n, i, m))[p] == Discarded(n)[p]
  {
    hide NodeOk, Sum, Kept, OnApp, LoginUser, KeepsAside;
    OnAppShape(cfg, n, i, m);
    OnAppKeepsAside(cfg, n, i, m, p);
    var n1, n2 := OnApp(cfg, n, i, m).0, OnRead(cfg, n, i, m);
    KeepsAsideSame(n1, n2, p);
    KeepsAsideThen(n, n1, n2, p);
    AsideSum(n, n2, p);
  }

  lemma SessionAside(n: Node, n1: Node, i: nat, p: Parcel)
    requires i < |n.sessions| && OnlySession(n, n1, i)
    ensures Discarded(n1)[p] + DiscardedBy(n.sessions[i])[p] == Discarded(n)[p] + DiscardedBy(n1.sessions[i])[p]
  {
    hide Sum, DiscardedBy;
    SumUpdate(DiscardedBy, n.sessions, i, n1.sessions[i], p);
  }

  lemma FinishAside(s: Session, p: Parcel)
    ensures DiscardedBy(ReadDone(Sessions.Finish(s)))[p] == DiscardedBy(s)[p]
  {
    hide Kept;
  }

  lemma WriteAside(s: Session, p: Parcel)
    requires s.inFlight != [] && s.queue != []
    ensures DiscardedBy(OnWriteOk(s))[p] + (if !LoggedIn(s) && s.queue[0] == Entry(p, true) then 1 else 0) == DiscardedBy(s)[p]
  {
    hide Kept;
    KeptFirst(s.queue);
  }

  lemma NothingMore(cfg: Config, s: System, e: Event, p: Parcel)
    requires ConfigOk(cfg) && SystemOk(cfg, s) && Enabled(s, e) && !Relogs(cfg, s, e)
    ensures Discarded(Next(cfg, s, e).node)[p] <= Discarded(s.node)[p]
  {
    hide Discarded, Kept, OnRead, QueueOk, StoreOk, Correlated, LoginUser;
    if LogsIn(cfg, s, e) {
      assert SessionOk(s.node.sessions[e.i]);
      LoginAside(cfg, s.node, e.i, e.m, p);
    } else {
      NextDiscards(cfg, s, e, p);
    }
  }

  /** In a run in which no user logs in while being logged in, no message is ever discarded. */
  lemma {:induction false} NothingDiscarded(cfg: Config, ss: seq<System>, es: seq<Event>, k: nat, p: Parcel)
    requires ConfigOk(cfg) && IsRun(cfg, ss, es) && k < |ss|
    requires forall j :: 0 <= j < |es| ==> !Relogs(cfg, ss[j], es[j])
    ensures Discarded(ss[k].node)[p] == 0
  {
    hide SystemOk, Next, Enabled, Relogs;
    if k > 0 {
      NothingDiscarded(cfg, ss, es, k - 1, p);
      RunOk(cfg, ss, es, k - 1);
      NothingMore(cfg, ss[k - 1], es[k - 1], p);
    }
  }
}
