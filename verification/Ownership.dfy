/** Whose session a persistent message is given to: in runs in which no login misroutes, only to a session
    that has the addressee for its user at that time. */
module Ownership {
  import opened Prelude
  import opened Crypto
  import opened Messages
  import opened Sessions
  import opened Redis
  import opened Nodes
  import opened NodeInvariant
  import opened Systems
  import opened Wire
  import opened Safety
  import opened Answers
  import opened Routing

  /** From `s` to `t` a session has been given messages, and all persistent ones among them are for `u`. */
  ghost predicate Gave(u: string, s: Session, t: Session) {
    s.sent <= t.sent && forall q :: |s.sent| <= q < |t.sent| && t.sent[q].persist ==> t.sent[q].parcel.addr == u
  }

  /** Every session has been given messages for its user only, and a new session nothing. */
  ghost predicate GaveOwn(n: Node, n1: Node) {
    && |n.sessions| <= |n1.sessions|
    && (forall k :: 0 <= k < |n.sessions| ==> Gave(n.sessions[k].pubHash, n.sessions[k], n1.sessions[k]))
    && (forall k :: |n.sessions| <= k < |n1.sessions| ==> n1.sessions[k].sent == [])
  }

  lemma SendGave(u: string, s: Session, e: Entry)
    requires e.persist ==> e.parcel.addr == u
    ensures Gave(u, s, Send(s, e)) && Send(s, e).pubHash == s.pubHash
  {
  }

  lemma GaveThen(u: string, s: Session, t: Session, w: Session)
    requires Gave(u, s, t) && Gave(u, t, w)
    ensures Gave(u, s, w)
  {
    forall q | |s.sent| <= q < |w.sent| && w.sent[q].persist
      ensures w.sent[q].parcel.addr == u
    {
      if q < |t.sent| { assert w.sent[q] == t.sent[q]; }
    }
  }

  lemma {:induction false} SendAllGave(u: string, s: Session, ps: seq<Parcel>)
    requires forall p :: p in ps ==> p.addr == u
    ensures Gave(u, s, SendAll(s, ps))
    decreases |ps|
  {
    hide Gave;
    if ps == [] {
      NothingGiven(u, s, s);
    } else {
      var t := Send(s, Entry(ps[0], true));
      SendGave(u, s, Entry(ps[0], true));
      SendAllGave(u, t, ps[1..]);
      GaveThen(u, s, t, SendAll(t, ps[1..]));
    }
  }

  lemma NothingGiven(u: string, s: Session, t: Session)
    requires t.sent == s.sent
    ensures Gave(u, s, t)
  {
  }

  lemma SameGaveOwn(n: Node, n1: Node)
    requires |n1.sessions| == |n.sessions| && forall k :: 0 <= k < |n.sessions| ==> n1.sessions[k].sent == n.sessions[k].sent
    ensures GaveOwn(n, n1)
  {
  }

  lemma SendToGaveOwn(n: Node, i: nat, e: Entry)
    requires i < |n.sessions| && (e.persist ==> e.parcel.addr == n.sessions[i].pubHash)
    ensures GaveOwn(n, SendTo(n, i, e)) && |SendTo(n, i, e).sessions| == |n.sessions|
    ensures forall k :: 0 <= k < |n.sessions| ==> SendTo(n, i, e).sessions[k].pubHash == n.sessions[k].pubHash
  {
    SendGave(n.sessions[i].pubHash, n.sessions[i], e);
    hide Send;
  }

  lemma LikeGaveOwn(a: Node, b: Node, n: Node, n1: Node)
    requires GaveOwn(a, b) && n.sessions == a.sessions && n1.sessions == b.sessions
    ensures GaveOwn(n, n1)
  {
    hide Gave;
  }

  lemma GaveTwo(u: string, s: Session, t: Session, a: seq<Entry>, b: seq<Entry>)
    requires t.sent == s.sent + a + b && |a| <= 1 && |b| <= 1
    requires a != [] && a[0].persist ==> a[0].parcel.addr == u
    requires b != [] && b[0].persist ==> b[0].parcel.addr == u
    ensures Gave(u, s, t)
  {
    assert t.sent == s.sent + (a + b);
  }

  /** What a message of a client makes the node send is known entry by entry. */
  lemma OnReadGave(cfg: Config, n: Node, i: nat, m: AppMsg, k: nat)
    requires NodeOk(n) && InRange(n) && i < |n.sessions| && k < |n.sessions| && Open(n.sessions[i])
    ensures |OnRead(cfg, n, i, m).sessions| == |n.sessions|
    ensures Gave(n.sessions[k].pubHash, n.sessions[k], OnRead(cfg, n, i, m).sessions[k])
  {
    hide OnRead, NodeOk, MakeHexDigest, Gave;
    var s, t := n.sessions[k], OnRead(cfg, n, i, m).sessions;
    if !LoggedIn(n.sessions[i]) && m.LoginMsg? {
      LoginGave(cfg, n, i, m, k);
    } else if LoggedIn(n.sessions[i]) && m.ChatMsg? {
      ChatGave(cfg, n, i, m, k);
    } else if LoggedIn(n.sessions[i]) && m.PresenceMsg? {
      PresenceAnswered(cfg, n, i, m, k);
      var es := t[k].sent[|s.sent|..];
      GaveTwo(s.pubHash, s, t[k], es, []);
    } else if LoggedIn(n.sessions[i]) && m.PublishMsg? {
      PublishAnswered(cfg, n, i, m, k);
      var es := t[k].sent[|s.sent|..];
      GaveTwo(s.pubHash, s, t[k], es, []);
    } else {
      OtherAnswered(cfg, n, i, m, k);
      GaveTwo(s.pubHash, s, t[k], [], []);
    }
  }

  lemma ChatGave(cfg: Config, n: Node, i: nat, m: AppMsg, k: nat)
    requires m.ChatMsg? && NodeOk(n) && InRange(n) && i < |n.sessions| && k < |n.sessions| && LoggedIn(n.sessions[i])
    ensures |OnRead(cfg, n, i, m).sessions| == |n.sessions|
    ensures Gave(n.sessions[k].pubHash, n.sessions[k], OnRead(cfg, n, i, m).sessions[k])
  {
    hide OnRead, NodeOk, Gave;
    ChatAnswered(cfg, n, i, m, k);
    var s, t := n.sessions[k], OnRead(cfg, n, i, m).sessions[k];
    if m.to.None? {
      GaveTwo(s.pubHash, s, t, [], []);
    } else {
      var p := ChatParcel(cfg, n.sessions[i].pubHash, m);
      if p.addr in n.index { MappedAlive(n, p.addr); }
      GaveTwo(s.pubHash, s, t,
              if p.addr in n.index && n.index[p.addr] == k then [Entry(p, true)] else [],
              if k == i && m.postId.Some? && m.id.Some? then
                [Entry(Parcel(n.sessions[i].pubHash, ServerAck(m.to.value, n.sessions[i].pubHash, m.postId.value, m.id.value)), false)]
              else []);
    }
  }

  lemma LoginGave(cfg: Config, n: Node, i: nat, m: AppMsg, k: nat)
    requires m.LoginMsg? && NodeOk(n) && InRange(n) && i < |n.sessions| && k < |n.sessions|
    requires !LoggedIn(n.sessions[i]) && Open(n.sessions[i])
    ensures |OnRead(cfg, n, i, m).sessions| == |n.sessions|
    ensures Gave(n.sessions[k].pubHash, n.sessions[k], OnRead(cfg, n, i, m).sessions[k])
  {
    hide OnRead, NodeOk, MakeHexDigest, Gave;
    LoginAnswered(cfg, n, i, m, k);
    var s, t := n.sessions[k], OnRead(cfg, n, i, m).sessions[k];
    var es := t.sent[|s.sent|..];
    assert es != [] ==> |es| == 1 && !es[0].persist;
    GaveTwo(s.pubHash, s, t, es, []);
  }

  lemma OnReadGaveOwn(cfg: Config, n: Node, i: nat, m: AppMsg)
    requires NodeOk(n) && InRange(n) && i < |n.sessions| && Open(n.sessions[i])
    ensures GaveOwn(n, OnRead(cfg, n, i, m))
  {
    hide NodeOk, OnRead, Gave;
    OnReadGave(cfg, n, i, m, i);
    forall k | 0 <= k < |n.sessions|
      ensures Gave(n.sessions[k].pubHash, n.sessions[k], OnRead(cfg, n, i, m).sessions[k])
    {
      OnReadGave(cfg, n, i, m, k);
    }
  }

  lemma ReplyGaveOwn(cfg: Config, s: System)
    requires ConfigOk(cfg) && SystemOk(cfg, s) && Routed(cfg, s) && Enabled(s, RedisReplies)
    ensures GaveOwn(s.node, OnReply(cfg, s.node, s.store.inbox[0]))
  {
    hide GaveOwn, Send, SendAll, StoreBatch, FetchBatch, QueueOk, StoreOk, Correlated, SlotOk, SessionOk, IsDigest,
      CmdsRouted, SessionsRouted, AllBelong;
    var n, x := s.node, s.store.inbox[0];
    var n1 := OnReply(cfg, n, x);
    SameGaveOwn(n, n);
    assert ReplyRouted(cfg, x);
    match x
    case LRangeReply(tag, _, ps) =>
      FetchReplyOk(cfg, s);
      if tag in n.index {
        assert EntryOk(n, tag);
        FetchGaveOwn(cfg, n, tag, ps);
        LikeGaveOwn(n, OnDbChatMsg(cfg, n, tag, ps), n, n1);
      } else {
        SameGaveOwn(n, n1);
      }
    case Push(channel, payload) =>
      if payload != Keyspace("rpush") && PRESENCE <= channel && Rest(PRESENCE, channel) in n.index {
        var u := Rest(PRESENCE, channel);
        assert EntryOk(n, u);
        SendToGaveOwn(n, n.index[u], Entry(Parcel(u, Relayed(payload)), false));
        SameGaveOwn(n, Fault(n));
      } else {
        SameGaveOwn(n, n1);
      }
    case Confirm(_) =>
  }

  lemma FetchGaveOwn(cfg: Config, n: Node, u: string, ps: seq<Parcel>)
    requires ConfigOk(cfg) && InRange(n) && u in n.index && EntryOk(n, u) && AllBelong(cfg, ps, u)
    ensures GaveOwn(n, OnDbChatMsg(cfg, n, u, ps))
  {
    hide SendAll;
    DigestBelongs(cfg, ps, u);
    SendAllGave(u, n.sessions[n.index[u]], ps);
  }

  lemma NextGaveOwn(cfg: Config, s: System, e: Event)
    requires ConfigOk(cfg) && SystemOk(cfg, s) && Routed(cfg, s) && Enabled(s, e)
    ensures GaveOwn(s.node, Next(cfg, s, e).node)
  {
    hide GaveOwn, QueueOk, StoreOk, Correlated, Routed, EntryOk, SlotOk, OnRead, OnReadError, OnReply, ExecBatch, StoreBatch;
    var n := s.node;
    match e
    case Arrival => ArrivalGaveOwn(n);
    case AppRead(i, m) => assert SessionOk(n.sessions[i]); OnReadGaveOwn(cfg, n, i, m);
    case ReadFailed(i) =>
      assert SessionOk(n.sessions[i]);
      OnReadErrorShape(cfg, n, i);
      SameGaveOwn(n, OnReadError(cfg, n, i));
    case RedisReplies => ReplyGaveOwn(cfg, s);
    case _ => PlainGaveOwn(cfg, s, e);
  }

  lemma PlainGaveOwn(cfg: Config, s: System, e: Event)
    requires Enabled(s, e) && !e.Arrival? && !e.AppRead? && !e.ReadFailed? && !e.RedisReplies?
    ensures GaveOwn(s.node, Next(cfg, s, e).node)
  {
    hide GaveOwn, Exec, ExecBatch, StoreBatch;
    SameGaveOwn(s.node, Next(cfg, s, e).node);
  }

  lemma ArrivalGaveOwn(n: Node)
    ensures GaveOwn(n, OnRun(n))
  {
  }

  // Runs ---------------------------------------------------------------------------------------

  /** Event `j` gave session `i` the message that it was given as number `q`, and the session had the user
      `u` at that time. */
  predicate GivenTo(ss: seq<System>, j: nat, i: nat, q: nat, u: string)
    requires j + 1 < |ss|
  {
    && i < |ss[j].node.sessions| && i < |ss[j + 1].node.sessions|
    && ss[j].node.sessions[i].pubHash == u
    && |ss[j].node.sessions[i].sent| <= q < |ss[j + 1].node.sessions[i].sent|
  }

  /** In runs in which no login misroutes, every persistent message that any session was ever given was
      given to it while the addressee was its user. */
  lemma {:induction false} GivenToAddressee(cfg: Config, ss: seq<System>, es: seq<Event>, k: nat, i: nat, q: nat)
    requires ConfigOk(cfg) && IsRun(cfg, ss, es) && k < |ss|
    requires forall j :: 0 <= j < |es| ==> !Misroutes(cfg, ss[j], es[j])
    requires i < |ss[k].node.sessions| && q < |ss[k].node.sessions[i].sent| && ss[k].node.sessions[i].sent[q].persist
    ensures exists j | 0 <= j < k :: GivenTo(ss, j, i, q, ss[k].node.sessions[i].sent[q].parcel.addr)
  {
    hide Routed, SystemOk, Next, Enabled, Misroutes;
    if k > 0 {
      RunOk(cfg, ss, es, k - 1);
      RunRouted(cfg, ss, es, k - 1);
      NextGaveOwn(cfg, ss[k - 1], es[k - 1]);
      var n, n1 := ss[k - 1].node, ss[k].node;
      assert i < |n.sessions|;
      assert Gave(n.sessions[i].pubHash, n.sessions[i], n1.sessions[i]);
      if q < |n.sessions[i].sent| {
        assert n1.sessions[i].sent[q] == n.sessions[i].sent[q];
        GivenToAddressee(cfg, ss, es, k - 1, i, q);
      } else {
        assert GivenTo(ss, k - 1, i, q, n1.sessions[i].sent[q].parcel.addr);
      }
    }
  }

  lemma WrittenToAddressee(cfg: Config, ss: seq<System>, es: seq<Event>, k: nat, i: nat, q: nat)
    requires ConfigOk(cfg) && IsRun(cfg, ss, es) && k < |ss|
    requires forall j :: 0 <= j < |es| ==> !Misroutes(cfg, ss[j], es[j])
    requires i < |ss[k].node.sessions| && q < |ss[k].node.sessions[i].written| && ss[k].node.sessions[i].written[q].persist
    ensures exists j | 0 <= j < k :: GivenTo(ss, j, i, q, ss[k].node.sessions[i].written[q].parcel.addr)
  {
    hide IsRun, Misroutes;
    WriteDiscipline(cfg, ss, es, k, i);
    GivenToAddressee(cfg, ss, es, k, i, q);
  }

  /** Every copy of `p` that a session has written, it was given while `p.addr` was its user. */
  ghost predicate WrittenToOwner(ss: seq<System>, k: nat, p: Parcel)
    requires k < |ss|
  {
    forall i, q :: Wrote(ss[k].node, i, q, p) ==> exists j | 0 <= j < k :: GivenTo(ss, j, i, q, p.addr)
  }

  predicate Wrote(n: Node, i: nat, q: nat, p: Parcel) {
    i < |n.sessions| && q < |n.sessions[i].written| && n.sessions[i].written[q] == Entry(p, true)
  }

  /** In particular, a delivered message has been delivered to its addressee. */
  lemma AllWrittenToOwner(cfg: Config, ss: seq<System>, es: seq<Event>, k: nat, p: Parcel)
    requires ConfigOk(cfg) && IsRun(cfg, ss, es) && k < |ss|
    requires forall j :: 0 <= j < |es| ==> !Misroutes(cfg, ss[j], es[j])
    ensures WrittenToOwner(ss, k, p)
  {
    hide IsRun, Misroutes, GivenTo;
    forall i: nat, q: nat | Wrote(ss[k].node, i, q, p)
      ensures exists j | 0 <= j < k :: GivenTo(ss, j, i, q, p.addr)
    {
      WrittenToAddressee(cfg, ss, es, k, i, q);
    }
  }
}
