/** A server acknowledges only what it has accepted (src/worker.cpp, on_app_chat_msg). */
module Acks {
  import opened Prelude
  import opened Crypto
  import opened Messages
  import opened Sessions
  import opened Redis
  import opened Nodes
  import opened NodeInvariant
  import opened Systems
  import opened Wire
  import opened Effects
  import opened Safety
  import opened Answers

  /** What identifies a chat message to its sender: who sent which message about which post to whom,
      the addressee after the admin's key has been replaced by the admin's id. */
  datatype Receipt = Receipt(sender: string, addressee: string, postId: string, id: int)

  /** The receipt an entry of a session acknowledges. */
  function AckOf(cfg: Config, e: Entry): seq<Receipt> {
    match e.parcel.msg
    case ServerAck(ackFrom, ackTo, postId, id) =>
      if e.persist then [] else [Receipt(ackTo, ChatTo(cfg, ackFrom), postId, id)]
    case _ => []
  }

  /** The receipt of an accepted message that has all the fields an acknowledgement repeats. */
  function ReceiptOf(p: Parcel): seq<Receipt> {
    match p.msg
    case Chat(from, _, postId, id, _) =>
      if postId.Some? && id.Some? then [Receipt(from, p.addr, postId.value, id.value)] else []
    case _ => []
  }

  function AckReceipts(cfg: Config, es: seq<Entry>): seq<Receipt> {
    if es == [] then [] else AckReceipts(cfg, es[..|es| - 1]) + AckOf(cfg, es[|es| - 1])
  }

  function AcceptedReceipts(ps: seq<Parcel>): seq<Receipt> {
    if ps == [] then [] else AcceptedReceipts(ps[..|ps| - 1]) + ReceiptOf(ps[|ps| - 1])
  }

  /** The acknowledgements ever handed to a session for writing. */
  ghost function AcksBy(cfg: Config): Session -> multiset<Receipt> {
    (s: Session) => multiset(AckReceipts(cfg, s.sent))
  }

  ghost function AcksSent(cfg: Config, n: Node): multiset<Receipt> {
    Sum(AcksBy(cfg), n.sessions)
  }

  lemma AckSnoc(cfg: Config, es: seq<Entry>, e: Entry)
    ensures AckReceipts(cfg, es + [e]) == AckReceipts(cfg, es) + AckOf(cfg, e)
  {
    assert (es + [e])[..|es + [e]| - 1] == es;
  }

  lemma AcceptedSnoc(ps: seq<Parcel>, p: Parcel)
    ensures AcceptedReceipts(ps + [p]) == AcceptedReceipts(ps) + ReceiptOf(p)
  {
    assert (ps + [p])[..|ps + [p]| - 1] == ps;
  }

  lemma {:induction false} AcceptedGrows(ps: seq<Parcel>, qs: seq<Parcel>, r: Receipt)
    ensures multiset(AcceptedReceipts(ps))[r] <= multiset(AcceptedReceipts(ps + qs))[r]
  {
    hide AcceptedReceipts;
    if qs == [] {
      assert ps + qs == ps;
    } else {
      var init := qs[..|qs| - 1];
      AcceptedGrows(ps, init, r);
      AcceptedSnoc(ps + init, qs[|qs| - 1]);
      assert ps + qs == ps + init + [qs[|qs| - 1]];
    }
  }

  lemma {:induction false} SendAllAcks(cfg: Config, s: Session, ps: seq<Parcel>)
    ensures AckReceipts(cfg, SendAll(s, ps).sent) == AckReceipts(cfg, s.sent)
    decreases |ps|
  {
    if ps != [] {
      AckSnoc(cfg, s.sent, Entry(ps[0], true));
      SendAllAcks(cfg, Send(s, Entry(ps[0], true)), ps[1..]);
    }
  }

  /** From `n` to `n1` nothing has been acknowledged, and nothing accepted has been forgotten. */
  ghost predicate Silent(cfg: Config, n: Node, n1: Node) {
    && |n.sessions| == |n1.sessions| && n.accepted <= n1.accepted
    && forall k :: 0 <= k < |n.sessions| ==>
        AckReceipts(cfg, n1.sessions[k].sent) == AckReceipts(cfg, n.sessions[k].sent)
  }

  lemma {:induction false} SameAcks(cfg: Config, ss: seq<Session>, tt: seq<Session>, r: Receipt)
    requires |ss| == |tt|
    requires forall k :: 0 <= k < |ss| ==> AckReceipts(cfg, tt[k].sent) == AckReceipts(cfg, ss[k].sent)
    ensures Sum(AcksBy(cfg), tt)[r] == Sum(AcksBy(cfg), ss)[r]
  {
    if ss != [] {
      SameAcks(cfg, ss[1..], tt[1..], r);
    }
  }

  /** Accepted receipts that no acknowledgement has been sent for. */
  ghost function Unacked(cfg: Config, n: Node, r: Receipt): int {
    multiset(AcceptedReceipts(n.accepted))[r] as int - AcksSent(cfg, n)[r] as int
  }

  lemma SilentUnacked(cfg: Config, n: Node, n1: Node, r: Receipt)
    requires Silent(cfg, n, n1)
    ensures Unacked(cfg, n1, r) >= Unacked(cfg, n, r)
  {
    hide Sum, AckReceipts, AcceptedReceipts;
    SameAcks(cfg, n.sessions, n1.sessions, r);
    assert n1.accepted == n.accepted + n1.accepted[|n.accepted|..];
    AcceptedGrows(n.accepted, n1.accepted[|n.accepted|..], r);
  }

  lemma SendSilent(cfg: Config, n: Node, i: nat, e: Entry)
    requires i < |n.sessions| && AckOf(cfg, e) == []
    ensures Silent(cfg, n, SendTo(n, i, e))
  {
    hide AckReceipts, AckOf;
    AckSnoc(cfg, n.sessions[i].sent, e);
    SendAppends(n.sessions[i], e);
    hide Send;
    var sessions := SendTo(n, i, e).sessions;
    assert AckReceipts(cfg, sessions[i].sent) == AckReceipts(cfg, n.sessions[i].sent) + [];
  }

  /** The receipts of the acknowledgements among what session `k` is told because of a message of a client. */
  lemma OnReadAcks(cfg: Config, n: Node, i: nat, m: AppMsg, k: nat)
    requires NodeOk(n) && InRange(n) && i < |n.sessions| && k < |n.sessions| && Open(n.sessions[i])
    ensures var n1 := OnRead(cfg, n, i, m);
      && |n1.sessions| == |n.sessions| && n.accepted <= n1.accepted
      && AckReceipts(cfg, n1.sessions[k].sent)
         == AckReceipts(cfg, n.sessions[k].sent) + if k == i then NewReceipts(n, n1) else []
  {
    hide OnRead, NodeOk, MakeHexDigest, AckReceipts;
    if !LoggedIn(n.sessions[i]) && m.LoginMsg? {
      LoginAnswered(cfg, n, i, m, k);
    } else if LoggedIn(n.sessions[i]) && m.ChatMsg? {
      ChatAnswered(cfg, n, i, m, k);
    } else if LoggedIn(n.sessions[i]) && m.PresenceMsg? {
      PresenceAnswered(cfg, n, i, m, k);
    } else if LoggedIn(n.sessions[i]) && m.PublishMsg? {
      PublishAnswered(cfg, n, i, m, k);
    } else {
      OtherAnswered(cfg, n, i, m, k);
    }
    AcksTwo(cfg, n.sessions[k].sent, OnRead(cfg, n, i, m).sessions[k].sent);
  }

  /** The receipt of the message that a client's message has added to the accepted ones, if any. */
  function NewReceipts(n: Node, n1: Node): seq<Receipt> {
    if |n1.accepted| == |n.accepted| + 1 then ReceiptOf(n1.accepted[|n.accepted|]) else []
  }

  lemma AcksTwo(cfg: Config, s: seq<Entry>, t: seq<Entry>)
    requires s <= t && |t| <= |s| + 2
    ensures AckReceipts(cfg, t) == AckReceipts(cfg, s)
      + (if |t| > |s| then AckOf(cfg, t[|s|]) else []) + (if |t| > |s| + 1 then AckOf(cfg, t[|s| + 1]) else [])
  {
    hide AckReceipts, AckOf;
    if |t| == |s| {
      assert t == s;
    } else {
      AckSnoc(cfg, s, t[|s|]);
      if |t| == |s| + 1 {
        assert t == s + [t[|s|]];
      } else {
        AckSnoc(cfg, s + [t[|s|]], t[|s| + 1]);
        assert t == s + [t[|s|]] + [t[|s| + 1]];
      }
    }
  }

  /** The one place where a message is acknowledged is the one where it is accepted. */
  lemma OnReadUnacked(cfg: Config, n: Node, i: nat, m: AppMsg, r: Receipt)
    requires NodeOk(n) && InRange(n) && i < |n.sessions| && Open(n.sessions[i])
    ensures Unacked(cfg, OnRead(cfg, n, i, m), r) >= Unacked(cfg, n, r)
  {
    hide Sum, AckReceipts, AcceptedReceipts, OnRead, NodeOk, ReceiptOf;
    var n1 := OnRead(cfg, n, i, m);
    OnReadAcks(cfg, n, i, m, i);
    var tt := n.sessions[i := n1.sessions[i]];
    forall k | 0 <= k < |n.sessions|
      ensures AckReceipts(cfg, n1.sessions[k].sent) == AckReceipts(cfg, tt[k].sent)
    {
      OnReadAcks(cfg, n, i, m, k);
      assert k != i ==> AckReceipts(cfg, n1.sessions[k].sent) == AckReceipts(cfg, n.sessions[k].sent) + [];
    }
    SumUpdate(AcksBy(cfg), n.sessions, i, n1.sessions[i], r);
    SameAcks(cfg, tt, n1.sessions, r);
    AcceptedMore(n, n1, r);
  }

  lemma AcceptedMore(n: Node, n1: Node, r: Receipt)
    requires n.accepted <= n1.accepted
    ensures multiset(AcceptedReceipts(n1.accepted))[r] >= multiset(AcceptedReceipts(n.accepted))[r] + multiset(NewReceipts(n, n1))[r]
  {
    hide AcceptedReceipts, ReceiptOf;
    var more := n1.accepted[|n.accepted|..];
    assert n1.accepted == n.accepted + more;
    AcceptedGrows(n.accepted, more, r);
    if |more| == 1 {
      AcceptedSnoc(n.accepted, more[0]);
      assert more == [more[0]];
    }
  }

  lemma OnReplySilent(cfg: Config, n: Node, r: Reply)
    requires InRange(n)
    ensures Silent(cfg, n, OnReply(cfg, n, r))
  {
    hide AckReceipts;
    match r
    case LRangeReply(_, _, ps) =>
      if n.fifo != [] && n.fifo[0] in n.index {
        SendAllAcks(cfg, n.sessions[n.index[n.fifo[0]]], ps);
      }
    case Push(channel, payload) =>
      if PRESENCE <= channel {
        var user := Rest(PRESENCE, channel);
        if user in n.index {
          SendSilent(cfg, n, n.index[user], Entry(Parcel(user, Relayed(payload)), false));
        }
      }
    case Confirm(_) =>
  }

  lemma NextUnacked(cfg: Config, s: System, e: Event, r: Receipt)
    requires ConfigOk(cfg) && SystemOk(cfg, s) && Enabled(s, e)
    ensures Unacked(cfg, Next(cfg, s, e).node, r) >= Unacked(cfg, s.node, r)
  {
    hide Unacked, AckReceipts, ExecBatch, OnReply, OnRead, EntryOk, SlotOk, BatchOk, StoreOk, Correlated, QueueOk,
      OnReadError, Silent;
    var n := s.node;
    match e
    case Arrival => ArrivalUnacked(cfg, n, r);
    case AppRead(i, m) => assert SessionOk(n.sessions[i]); OnReadUnacked(cfg, n, i, m, r);
    case RedisReplies =>
      OnReplySilent(cfg, n, s.store.inbox[0]);
      SilentUnacked(cfg, n, Next(cfg, s, e).node, r);
    case ReadFailed(i) =>
      assert SessionOk(n.sessions[i]);
      FinishSilent(cfg, n, i);
      SilentUnacked(cfg, n, Next(cfg, s, e).node, r);
    case _ =>
      PlainSilent(cfg, s, e);
      SilentUnacked(cfg, n, Next(cfg, s, e).node, r);
  }

  lemma FinishSilent(cfg: Config, n: Node, i: nat)
    requires NodeOk(n) && i < |n.sessions| && Open(n.sessions[i])
    ensures Silent(cfg, n, OnReadError(cfg, n, i))
  {
    hide AckReceipts, OnReadError, EntryOk, SlotOk;
    OnReadErrorShape(cfg, n, i);
    OnReadErrorSends(cfg, n, i);
  }

  lemma PlainSilent(cfg: Config, s: System, e: Event)
    requires Enabled(s, e) && !e.Arrival? && !e.AppRead? && !e.ReadFailed? && !e.RedisReplies?
    ensures Silent(cfg, s.node, Next(cfg, s, e).node)
  {
    hide AckReceipts, Exec, ExecBatch, StoreBatch;
  }

  lemma ArrivalUnacked(cfg: Config, n: Node, r: Receipt)
    ensures Unacked(cfg, OnRun(n), r) == Unacked(cfg, n, r)
  {
    hide Sum;
    SumAppend(AcksBy(cfg), n.sessions, DoRead(FRESH), r);
  }

  /** In every state of every run there are, for each receipt, no more acknowledgements than accepted
      messages with that receipt; by Conservation.Conserved each of those is in one of the buckets. */
  lemma AckedIsAccepted(cfg: Config, ss: seq<System>, es: seq<Event>, k: nat, r: Receipt)
    requires ConfigOk(cfg) && IsRun(cfg, ss, es) && k < |ss|
    ensures AcksSent(cfg, ss[k].node)[r] <= multiset(AcceptedReceipts(ss[k].node.accepted))[r]
  {
    hide IsRun, AcksSent, AcceptedReceipts;
    RunUnacked(cfg, ss, es, k, r);
  }

  lemma {:induction false} RunUnacked(cfg: Config, ss: seq<System>, es: seq<Event>, k: nat, r: Receipt)
    requires ConfigOk(cfg) && IsRun(cfg, ss, es) && k < |ss|
    ensures Unacked(cfg, ss[k].node, r) >= 0
  {
    hide IsRun, SystemOk, Next, Enabled, Unacked, ConfigOk, InRange, Init;
    RunStep(cfg, ss, es, k);
    if k == 0 {
      InitUnacked(cfg, r);
    } else {
      RunUnacked(cfg, ss, es, k - 1, r);
      RunOk(cfg, ss, es, k - 1);
      NextUnacked(cfg, ss[k - 1], es[k - 1], r);
    }
  }

  lemma InitUnacked(cfg: Config, r: Receipt)
    ensures Unacked(cfg, Init(cfg).node, r) == 0
  {
  }
}
