/** No step loses or invents a persistent message. */
module Conservation {
  import opened Prelude
  import opened Messages
  import opened Sessions
  import opened Redis
  import opened Nodes
  import opened NodeInvariant
  import opened Systems
  import opened Wire
  import opened Effects
  import opened Safety

  /** Zero in every reachable state (see RunBalanced). */
  ghost function Balance(s: System, p: Parcel): int {
    Slack(s.node, p) + Stored(s.store.lists)[p] as int + Fetched(s.store.inbox)[p] as int + multiset(s.taken)[p] as int
  }

  lemma HandlerBalanced(s: System, n1: Node, p: Parcel)
    requires Slack(n1, p) == Slack(s.node, p)
    ensures Balance(s.(node := n1), p) == Balance(s, p)
  {
    hide Slack, Stored, Fetched;
  }

  lemma WithBalanced(s: System, i: nat, t: Session, p: Parcel)
    requires i < |s.node.sessions| && Held(t) == Held(s.node.sessions[i])
    ensures Balance(s.(node := With(s.node, i, t)), p) == Balance(s, p)
  {
    hide Slack, Stored, Fetched, Held, With;
    SlackWith(s.node, i, t, p);
  }

  /** Executing a batch turns what the node still had to push into what Redis stores. */
  lemma ExecutesBalanced(cfg: Config, s: System, p: Parcel)
    requires SystemOk(cfg, s) && s.node.cmds != []
    ensures Balance(s.(node := s.node.(cmds := s.node.cmds[1..]), store := ExecBatch(s.store, s.node.cmds[0])), p)
      == Balance(s, p)
  {
    hide NodeOk, Stored, Fetched, ExecBatch, Held;
    assert BatchOk(cfg, s.node.cmds[0]);
    ExecBatchCounts(s.store, s.node.cmds[0], p);
  }

  lemma RepliesBalanced(cfg: Config, s: System, p: Parcel)
    requires ConfigOk(cfg) && SystemOk(cfg, s) && InRange(s.node) && s.store.inbox != []
    ensures Balance(Next(cfg, s, RedisReplies), p) == Balance(s, p)
  {
    hide Stored, Slack, Correlated, QueueOk, OnDbChatMsg, OnPush;
    var n, r := s.node, s.store.inbox[0];
    assert Fetched(s.store.inbox)[p] == FetchedBy(r)[p] + Fetched(s.store.inbox[1..])[p];
    match r
    case LRangeReply(tag, _, ps) =>
      FetchReplyOk(cfg, s);
      OnDbChatMsgEffect(cfg, n, n.fifo[0], ps, p);
      var n0 := OnDbChatMsg(cfg, n, n.fifo[0], ps);
      SlackSame(n0, n0.(fifo := n0.fifo[1..]), p);
    case Push(channel, payload) =>
      assert ReplyOk(cfg, r);
      OnPushEffect(cfg, n, channel, payload, p);
    case Confirm(_) =>
  }

  lemma ForeignStoreBalanced(cfg: Config, s: System, ps: seq<Parcel>, user: string, p: Parcel)
    requires ps != []
    ensures Balance(s.(node := s.node.(accepted := s.node.accepted + ps),
                       store := ExecBatch(s.store, StoreBatch(cfg, ps, user))), p) == Balance(s, p)
  {
    hide Stored, Fetched, ExecBatch, StoreBatch, Held;
    StoreBatchOk(cfg, ps, user);
    ExecBatchCounts(s.store, StoreBatch(cfg, ps, user), p);
  }

  lemma ForeignFetchBalanced(cfg: Config, s: System, user: string, p: Parcel)
    ensures var key := ListKey(cfg, user);
      Balance(s.(store := Exec(s.store, Del(key)), taken := s.taken + ListAt(s.store.lists, key)), p) == Balance(s, p)
  {
    hide Stored, Fetched, Exec, Slack;
    ExecCounts(s.store, Del(ListKey(cfg, user)), p);
  }

  lemma ForeignPublishBalanced(s: System, channel: string, payload: Payload, p: Parcel)
    ensures Balance(s.(store := Exec(s.store, Publish(channel, payload))), p) == Balance(s, p)
  {
    hide Stored, Fetched, Exec, Slack;
    ExecCounts(s.store, Publish(channel, payload), p);
  }

  lemma NextBalanced(cfg: Config, s: System, e: Event, p: Parcel)
    requires ConfigOk(cfg) && SystemOk(cfg, s) && Enabled(s, e)
    ensures Balance(Next(cfg, s, e), p) == Balance(s, p)
  {
    hide Balance, EntryOk, SlotOk, Slack, Requested, BatchOk, StoreOk, Correlated, QueueOk, ExecBatch, StoreBatch,
      OnRead, OnReadError, OnWritten, OnRun, ShutdownAll, OnReply, Held;
    var n := s.node;
    match e
    case Arrival => OnRunEffect(cfg, n, p); HandlerBalanced(s, OnRun(n), p);
    case AppRead(i, m) => OnReadEffect(cfg, n, i, m, p); HandlerBalanced(s, OnRead(cfg, n, i, m), p);
    case ReadFailed(i) =>
      assert SessionOk(n.sessions[i]);
      OnReadErrorSlack(cfg, n, i, p); HandlerBalanced(s, OnReadError(cfg, n, i), p);
    case WriteDone(i) => OnWrittenEffect(cfg, n, i, p); HandlerBalanced(s, OnWritten(n, i), p);
    case WriteFailed(i) =>
      HeldSame(n.sessions[i], OnWriteError(n.sessions[i])); WithBalanced(s, i, OnWriteError(n.sessions[i]), p);
    case PongArrived(i) => HeldSame(n.sessions[i], OnPong(n.sessions[i])); WithBalanced(s, i, OnPong(n.sessions[i]), p);
    case CloseCompleted(i) =>
      HeldSame(n.sessions[i], CloseDone(n.sessions[i])); WithBalanced(s, i, CloseDone(n.sessions[i]), p);
    case RedisExecutes => ExecutesBalanced(cfg, s, p);
    case RedisReplies => RepliesBalanced(cfg, s, p);
    case ForeignStore(user, msgs) => ForeignStoreBalanced(cfg, s, ParcelsFor(user, msgs), user, p);
    case ForeignFetch(user) => ForeignFetchBalanced(cfg, s, user, p);
    case ForeignPublish(channel, payload) => ForeignPublishBalanced(s, channel, payload, p);
    case Signal => ShutdownAllEffect(cfg, n, p); HandlerBalanced(s, ShutdownAll(n), p);
  }

  lemma InitBalanced(cfg: Config, p: Parcel)
    ensures Balance(Init(cfg), p) == 0
  {
  }

  lemma {:induction false} RunBalanced(cfg: Config, ss: seq<System>, es: seq<Event>, k: nat, p: Parcel)
    requires ConfigOk(cfg) && IsRun(cfg, ss, es) && k < |ss|
    ensures Balance(ss[k], p) == 0
  {
    hide IsRun, SystemOk, Next, Enabled, Balance, ConfigOk, InRange, Init;
    RunStep(cfg, ss, es, k);
    if k == 0 {
      InitBalanced(cfg, p);
    } else {
      RunBalanced(cfg, ss, es, k - 1, p);
      RunOk(cfg, ss, es, k - 1);
      NextBalanced(cfg, ss[k - 1], es[k - 1], p);
    }
  }

  // The buckets ------------------------------------------------------------------------------

  /** Persistent messages written to a client without an error. */
  ghost function DeliveredBy(s: Session): multiset<Parcel> {
    multiset(Kept(s.written))
  }

  /** Persistent messages waiting in the queue of a session that still has its user. */
  ghost function QueuedBy(s: Session): multiset<Parcel> {
    if LoggedIn(s) then multiset(Kept(s.queue)) else multiset{}
  }

  /** Persistent messages left in the queue of a session whose user has logged in elsewhere; such a
      session gives nothing back when it ends, unless its client logs in again before that. */
  ghost function DiscardedBy(s: Session): multiset<Parcel> {
    if LoggedIn(s) then multiset{} else multiset(Kept(s.queue))
  }

  ghost function WaitingIn(s: Session): multiset<Parcel> {
    multiset(Kept(s.queue))
  }

  ghost function Delivered(n: Node): multiset<Parcel> { Sum(DeliveredBy, n.sessions) }
  ghost function Queued(n: Node): multiset<Parcel> { Sum(QueuedBy, n.sessions) }
  ghost function Discarded(n: Node): multiset<Parcel> { Sum(DiscardedBy, n.sessions) }

  lemma HeldSplit(n: Node, p: Parcel)
    ensures Sum(Held, n.sessions)[p] == Delivered(n)[p] + Queued(n)[p] + Discarded(n)[p]
  {
    SumSplit(Held, DeliveredBy, WaitingIn, n.sessions, p);
    SumSplit(WaitingIn, QueuedBy, DiscardedBy, n.sessions, p);
  }

  /** In every state of every run, the persistent messages ever accepted are exactly those waiting to
      be pushed to Redis, stored there, fetched but not handled, waiting in queues, written, left
      behind by a relogin, or taken by other nodes. */
  lemma Conserved(cfg: Config, ss: seq<System>, es: seq<Event>, k: nat)
    requires ConfigOk(cfg) && IsRun(cfg, ss, es) && k < |ss|
    ensures var s := ss[k];
      multiset(s.node.accepted)
      == Pending(s.node.cmds) + Stored(s.store.lists) + Fetched(s.store.inbox)
         + Queued(s.node) + Delivered(s.node) + Discarded(s.node) + multiset(s.taken)
  {
    hide Sum, Stored;
    forall p: Parcel
      ensures var s := ss[k];
        multiset(s.node.accepted)[p]
        == (Pending(s.node.cmds) + Stored(s.store.lists) + Fetched(s.store.inbox)
            + Queued(s.node) + Delivered(s.node) + Discarded(s.node) + multiset(s.taken))[p]
    {
      RunBalanced(cfg, ss, es, k, p);
      HeldSplit(ss[k].node, p);
    }
  }
}
