/** The global invariant of a node and its Redis, kept by every event, and what follows from it for
    every run: no fault, agreement of map and sessions, the write discipline, exact session counts,
    and the correlation of replies with requests. */
module Safety {
  import opened Messages
  import opened Sessions
  import opened Redis
  import opened Nodes
  import opened NodeInvariant
  import opened Systems
  import opened Wire
  import opened Effects

  ghost predicate QueueOk(cfg: Config, cmds: seq<Batch>) {
    forall b :: b in cmds ==> BatchOk(cfg, b)
  }

  /** The queue of tags is, in order, the tags of the replies not handled and of the range commands
      not executed. */
  ghost predicate Correlated(s: System) {
    s.node.fifo == ReplyTags(s.store.inbox) + QueueTags(s.node.cmds)
  }

  ghost predicate SystemOk(cfg: Config, s: System) {
    && NodeOk(s.node)
    && QueueOk(cfg, s.node.cmds)
    && StoreOk(cfg, s.store)
    && Correlated(s)
  }

  lemma InitOk(cfg: Config)
    ensures SystemOk(cfg, Init(cfg)) && InRange(Init(cfg).node)
  {
  }

  /** A handler that only requests keeps the conversation in order. */
  lemma RequestedOk(cfg: Config, s: System, n1: Node)
    requires SystemOk(cfg, s) && Requested(cfg, s.node, n1) && NodeOk(n1)
    ensures SystemOk(cfg, s.(node := n1))
  {
    hide NodeOk, BatchOk, StoreOk;
    var more := n1.cmds[|s.node.cmds|..];
    assert n1.cmds == s.node.cmds + more;
    QueueTagsConcat(s.node.cmds, more);
  }

  lemma WithSystemOk(cfg: Config, s: System, i: nat, t: Session)
    requires SystemOk(cfg, s) && i < |s.node.sessions| && SessionOk(t)
    requires t.pubHash == s.node.sessions[i].pubHash && t.finishes == s.node.sessions[i].finishes
    ensures SystemOk(cfg, s.(node := With(s.node, i, t)))
  {
    hide BatchOk, StoreOk, SessionOk, EntryOk, SlotOk;
    WithOk(s.node, i, t);
  }

  lemma ReplyOkStep(cfg: Config, s: System)
    requires ConfigOk(cfg) && SystemOk(cfg, s) && InRange(s.node) && s.store.inbox != []
    ensures SystemOk(cfg, Next(cfg, s, RedisReplies))
  {
    var r := s.store.inbox[0];
    match r
    case LRangeReply(tag, _, ps) => FetchReplyOk(cfg, s);
    case Push(channel, payload) => PushOk(cfg, s);
    case Confirm(_) => DropReply(cfg, s);
  }

  /** Taking a notification out of the inbox. */
  lemma DropReply(cfg: Config, s: System)
    requires SystemOk(cfg, s) && s.store.inbox != [] && !s.store.inbox[0].LRangeReply?
    ensures SystemOk(cfg, s.(store := s.store.(inbox := s.store.inbox[1..])))
  {
    hide NodeOk, BatchOk, IsNotifyChannel, IsPresenceChannel;
  }

  lemma PushOk(cfg: Config, s: System)
    requires ConfigOk(cfg) && SystemOk(cfg, s) && InRange(s.node) && s.store.inbox != [] && s.store.inbox[0].Push?
    ensures SystemOk(cfg, Next(cfg, s, RedisReplies))
  {
    hide BatchOk, SessionOk, EntryOk, SlotOk, Requested, Slack;
    var r := s.store.inbox[0];
    var n1 := OnReply(cfg, s.node, r);
    assert ReplyOk(cfg, r);
    OnPushOk(cfg, s.node, r.channel, r.payload);
    OnPushEffect(cfg, s.node, r.channel, r.payload, Parcel("", LoginAck(true)));
    RequestedOk(cfg, s, n1);
    DropReply(cfg, s.(node := n1));
  }

  /** on_lrange finds in the queue the very tag its reply was requested with. */
  lemma FetchReplyOk(cfg: Config, s: System)
    requires SystemOk(cfg, s) && InRange(s.node) && s.store.inbox != [] && s.store.inbox[0].LRangeReply?
    ensures s.node.fifo != [] && s.node.fifo[0] == s.store.inbox[0].tag
    ensures SystemOk(cfg, Next(cfg, s, RedisReplies))
  {
    hide NodeOk, BatchOk, Slack, IsNotifyChannel, IsPresenceChannel, OnDbChatMsg, StoreOk, Requested;
    var n, r := s.node, s.store.inbox[0];
    var n0 := OnDbChatMsg(cfg, n, n.fifo[0], r.parcels);
    OnDbChatMsgOk(cfg, n, n.fifo[0], r.parcels);
    OnDbChatMsgEffect(cfg, n, n.fifo[0], r.parcels, Parcel("", LoginAck(true)));
    RequestedOk(cfg, s, n0);
    OnDbChatMsgFifo(cfg, n, n.fifo[0], r.parcels);
    PopOk(cfg, s.(node := n0));
  }

  /** A reply and its tag leave together. */
  lemma PopOk(cfg: Config, s: System)
    requires SystemOk(cfg, s) && s.store.inbox != [] && s.store.inbox[0].LRangeReply?
    ensures s.node.fifo != []
    ensures SystemOk(cfg, s.(node := s.node.(fifo := s.node.fifo[1..]), store := s.store.(inbox := s.store.inbox[1..])))
  {
    hide EntryOk, SlotOk, SessionOk, BatchOk, StoreOk;
    SameOk(s.node, s.node.(fifo := s.node.fifo[1..]));
    InboxTailOk(cfg, s.store);
  }

  lemma InboxTailOk(cfg: Config, r: Store)
    requires StoreOk(cfg, r) && r.inbox != []
    ensures StoreOk(cfg, r.(inbox := r.inbox[1..]))
  {
    hide IsNotifyChannel, IsPresenceChannel;
  }

  lemma ExecutesOk(cfg: Config, s: System)
    requires ConfigOk(cfg) && SystemOk(cfg, s) && s.node.cmds != []
    ensures SystemOk(cfg, s.(node := s.node.(cmds := s.node.cmds[1..]), store := ExecBatch(s.store, s.node.cmds[0])))
  {
    hide SessionOk, IsNotifyChannel, IsPresenceChannel, ExecBatch;
    assert BatchOk(cfg, s.node.cmds[0]);
    ExecBatchStoreOk(cfg, s.store, s.node.cmds[0]);
    ExecBatchTags(s.store, s.node.cmds[0]);
    SameOk(s.node, s.node.(cmds := s.node.cmds[1..]));
  }

  lemma ForeignStoreOk(cfg: Config, s: System, ps: seq<Parcel>, user: string)
    requires ConfigOk(cfg) && SystemOk(cfg, s) && ps != []
    ensures SystemOk(cfg, s.(node := s.node.(accepted := s.node.accepted + ps),
                             store := ExecBatch(s.store, StoreBatch(cfg, ps, user))))
  {
    hide SessionOk, IsNotifyChannel, IsPresenceChannel, ExecBatch, CmdTags, PushedByBatch, StoreBatch, Paired;
    StoreBatchOk(cfg, ps, user);
    ExecBatchStoreOk(cfg, s.store, StoreBatch(cfg, ps, user));
    ExecBatchTags(s.store, StoreBatch(cfg, ps, user));
    SameOk(s.node, s.node.(accepted := s.node.accepted + ps));
  }

  lemma ForeignFetchOk(cfg: Config, s: System, user: string)
    requires ConfigOk(cfg) && SystemOk(cfg, s)
    ensures SystemOk(cfg, s.(store := Exec(s.store, Del(ListKey(cfg, user)))))
  {
    hide SessionOk, IsNotifyChannel, IsPresenceChannel, Exec;
    ExecStoreOk(cfg, s.store, Del(ListKey(cfg, user)));
    ExecTags(s.store, Del(ListKey(cfg, user)));
  }

  lemma ForeignPublishOk(cfg: Config, s: System, channel: string, payload: Payload)
    requires ConfigOk(cfg) && SystemOk(cfg, s) && !payload.Keyspace?
    ensures SystemOk(cfg, s.(store := Exec(s.store, Publish(channel, payload))))
  {
    hide SessionOk, IsNotifyChannel, IsPresenceChannel, Exec;
    ExecStoreOk(cfg, s.store, Publish(channel, payload));
    ExecTags(s.store, Publish(channel, payload));
  }

  /** `taken` is a history. */
  lemma TakenOk(cfg: Config, s: System, taken: seq<Parcel>)
    requires SystemOk(cfg, s)
    ensures SystemOk(cfg, s.(taken := taken))
  {
    hide NodeOk, QueueOk, StoreOk;
  }

  /** A session that is being read has not ended. */
  lemma ReadIsOpen(cfg: Config, s: System, i: nat)
    requires SystemOk(cfg, s) && i < |s.node.sessions| && s.node.sessions[i].readOps > 0
    ensures Open(s.node.sessions[i])
  {
    assert SessionOk(s.node.sessions[i]);
  }

  /** The invariant is kept by every event. */
  lemma NextOk(cfg: Config, s: System, e: Event)
    requires ConfigOk(cfg) && SystemOk(cfg, s) && Enabled(s, e)
    ensures SystemOk(cfg, Next(cfg, s, e)) && InRange(Next(cfg, s, e).node)
  {
    hide SessionOk, EntryOk, SlotOk, Slack, Requested, BatchOk, StoreOk, Correlated, QueueOk;
    NextSystemOk(cfg, s, e);
    InRangeOk(Next(cfg, s, e).node);
  }

  lemma NextSystemOk(cfg: Config, s: System, e: Event)
    requires ConfigOk(cfg) && SystemOk(cfg, s) && Enabled(s, e)
    ensures SystemOk(cfg, Next(cfg, s, e))
  {
    hide EntryOk, SlotOk, Slack, Requested, BatchOk, StoreOk, Correlated, QueueOk, ExecBatch, StoreBatch,
      OnRead, OnReadError, OnWritten, OnRun, ShutdownAll, OnReply;
    var n := s.node;
    var p := Parcel("", LoginAck(true));
    match e
    case Arrival => OnRunOk(n); OnRunEffect(cfg, n, p); RequestedOk(cfg, s, OnRun(n));
    case AppRead(i, m) =>
      assert SessionOk(n.sessions[i]);
      OnReadOk(cfg, n, i, m); OnReadEffect(cfg, n, i, m, p); RequestedOk(cfg, s, OnRead(cfg, n, i, m));
    case ReadFailed(i) =>
      assert SessionOk(n.sessions[i]);
      OnReadErrorOk(cfg, n, i); OnReadErrorRequests(cfg, n, i); RequestedOk(cfg, s, OnReadError(cfg, n, i));
    case WriteDone(i) => OnWrittenOk(n, i); OnWrittenEffect(cfg, n, i, p); RequestedOk(cfg, s, OnWritten(n, i));
    case WriteFailed(i) => assert SessionOk(n.sessions[i]); WithSystemOk(cfg, s, i, OnWriteError(n.sessions[i]));
    case PongArrived(i) => assert SessionOk(n.sessions[i]); WithSystemOk(cfg, s, i, OnPong(n.sessions[i]));
    case CloseCompleted(i) => assert SessionOk(n.sessions[i]); WithSystemOk(cfg, s, i, CloseDone(n.sessions[i]));
    case RedisExecutes => ExecutesOk(cfg, s);
    case RedisReplies => ReplyOkStep(cfg, s);
    case ForeignStore(user, msgs) => ForeignStoreOk(cfg, s, ParcelsFor(user, msgs), user);
    case ForeignFetch(user) =>
      ForeignFetchOk(cfg, s, user);
      TakenOk(cfg, s.(store := Exec(s.store, Del(ListKey(cfg, user)))),
              s.taken + ListAt(s.store.lists, ListKey(cfg, user)));
    case ForeignPublish(channel, payload) => ForeignPublishOk(cfg, s, channel, payload);
    case Signal => ShutdownAllOk(n); ShutdownAllEffect(cfg, n, p); RequestedOk(cfg, s, ShutdownAll(n));
  }

  /** Every state of every run satisfies the invariant; in particular every event that the transport
      or Redis can produce is enabled. */
  lemma {:induction false} RunOk(cfg: Config, ss: seq<System>, es: seq<Event>, k: nat)
    requires ConfigOk(cfg) && IsRun(cfg, ss, es) && k < |ss|
    ensures SystemOk(cfg, ss[k]) && InRange(ss[k].node)
  {
    if k == 0 {
      InitOk(cfg);
    } else {
      RunOk(cfg, ss, es, k - 1);
      NextOk(cfg, ss[k - 1], es[k - 1]);
    }
  }

  // What follows for every state of every run --------------------------------------------------------

  /** No assertion of the source fails, no empty queue is popped, and every entry of the map refers to a
      session that some handler still owns, so that locking its weak pointer succeeds. */
  lemma NoFault(cfg: Config, ss: seq<System>, es: seq<Event>, k: nat, u: string)
    requires ConfigOk(cfg) && IsRun(cfg, ss, es) && k < |ss|
    ensures !ss[k].node.faulted
    ensures var n := ss[k].node;
      u in n.index ==> n.index[u] < |n.sessions| && Open(n.sessions[n.index[u]]) && Alive(n.sessions[n.index[u]])
  {
    hide IsRun, QueueOk, StoreOk, Correlated;
    RunOk(cfg, ss, es, k);
    var n := ss[k].node;
    if u in n.index {
      assert EntryOk(n, u) && SessionOk(n.sessions[n.index[u]]);
    }
  }

  /** An unfinished session has the user id `u` exactly when the map gives it for `u`. */
  lemma MapIsExact(cfg: Config, ss: seq<System>, es: seq<Event>, k: nat, i: nat, u: string)
    requires ConfigOk(cfg) && IsRun(cfg, ss, es) && k < |ss| && i < |ss[k].node.sessions| && u != ""
    ensures var n := ss[k].node;
      (u in n.index && n.index[u] == i) <==> (Open(n.sessions[i]) && n.sessions[i].pubHash == u)
  {
    hide IsRun, QueueOk, StoreOk, Correlated, SessionOk;
    RunOk(cfg, ss, es, k);
    var n := ss[k].node;
    assert SlotOk(n, i);
    assert u in n.index ==> EntryOk(n, u);
  }

  /** After any chain of relogins: the end of a session removes the entry that refers to it, if there is
      one, and no other; the end of an overridden session leaves the map as it is. */
  lemma EndEvictsOnlyItself(cfg: Config, ss: seq<System>, es: seq<Event>, k: nat, u: string)
    requires ConfigOk(cfg) && IsRun(cfg, ss, es) && k < |es| && es[k].ReadFailed?
    ensures var n, n1, i := ss[k].node, ss[k + 1].node, es[k].i;
      && i < |n.sessions|
      && (u in n.index && n.index[u] != i ==> u in n1.index && n1.index[u] == n.index[u])
      && (u in n1.index ==> u in n.index && n.index[u] != i)
      && (n.sessions[i].pubHash == "" ==> n1.index == n.index)
  {
    hide QueueOk, StoreOk, Correlated, OnReadError;
    RunOk(cfg, ss, es, k);
    var n, i := ss[k].node, es[k].i;
    assert Enabled(ss[k], es[k]) && SessionOk(n.sessions[i]) && SlotOk(n, i);
    OnReadErrorShape(cfg, n, i);
    assert u in n.index ==> EntryOk(n, u);
    assert "" in n.index ==> EntryOk(n, "");
  }

  /** Every session writes one buffer at a time and keeps the order: until it ends, what it has written,
      followed by its queue, is what it was given to send, the write in flight is of the front of the
      queue, and while it is not closing and no write has failed a non-empty queue is being written. After a
      failed write nothing more is written. */
  lemma WriteDiscipline(cfg: Config, ss: seq<System>, es: seq<Event>, k: nat, i: nat)
    requires ConfigOk(cfg) && IsRun(cfg, ss, es) && k < |ss| && i < |ss[k].node.sessions|
    ensures var s := ss[k].node.sessions[i];
      && |s.inFlight| <= 1 && s.written <= s.sent
      && (Open(s) ==>
            && s.written + s.queue == s.sent
            && (s.inFlight != [] ==> s.queue != [] && s.inFlight[0] == s.queue[0])
            && (!s.closing && !s.writeFailed && s.queue != [] ==> s.inFlight == [s.queue[0]])
            && (s.writeFailed ==> s.inFlight == [] && s.queue != []))
  {
    hide IsRun, QueueOk, StoreOk, Correlated, IndexOk;
    RunOk(cfg, ss, es, k);
    assert SessionOk(ss[k].node.sessions[i]);
  }

  /** The count of sessions is exact and never negative; a session finishes at most once, and has one
      outstanding read until then and none afterwards. */
  lemma TeardownIsExact(cfg: Config, ss: seq<System>, es: seq<Event>, k: nat)
    requires ConfigOk(cfg) && IsRun(cfg, ss, es) && k < |ss|
    ensures var n := ss[k].node;
      && n.live == OpenCount(n.sessions) && 0 <= n.live <= |n.sessions|
      && forall i :: 0 <= i < |n.sessions| ==>
          n.sessions[i].finishes <= 1 && n.sessions[i].readOps == 1 - n.sessions[i].finishes
  {
    hide IsRun, QueueOk, StoreOk, Correlated, IndexOk;
    RunOk(cfg, ss, es, k);
    OpenCountBounds(ss[k].node.sessions);
    forall i | 0 <= i < |ss[k].node.sessions| ensures SessionOk(ss[k].node.sessions[i]) {}
  }

  /** The queue of user ids is at all times the list of tags of the ranges not answered, and the front is
      the tag of the reply that is handled next. */
  lemma RepliesMeetRequests(cfg: Config, ss: seq<System>, es: seq<Event>, k: nat)
    requires ConfigOk(cfg) && IsRun(cfg, ss, es) && k < |ss|
    ensures Correlated(ss[k])
    ensures ss[k].store.inbox != [] && ss[k].store.inbox[0].LRangeReply? ==>
      ss[k].node.fifo != [] && ss[k].node.fifo[0] == ss[k].store.inbox[0].tag
  {
    hide IsRun, NodeOk, QueueOk, StoreOk;
    RunOk(cfg, ss, es, k);
  }
}
