/** Where the messages of one user are, and what becomes of them. */
module Delivery {
  import opened Prelude
  import opened Crypto
  import opened Messages
  import opened Sessions
  import opened Redis
  import opened Nodes
  import opened NodeInvariant
  import opened Systems
  import opened Wire
  import opened Safety
  import opened Subscriptions
  import opened Conservation
  import opened Routing
  import opened Ownership

  /** The persistent messages in the queue of the session of `u`. */
  function QueueOf(n: Node, u: string): seq<Parcel> {
    if u in n.index && n.index[u] < |n.sessions| then Kept(n.sessions[n.index[u]].queue) else []
  }

  /** The key under which on_lrange stores the messages of `u` again when it finds no session for the
      value on_push has queued: the key of the list itself, or that key with a second prefix. */
  function RefetchKey(cfg: Config, u: string): string {
    ListKey(cfg, PushedValue(cfg, u))
  }

  lemma QueuedAtUser(n: Node, p: Parcel)
    requires NodeOk(n) && SessionsRouted(n)
    ensures Queued(n)[p] == multiset(QueueOf(n, p.addr))[p]
  {
    hide Kept, IsDigest;
    forall k | 0 <= k < |n.sessions| && !(p.addr in n.index && n.index[p.addr] == k)
      ensures QueuedBy(n.sessions[k])[p] == 0
    {
      QueuedElsewhere(n, k, p);
    }
    if p.addr in n.index {
      assert EntryOk(n, p.addr);
      SumOnly(QueuedBy, n.sessions, n.index[p.addr], p);
      assert LoggedIn(n.sessions[n.index[p.addr]]) by { DigestNotEmpty(p.addr); }
    } else {
      SumNone(QueuedBy, n.sessions, p);
    }
  }

  lemma DigestNotEmpty(u: string)
    requires IsDigest(u)
    ensures u != ""
  {
  }

  lemma QueuedElsewhere(n: Node, k: nat, p: Parcel)
    requires NodeOk(n) && SessionsRouted(n) && k < |n.sessions|
    requires !(p.addr in n.index && n.index[p.addr] == k)
    ensures QueuedBy(n.sessions[k])[p] == 0
  {
    var s := n.sessions[k];
    assert SessionOk(s) && SessionRouted(s) && SlotOk(n, k);
    assert Open(s) && LoggedIn(s) ==> forall q :: q in Kept(s.queue) ==> q.addr == s.pubHash;
  }

  /** Redis stores the messages of a user in the user's list, or in the list at RefetchKey. */
  lemma StoredAtUser(cfg: Config, r: Store, p: Parcel)
    requires ConfigOk(cfg) && StoreRouted(cfg, r)
    ensures Stored(r.lists)[p] == multiset(ListAt(r.lists, ListKey(cfg, p.addr)))[p]
      + if cfg.pushed.QueuesListKey? then multiset(ListAt(r.lists, RefetchKey(cfg, p.addr)))[p] else 0
  {
    hide Stored, AllBelong, Belongs;
    var key, again := ListKey(cfg, p.addr), ListKey(cfg, ListKey(cfg, p.addr));
    StoredWithout(r.lists, key, p);
    var lists1 := r.lists - {key};
    StoredWithout(lists1, again, p);
    var lists2 := lists1 - {again};
    assert |again| == |key| + |cfg.chatPrefix|;
    forall k | k in lists2.Keys ensures p !in ListAt(lists2, k) {
      StoredElsewhere(cfg, r, k, p);
    }
    NothingStored(lists2, p);
    if !cfg.pushed.QueuesListKey? {
      if again in r.lists { StoredElsewhere(cfg, r, again, p); }
    }
  }

  lemma NothingStored(lists: map<string, seq<Parcel>>, p: Parcel)
    requires forall k :: k in lists.Keys ==> p !in ListAt(lists, k)
    ensures Stored(lists)[p] == 0
  {
    StoredUnderNone(lists, lists.Keys, p);
  }

  lemma StoredElsewhere(cfg: Config, r: Store, k: string, p: Parcel)
    requires StoreRouted(cfg, r) && k in r.lists && k != ListKey(cfg, p.addr)
    requires cfg.pushed.QueuesListKey? ==> k != ListKey(cfg, ListKey(cfg, p.addr))
    ensures p !in r.lists[k]
  {
    assert KeyRouted(cfg, k, r.lists[k]);
    Reprefix(cfg.chatPrefix, k);
    assert p in r.lists[k] ==> Belongs(cfg, p.addr, Rest(cfg.chatPrefix, k));
  }

  /** Conservation for one message, addressee by addressee: in a run in which no login misroutes, the
      copies accepted for a user are those on the way to and from Redis, those in the user's own lists
      and in the queue of the user's own session, those written by sessions that were the user's when they
      were given them, and those discarded or taken. */
  lemma AddresseeConserved(cfg: Config, ss: seq<System>, es: seq<Event>, k: nat, p: Parcel)
    requires ConfigOk(cfg) && IsRun(cfg, ss, es) && k < |ss|
    requires forall j :: 0 <= j < |es| ==> !Misroutes(cfg, ss[j], es[j])
    ensures var s := ss[k];
      multiset(s.node.accepted)[p]
      == Pending(s.node.cmds)[p] + Fetched(s.store.inbox)[p]
         + multiset(ListAt(s.store.lists, ListKey(cfg, p.addr)))[p]
         + (if cfg.pushed.QueuesListKey? then multiset(ListAt(s.store.lists, RefetchKey(cfg, p.addr)))[p] else 0)
         + multiset(QueueOf(s.node, p.addr))[p]
         + Delivered(s.node)[p] + Discarded(s.node)[p] + multiset(s.taken)[p]
    ensures WrittenToOwner(ss, k, p)
  {
    hide WrittenToOwner, Sum, Stored, Pending, Fetched, Queued, Delivered, Discarded, QueueOf, Misroutes, QueueOk, StoreOk, Correlated,
      NodeOk, StoreRouted, SessionsRouted, CmdsRouted, Next, Enabled;
    Conserved(cfg, ss, es, k);
    RunOk(cfg, ss, es, k);
    RunRouted(cfg, ss, es, k);
    AllWrittenToOwner(cfg, ss, es, k, p);
    StoredAtUser(cfg, ss[k].store, p);
    QueuedAtUser(ss[k].node, p);
  }

  /** When nothing is under way between node and Redis, the list of a user who is logged in, and whose
      session is not being closed, is empty, whatever on_push queues. */
  lemma NothingLeftBehind(cfg: Config, ss: seq<System>, es: seq<Event>, k: nat, u: string)
    requires ConfigOk(cfg) && IsRun(cfg, ss, es) && k < |ss|
    requires ss[k].node.cmds == [] && ss[k].store.inbox == []
    requires u in ss[k].node.index && ss[k].node.index[u] < |ss[k].node.sessions|
    requires !ss[k].node.sessions[ss[k].node.index[u]].closing
    ensures ListAt(ss[k].store.lists, ListKey(cfg, u)) == []
  {
    hide IsRun, SystemOk, IsDigest;
    RunOk(cfg, ss, es, k);
    MappedIsDigest(cfg, ss[k], u);
    RunAgrees(cfg, ss, es, k, u);
    RunNotOverlooked(cfg, ss, es, k, u);
  }

  lemma MappedIsDigest(cfg: Config, s: System, u: string)
    requires SystemOk(cfg, s) && u in s.node.index
    ensures IsDigest(u)
  {
    assert EntryOk(s.node, u);
  }

  /** The point of the whole protocol.  With the user id queued, as documented: when nothing is under
      way, every message ever accepted for a user who is logged in has reached a session: it waits in
      the queue of the user's session, has been written to a client that was the user's, was discarded by
      a relogin, or was taken by another node.  With the key queued, as written, the messages fetched after a notification stay
      in the list under the doubly prefixed key. */
  lemma HandedOver(cfg: Config, ss: seq<System>, es: seq<Event>, k: nat, p: Parcel)
    requires ConfigOk(cfg) && IsRun(cfg, ss, es) && k < |ss|
    requires forall j :: 0 <= j < |es| ==> !Misroutes(cfg, ss[j], es[j])
    requires ss[k].node.cmds == [] && ss[k].store.inbox == []
    requires p.addr in ss[k].node.index && ss[k].node.index[p.addr] < |ss[k].node.sessions|
    requires !ss[k].node.sessions[ss[k].node.index[p.addr]].closing
    ensures var s := ss[k];
      multiset(s.node.accepted)[p]
      == multiset(ListAt(s.store.lists, RefetchKey(cfg, p.addr)))[p]
         + multiset(QueueOf(s.node, p.addr))[p]
         + Delivered(s.node)[p] + Discarded(s.node)[p] + multiset(s.taken)[p]
    ensures cfg.pushed.QueuesUserId? ==> ListAt(ss[k].store.lists, RefetchKey(cfg, p.addr)) == []
    ensures WrittenToOwner(ss, k, p)
  {
    hide IsRun, Misroutes, Delivered, Discarded, QueueOf, Stored, WrittenToOwner;
    AddresseeConserved(cfg, ss, es, k, p);
    NothingLeftBehind(cfg, ss, es, k, p.addr);
  }

  // Presence -----------------------------------------------------------------------------------

  /** A presence message that arrives goes to the session of its user, and to nobody when the user has left;
      it is never stored, and the assertion behind it does not fail. */
  lemma PresenceReply(cfg: Config, s: System, u: string, payload: Payload)
    requires ConfigOk(cfg) && SystemOk(cfg, s) && Enabled(s, RedisReplies)
    requires s.store.inbox[0] == Push(PresenceChannel(u), payload) && !payload.Keyspace?
    ensures var n, n1 := s.node, Next(cfg, s, RedisReplies).node;
      && (u in n.index ==>
            && n.index[u] < |n.sessions| == |n1.sessions| && n.sessions[n.index[u]].pubHash == u
            && n1.sessions[n.index[u]].sent == n.sessions[n.index[u]].sent + [Entry(Parcel(u, Relayed(payload)), false)]
            && n1 == SendTo(n, n.index[u], Entry(Parcel(u, Relayed(payload)), false)))
      && (u !in n.index ==> n1 == n)
  {
    hide QueueOk, StoreOk, Correlated, SlotOk, IsDigest, Send;
    Unprefix(PRESENCE, u);
    if u in s.node.index {
      assert EntryOk(s.node, u) && SessionOk(s.node.sessions[s.node.index[u]]);
      SendAppends(s.node.sessions[s.node.index[u]], Entry(Parcel(u, Relayed(payload)), false));
    }
  }

  // The key that on_push queues ----------------------------------------------------------------

  /** A reply that a notification has caused reaches the session of a user who is logged in if and only
      if on_push queues the user id; otherwise no session is touched and the messages go to the list
      under the doubly prefixed key. */
  lemma NotificationReply(cfg: Config, s: System, u: string, ps: seq<Parcel>)
    requires ConfigOk(cfg) && SystemOk(cfg, s) && Enabled(s, RedisReplies)
    requires u in s.node.index && s.store.inbox[0] == LRangeReply(PushedValue(cfg, u), ListKey(cfg, u), ps) && ps != []
    ensures var n, n1 := s.node, Next(cfg, s, RedisReplies).node;
      && n.index[u] < |n.sessions|
      && n1.sessions == (if cfg.pushed.QueuesUserId?
                         then n.sessions[n.index[u] := SendAll(n.sessions[n.index[u]], ps)] else n.sessions)
      && Grows(n.sessions[n.index[u]], n1.sessions[n.index[u]], if cfg.pushed.QueuesUserId? then ps else [])
      && n1.cmds == (if cfg.pushed.QueuesUserId? then n.cmds else n.cmds + [StoreBatch(cfg, ps, ListKey(cfg, u))])
      && ListKey(cfg, ListKey(cfg, u)) != ListKey(cfg, u)
  {
    hide QueueOk, StoreOk, Correlated, StoreBatch, SlotOk, SendAll;
    FetchReplyOk(cfg, s);
    SendAllInOrder(s.node.sessions[s.node.index[u]], ps);
    assert EntryOk(s.node, u) && SessionOk(s.node.sessions[s.node.index[u]]);
    PrefixedIsNoDigest(cfg.chatPrefix, u);
    assert ListKey(cfg, u) in s.node.index ==> EntryOk(s.node, ListKey(cfg, u));
    assert |ListKey(cfg, ListKey(cfg, u))| > |ListKey(cfg, u)|;
  }

  /** A list under a doubly prefixed key is never fetched: this node only ever adds to it. */
  lemma DoublyPrefixedStays(cfg: Config, s: System, e: Event, u: string)
    requires ConfigOk(cfg) && SystemOk(cfg, s) && Enabled(s, e)
    requires e != ForeignFetch(ListKey(cfg, u))
    ensures var key := ListKey(cfg, ListKey(cfg, u));
      ListAt(s.store.lists, key) <= ListAt(Next(cfg, s, e).store.lists, key)
  {
    hide NodeOk, StoreOk, Correlated, CmdOk, Paired, FetchesWhatItWatches, ExecBatch, StoreBatch,
      OnRead, OnReadError, OnWritten, OnRun, ShutdownAll, OnReply;
    var key := ListKey(cfg, ListKey(cfg, u));
    match e
    case RedisExecutes =>
      assert BatchOk(cfg, s.node.cmds[0]);
      assert forall c :: c in s.node.cmds[0] ==> c != Del(key) by { NeverDeleted(cfg, s.node.cmds[0], u); }
      ExecBatchAdds(s.store, s.node.cmds[0], key);
    case ForeignStore(user, msgs) =>
      var b := StoreBatch(cfg, ParcelsFor(user, msgs), user);
      assert forall c :: c in b ==> c != Del(key) by { StoreBatchDeletesNothing(cfg, ParcelsFor(user, msgs), user); }
      ExecBatchAdds(s.store, b, key);
    case ForeignFetch(user) =>
      if ListKey(cfg, user) == key { PrefixInjective(cfg.chatPrefix, user, ListKey(cfg, u)); }
      DelAdds(s.store, ListKey(cfg, user), key);
    case _ =>
  }

  lemma NeverDeleted(cfg: Config, b: Batch, u: string)
    requires ConfigOk(cfg) && BatchOk(cfg, b)
    ensures Del(ListKey(cfg, ListKey(cfg, u))) !in b
  {
    hide Paired, FetchesWhatItWatches;
    Unprefix(cfg.chatPrefix, ListKey(cfg, u));
    PrefixedIsNoDigest(cfg.chatPrefix, u);
    assert !CmdOk(cfg, Del(ListKey(cfg, ListKey(cfg, u))));
  }

  lemma StoreBatchDeletesNothing(cfg: Config, ps: seq<Parcel>, to: string)
    requires ps != []
    ensures forall c :: c in StoreBatch(cfg, ps, to) ==> !c.Del?
  {
  }

  lemma DelAdds(r: Store, k: string, key: string)
    requires k != key
    ensures ListAt(Exec(r, Del(k)).lists, key) == ListAt(r.lists, key)
  {
  }

  lemma {:induction false} ExecBatchAdds(r: Store, b: Batch, key: string)
    requires Del(key) !in b
    ensures ListAt(r.lists, key) <= ListAt(ExecBatch(r, b).lists, key)
    decreases |b|
  {
    if b != [] {
      assert ListAt(r.lists, key) <= ListAt(Exec(r, b[0]).lists, key);
      ExecBatchAdds(Exec(r, b[0]), b[1..], key);
    }
  }
}
