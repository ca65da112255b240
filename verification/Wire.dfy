/** The conversation with Redis: every command the node sends has one of a few shapes, every
    notification it receives concerns a user id, and replies meet the requests they belong to. */
module Wire {
  import opened Prelude
  import opened Crypto
  import opened Messages
  import opened Redis
  import opened Nodes

  predicate IsNotifyChannel(cfg: Config, ch: string) {
    NotifyPrefix(cfg) <= ch && IsDigest(Rest(NotifyPrefix(cfg), ch))
  }

  predicate IsPresenceChannel(ch: string) {
    PRESENCE <= ch && IsDigest(Rest(PRESENCE, ch))
  }

  /** The key of the list of a user id. */
  predicate IsUserKey(cfg: Config, key: string) {
    cfg.chatPrefix <= key && IsDigest(Rest(cfg.chatPrefix, key))
  }

  predicate CmdOk(cfg: Config, c: Cmd) {
    match c
    case Subscribe(ch) => IsNotifyChannel(cfg, ch) || IsPresenceChannel(ch)
    case Unsubscribe(ch) => IsNotifyChannel(cfg, ch) || IsPresenceChannel(ch)
    case LRange(key, tag) =>
      IsUserKey(cfg, key) &&
      var user := Rest(cfg.chatPrefix, key);
      tag == user || tag == PushedValue(cfg, user)
    case Del(key) => IsUserKey(cfg, key)
    case RPush(key, ps) => cfg.chatPrefix <= key && ps != []
    case Publish(_, payload) => !payload.Keyspace?
    case _ => true
  }

  /** Whether the list at `key` is fetched. */
  predicate Fetches(b: Batch, key: string) {
    b != [] && ((b[0].LRange? && b[0].key == key) || Fetches(b[1..], key))
  }

  /** A batch that subscribes to the notifications of a list goes on to fetch the list. */
  predicate FetchesWhatItWatches(cfg: Config, b: Batch) {
    b == [] ||
    ((b[0].Subscribe? && IsNotifyChannel(cfg, b[0].channel) ==>
        Fetches(b[1..], ListKey(cfg, Rest(NotifyPrefix(cfg), b[0].channel))))
     && FetchesWhatItWatches(cfg, b[1..]))
  }

  ghost predicate BatchOk(cfg: Config, b: Batch) {
    Paired(b) && FetchesWhatItWatches(cfg, b) && forall c :: c in b ==> CmdOk(cfg, c)
  }

  predicate ReplyOk(cfg: Config, r: Reply) {
    r.Push? && r.payload.Keyspace? ==> IsNotifyChannel(cfg, r.channel)
  }

  ghost predicate SubsOk(cfg: Config, subs: set<string>) {
    forall ch :: ch in subs ==> ch == cfg.postsChannel || IsNotifyChannel(cfg, ch) || IsPresenceChannel(ch)
  }

  ghost predicate StoreOk(cfg: Config, r: Store) {
    SubsOk(cfg, r.subs) && forall x :: x in r.inbox ==> ReplyOk(cfg, x)
  }

  // The tags of requests and replies, in order ----------------------------------------------

  function CmdTags(b: Batch): seq<string> {
    if b == [] then [] else (if b[0].LRange? then [b[0].tag] else []) + CmdTags(b[1..])
  }

  function QueueTags(cmds: seq<Batch>): seq<string> {
    if cmds == [] then [] else CmdTags(cmds[0]) + QueueTags(cmds[1..])
  }

  function ReplyTags(inbox: seq<Reply>): seq<string> {
    if inbox == [] then []
    else (if inbox[0].LRangeReply? then [inbox[0].tag] else []) + ReplyTags(inbox[1..])
  }

  lemma {:induction false} QueueTagsConcat(a: seq<Batch>, b: seq<Batch>)
    ensures QueueTags(a + b) == QueueTags(a) + QueueTags(b)
  {
    if a == [] {
      assert a + b == b;
    } else {
      assert (a + b)[1..] == a[1..] + b;
      QueueTagsConcat(a[1..], b);
    }
  }

  lemma {:induction false} ReplyTagsSnoc(inbox: seq<Reply>, r: Reply)
    ensures ReplyTags(inbox + [r]) == ReplyTags(inbox) + (if r.LRangeReply? then [r.tag] else [])
  {
    var tags := if r.LRangeReply? then [r.tag] else [];
    if inbox == [] {
      assert inbox + [r] == [r] && [r][1..] == [];
    } else {
      var head := if inbox[0].LRangeReply? then [inbox[0].tag] else [];
      assert (inbox + [r])[1..] == inbox[1..] + [r];
      ReplyTagsSnoc(inbox[1..], r);
      assert (head + ReplyTags(inbox[1..])) + tags == head + (ReplyTags(inbox[1..]) + tags);
    }
  }

  lemma NotifyTags(r: Store, ch: string, payload: Payload)
    ensures ReplyTags(Notify(r, ch, payload).inbox) == ReplyTags(r.inbox)
  {
    ReplyTagsSnoc(r.inbox, Push(ch, payload));
  }

  lemma ExecTags(r: Store, c: Cmd)
    ensures ReplyTags(Exec(r, c).inbox) == ReplyTags(r.inbox) + (if c.LRange? then [c.tag] else [])
  {
    match c
    case Subscribe(ch) => ReplyTagsSnoc(r.inbox, Confirm(ch));
    case Unsubscribe(ch) => ReplyTagsSnoc(r.inbox, Confirm(ch));
    case LRange(key, tag) => ReplyTagsSnoc(r.inbox, LRangeReply(tag, key, ListAt(r.lists, key)));
    case Del(key) => NotifyTags(r.(lists := r.lists - {key}), KEYSPACE + key, Keyspace("del"));
    case RPush(key, ps) =>
      NotifyTags(r.(lists := r.lists[key := ListAt(r.lists, key) + ps]), KEYSPACE + key, Keyspace("rpush"));
    case Expire(key) => NotifyTags(r, KEYSPACE + key, Keyspace("expire"));
    case Publish(ch, payload) => NotifyTags(r, ch, payload);
    case _ =>
  }

  lemma {:induction false} ExecBatchTags(r: Store, b: Batch)
    ensures ReplyTags(ExecBatch(r, b).inbox) == ReplyTags(r.inbox) + CmdTags(b)
    decreases |b|
  {
    if b != [] {
      ExecTags(r, b[0]);
      ExecBatchTags(Exec(r, b[0]), b[1..]);
    }
  }

  // Keys and channels ------------------------------------------------------------------------

  /** A keyspace notification reaches the node on the channels of users only. */
  lemma KeyspaceChannel(cfg: Config, subs: set<string>, ch: string)
    requires ConfigOk(cfg) && SubsOk(cfg, subs) && KEYSPACE + ch in subs
    ensures IsNotifyChannel(cfg, KEYSPACE + ch)
  {
    Unprefix(KEYSPACE, ch);
    var c := KEYSPACE + ch;
    assert c[0] == '_' && PRESENCE[0] == 'p';
  }

  lemma UserKeys(cfg: Config, user: string)
    requires IsDigest(user)
    ensures IsNotifyChannel(cfg, NotifyChannel(cfg, user)) && Rest(NotifyPrefix(cfg), NotifyChannel(cfg, user)) == user
    ensures IsPresenceChannel(PresenceChannel(user)) && Rest(PRESENCE, PresenceChannel(user)) == user
    ensures IsUserKey(cfg, ListKey(cfg, user)) && Rest(cfg.chatPrefix, ListKey(cfg, user)) == user
  {
    Unprefix(NotifyPrefix(cfg), user);
    Unprefix(PRESENCE, user);
    Unprefix(cfg.chatPrefix, user);
  }

  lemma NotifyStoreOk(cfg: Config, r: Store, ch: string, payload: Payload)
    requires ConfigOk(cfg) && StoreOk(cfg, r)
    requires payload.Keyspace? ==> KEYSPACE <= ch
    ensures StoreOk(cfg, Notify(r, ch, payload))
  {
    if ch in r.subs && payload.Keyspace? {
      Reprefix(KEYSPACE, ch);
      KeyspaceChannel(cfg, r.subs, Rest(KEYSPACE, ch));
    }
  }

  lemma ExecStoreOk(cfg: Config, r: Store, c: Cmd)
    requires ConfigOk(cfg) && StoreOk(cfg, r)
    requires c.Subscribe? || c.Publish? ==> CmdOk(cfg, c)
    ensures StoreOk(cfg, Exec(r, c))
  {
    match c
    case Del(key) => NotifyStoreOk(cfg, r.(lists := r.lists - {key}), KEYSPACE + key, Keyspace("del"));
    case RPush(key, ps) =>
      NotifyStoreOk(cfg, r.(lists := r.lists[key := ListAt(r.lists, key) + ps]), KEYSPACE + key, Keyspace("rpush"));
    case Expire(key) => NotifyStoreOk(cfg, r, KEYSPACE + key, Keyspace("expire"));
    case Publish(ch, payload) => NotifyStoreOk(cfg, r, ch, payload);
    case _ =>
  }

  lemma {:induction false} ExecBatchStoreOk(cfg: Config, r: Store, b: Batch)
    requires ConfigOk(cfg) && StoreOk(cfg, r) && forall c :: c in b ==> CmdOk(cfg, c)
    ensures StoreOk(cfg, ExecBatch(r, b))
    decreases |b|
  {
    if b != [] {
      ExecStoreOk(cfg, r, b[0]);
      ExecBatchStoreOk(cfg, Exec(r, b[0]), b[1..]);
    }
  }

  // What the handlers ask Redis to do -----------------------------------------------------------

  /** From `n` to `n1` the node has sent well-formed batches, and queued the tags of their ranges. */
  ghost predicate Requested(cfg: Config, n: Node, n1: Node) {
    && n.cmds <= n1.cmds
    && (forall b :: b in n1.cmds[|n.cmds|..] ==> BatchOk(cfg, b))
    && n1.fifo == n.fifo + QueueTags(n1.cmds[|n.cmds|..])
  }

  lemma RequestedNone(cfg: Config, n: Node, n1: Node)
    requires n1.cmds == n.cmds && n1.fifo == n.fifo
    ensures Requested(cfg, n, n1)
  {
  }

  lemma RequestedOne(cfg: Config, n: Node, n1: Node, b: Batch)
    requires n1.cmds == n.cmds + [b] && BatchOk(cfg, b) && n1.fifo == n.fifo + CmdTags(b)
    ensures Requested(cfg, n, n1)
  {
    assert n1.cmds[|n.cmds|..] == [b];
    assert QueueTags([b]) == CmdTags(b);
  }

  lemma RequestedTwo(cfg: Config, n: Node, n1: Node, b: Batch, c: Batch)
    requires n1.cmds == n.cmds + [b] + [c] && BatchOk(cfg, b) && BatchOk(cfg, c)
    requires n1.fifo == n.fifo + CmdTags(b) + CmdTags(c)
    ensures Requested(cfg, n, n1)
  {
    assert n1.cmds[|n.cmds|..] == [b, c];
    assert QueueTags([b, c]) == CmdTags(b) + QueueTags([c]);
    assert QueueTags([c]) == CmdTags(c);
  }

  /** The recursive functions on batches, unfolded once. */
  lemma Cons(cfg: Config, c: Cmd, b: Batch)
    ensures CmdTags([c] + b) == (if c.LRange? then [c.tag] else []) + CmdTags(b)
    ensures PushedByBatch([c] + b) == if c.RPush? then multiset(c.parcels) + PushedByBatch(b) else PushedByBatch(b)
    ensures !c.LRange? && !c.Del? && Paired(b) ==> Paired([c] + b)
    ensures !c.Subscribe? && FetchesWhatItWatches(cfg, b) ==> FetchesWhatItWatches(cfg, [c] + b)
  {
    assert ([c] + b)[1..] == b;
  }

  lemma FetchBatchOk(cfg: Config, user: string, tag: string)
    requires IsDigest(user) && (tag == user || tag == PushedValue(cfg, user))
    ensures var b := FetchBatch(cfg, user, tag);
      BatchOk(cfg, b) && CmdTags(b) == [tag] && PushedByBatch(b) == multiset{}
  {
    UserKeys(cfg, user);
    var key := ListKey(cfg, user);
    var b := FetchBatch(cfg, user, tag);
    Cons(cfg, Del(key), []);
    Cons(cfg, LRange(key, tag), [Del(key)]);
    assert [Del(key)] == [Del(key)] + [];
    assert b == [LRange(key, tag)] + [Del(key)];
    assert b[2..] == [] && Paired([]);
    assert FetchesWhatItWatches(cfg, []);
  }

  lemma LoginBatchOk(cfg: Config, user: string)
    requires IsDigest(user)
    ensures var b := LoginBatch(cfg, user);
      BatchOk(cfg, b) && CmdTags(b) == [user] && PushedByBatch(b) == multiset{}
  {
    var fetch, pc, nc := FetchBatch(cfg, user, user), PresenceChannel(user), NotifyChannel(cfg, user);
    var rest := [Subscribe(pc)] + fetch;
    assert Fetches(rest, ListKey(cfg, user)) by { assert rest[1..] == fetch; }
    assert LoginBatch(cfg, user) == [Subscribe(nc)] + rest;
    UserKeys(cfg, user);
    FetchBatchOk(cfg, user, user);
    ChannelsDiffer(cfg, user, user);
    hide CmdTags, PushedByBatch, Paired, FetchesWhatItWatches, Fetches, IsNotifyChannel, IsPresenceChannel,
      FetchBatch, LoginBatch, NotifyChannel, PresenceChannel, ListKey;
    Cons(cfg, Subscribe(pc), fetch);
    Watch(cfg, pc, fetch);
    Cons(cfg, Subscribe(nc), rest);
    Watch(cfg, nc, rest);
  }

  /** A subscription in front of a batch that fetches what it watches. */
  lemma Watch(cfg: Config, ch: string, b: Batch)
    requires FetchesWhatItWatches(cfg, b)
    requires IsNotifyChannel(cfg, ch) ==> Fetches(b, ListKey(cfg, Rest(NotifyPrefix(cfg), ch)))
    ensures FetchesWhatItWatches(cfg, [Subscribe(ch)] + b)
  {
    assert ([Subscribe(ch)] + b)[1..] == b;
  }

  lemma Nothing(cfg: Config)
    ensures CmdTags([]) == [] && PushedByBatch([]) == multiset{} && Paired([]) && FetchesWhatItWatches(cfg, [])
  {
  }

  /** The two families of channels have no member in common. */
  lemma ChannelsDiffer(cfg: Config, u: string, v: string)
    ensures !IsNotifyChannel(cfg, PresenceChannel(v)) && !IsPresenceChannel(NotifyChannel(cfg, u))
    ensures NotifyChannel(cfg, u) != PresenceChannel(v)
  {
    assert NotifyChannel(cfg, u)[0] == '_' && NotifyPrefix(cfg)[0] == '_' && PresenceChannel(v)[0] == 'p' && PRESENCE[0] == 'p';
  }

  /** Batches of one or two commands that neither fetch nor push. */
  lemma PlainBatchOk(cfg: Config, b: Batch)
    requires 1 <= |b| <= 2
    requires forall c :: c in b ==> CmdOk(cfg, c) && !c.LRange? && !c.Del? && !c.RPush? && !c.Subscribe?
    ensures BatchOk(cfg, b) && CmdTags(b) == [] && PushedByBatch(b) == multiset{}
  {
    hide CmdTags, PushedByBatch, Paired, FetchesWhatItWatches, CmdOk;
    var last := b[|b| - 1];
    Nothing(cfg);
    Cons(cfg, last, []);
    assert [last] == [last] + [];
    if |b| == 2 {
      Cons(cfg, b[0], [last]);
      assert b == [b[0]] + [last];
    } else {
      assert b == [last];
    }
  }

  lemma StoreBatchOk(cfg: Config, ps: seq<Parcel>, to: string)
    requires ps != []
    ensures BatchOk(cfg, StoreBatch(cfg, ps, to)) && CmdTags(StoreBatch(cfg, ps, to)) == []
    ensures PushedByBatch(StoreBatch(cfg, ps, to)) == multiset(ps)
  {
    Unprefix(cfg.chatPrefix, to);
    hide CmdTags, PushedByBatch, Paired, FetchesWhatItWatches;
    var key := ListKey(cfg, to);
    var tail := [Expire(key), Publish(cfg.notifyChannel, NoticeText(ps[|ps| - 1]))];
    PlainBatchOk(cfg, tail);
    Cons(cfg, RPush(key, ps), tail);
    Cons(cfg, Incr, [RPush(key, ps)] + tail);
    assert StoreBatch(cfg, ps, to) == [Incr] + ([RPush(key, ps)] + tail);
  }

  lemma LeaveBatchOk(cfg: Config, user: string)
    requires IsDigest(user)
    ensures var b := LeaveBatch(cfg, user);
      BatchOk(cfg, b) && CmdTags(b) == [] && PushedByBatch(b) == multiset{}
  {
    UserKeys(cfg, user);
    PlainBatchOk(cfg, LeaveBatch(cfg, user));
  }
}
