/** The database as one node sees it: lists of messages, subscriptions, and an in-order stream of
    replies and pushed notifications. */
module Redis {
  import opened Prelude
  import opened Messages
  import opened Crypto

  /** What on_push queues for the reply it has requested: the source queues the key of the list,
      its documentation promises the user id. */
  datatype Pushed = QueuesListKey | QueuesUserId

  datatype Config = Config(
    chatPrefix: string,
    postsChannel: string,
    notifyChannel: string,
    chatAdminId: string,
    hash: Hasher,
    pushed: Pushed)

  const KEYSPACE := "__keyspace@0__:"
  const PRESENCE := "pc:"

  /** get_cfg appends a colon to the prefix; the channel of the posts is in neither of the two
      families of per-user channels. */
  ghost predicate ConfigOk(cfg: Config) {
    && |cfg.chatPrefix| > 0 && cfg.chatPrefix[|cfg.chatPrefix| - 1] == ':'
    && !(KEYSPACE <= cfg.postsChannel)
    && !(PRESENCE <= cfg.postsChannel)
  }

  function ListKey(cfg: Config, user: string): string {
    cfg.chatPrefix + user
  }

  function NotifyPrefix(cfg: Config): string {
    KEYSPACE + cfg.chatPrefix
  }

  function NotifyChannel(cfg: Config, user: string): string {
    NotifyPrefix(cfg) + user
  }

  function PresenceChannel(user: string): string {
    PRESENCE + user
  }

  function PushedValue(cfg: Config, user: string): string {
    match cfg.pushed
    case QueuesListKey => ListKey(cfg, user)
    case QueuesUserId => user
  }

  /** A notification about a list arrives on the channel of the user whose list it is. */
  lemma NotifyChannelOfKey(cfg: Config, user: string)
    ensures KEYSPACE + ListKey(cfg, user) == NotifyChannel(cfg, user)
  {
    assert KEYSPACE + (cfg.chatPrefix + user) == (KEYSPACE + cfg.chatPrefix) + user;
  }

  /** The `tag` of a range command is a history variable: the string that was queued with it. */
  datatype Cmd =
    | Subscribe(channel: string)
    | Unsubscribe(channel: string)
    | LRange(key: string, tag: string)
    | Del(key: string)
    | RPush(key: string, parcels: seq<Parcel>)
    | Expire(key: string)
    | Publish(channel: string, payload: Payload)
    | Incr
    | HSet(field: string)
    | Quit

  /** The commands of one call of send reach Redis together. */
  type Batch = seq<Cmd>

  /** The `tag` and the `key` of a reply are histories too: a reply says only what the list held. */
  datatype Reply =
    | LRangeReply(tag: string, key: string, parcels: seq<Parcel>)
    | Push(channel: string, payload: Payload)
    | Confirm(channel: string)

  datatype Store = Store(
    lists: map<string, seq<Parcel>>,
    subs: set<string>,
    inbox: seq<Reply>,
    open: bool)

  function ListAt(lists: map<string, seq<Parcel>>, key: string): seq<Parcel> {
    if key in lists then lists[key] else []
  }

  function Notify(r: Store, channel: string, payload: Payload): (r1: Store)
    ensures r1.lists == r.lists && r1.subs == r.subs && r1.open == r.open
  {
    if channel in r.subs then r.(inbox := r.inbox + [Push(channel, payload)]) else r
  }

  function Exec(r: Store, c: Cmd): Store {
    match c
    case Subscribe(ch) => r.(subs := r.subs + {ch}, inbox := r.inbox + [Confirm(ch)])
    case Unsubscribe(ch) => r.(subs := r.subs - {ch}, inbox := r.inbox + [Confirm(ch)])
    case LRange(key, tag) => r.(inbox := r.inbox + [LRangeReply(tag, key, ListAt(r.lists, key))])
    case Del(key) =>
      var r1 := r.(lists := r.lists - {key});
      if key in r.lists then Notify(r1, KEYSPACE + key, Keyspace("del")) else r1
    case RPush(key, parcels) =>
      Notify(r.(lists := r.lists[key := ListAt(r.lists, key) + parcels]), KEYSPACE + key, Keyspace("rpush"))
    case Expire(key) =>
      if key in r.lists then Notify(r, KEYSPACE + key, Keyspace("expire")) else r
    case Publish(ch, payload) => Notify(r, ch, payload)
    case Incr => r
    case HSet(_) => r
    case Quit => r.(open := false)
  }

  function ExecBatch(r: Store, b: Batch): Store
    decreases |b|
  {
    if b == [] then r else ExecBatch(Exec(r, b[0]), b[1..])
  }

  /** Every DEL directly follows the LRANGE of the same key, and every LRANGE has its DEL. */
  ghost predicate Paired(b: Batch) {
    if b == [] then true
    else if b[0].LRange? then |b| >= 2 && b[1] == Del(b[0].key) && Paired(b[2..])
    else !b[0].Del? && Paired(b[1..])
  }

  // Where the parcels are ------------------------------------------------------------------

  ghost function StoredUnder(lists: map<string, seq<Parcel>>, keys: set<string>): multiset<Parcel> {
    if keys == {} then multiset{}
    else
      var k :| k in keys;
      multiset(ListAt(lists, k)) + StoredUnder(lists, keys - {k})
  }

  /** The parcels in all lists. */
  ghost function Stored(lists: map<string, seq<Parcel>>): multiset<Parcel> {
    StoredUnder(lists, lists.Keys)
  }

  function FetchedBy(reply: Reply): multiset<Parcel> {
    if reply.LRangeReply? then multiset(reply.parcels) else multiset{}
  }

  /** The parcels in replies that the node has not handled. */
  ghost function Fetched(inbox: seq<Reply>): multiset<Parcel> {
    Sum(FetchedBy, inbox)
  }

  ghost function PushedByBatch(b: Batch): multiset<Parcel> {
    if b == [] then multiset{}
    else if b[0].RPush? then multiset(b[0].parcels) + PushedByBatch(b[1..])
    else PushedByBatch(b[1..])
  }

  /** The parcels in push commands that Redis has not executed. */
  ghost function Pending(cmds: seq<Batch>): multiset<Parcel> {
    Sum(PushedByBatch, cmds)
  }

  lemma {:induction false} StoredUnderSplit(lists: map<string, seq<Parcel>>, keys: set<string>, k: string, p: Parcel)
    requires k in keys
    ensures StoredUnder(lists, keys)[p] == multiset(ListAt(lists, k))[p] + StoredUnder(lists, keys - {k})[p]
    decreases |keys|
  {
    var j :| j in keys && StoredUnder(lists, keys) == multiset(ListAt(lists, j)) + StoredUnder(lists, keys - {j});
    if j != k {
      StoredUnderSplit(lists, keys - {j}, k, p);
      StoredUnderSplit(lists, keys - {k}, j, p);
      assert keys - {j} - {k} == keys - {k} - {j};
    }
  }

  lemma {:induction false} StoredUnderSame(a: map<string, seq<Parcel>>, b: map<string, seq<Parcel>>, keys: set<string>, p: Parcel)
    requires forall k :: k in keys ==> ListAt(a, k) == ListAt(b, k)
    ensures StoredUnder(a, keys)[p] == StoredUnder(b, keys)[p]
    decreases |keys|
  {
    if keys != {} {
      var j :| j in keys;
      StoredUnderSame(a, b, keys - {j}, p);
      StoredUnderSplit(a, keys, j, p);
      StoredUnderSplit(b, keys, j, p);
    }
  }

  lemma StoredWithout(lists: map<string, seq<Parcel>>, k: string, p: Parcel)
    ensures Stored(lists)[p] == Stored(lists - {k})[p] + multiset(ListAt(lists, k))[p]
  {
    var rest := lists - {k};
    assert rest.Keys == lists.Keys - {k};
    StoredUnderSame(lists, rest, rest.Keys, p);
    if k in lists {
      StoredUnderSplit(lists, lists.Keys, k, p);
    } else {
      assert rest == lists;
    }
  }

  lemma StoredUpdate(lists: map<string, seq<Parcel>>, k: string, ps: seq<Parcel>, p: Parcel)
    ensures Stored(lists[k := ps])[p] + multiset(ListAt(lists, k))[p] == Stored(lists)[p] + multiset(ps)[p]
  {
    StoredWithout(lists, k, p);
    StoredWithout(lists[k := ps], k, p);
    assert lists[k := ps] - {k} == lists - {k};
  }

  /** If only the list at `k` can contain `p`. */
  lemma {:induction false} StoredUnderNone(lists: map<string, seq<Parcel>>, keys: set<string>, p: Parcel)
    requires forall k :: k in keys ==> p !in ListAt(lists, k)
    ensures StoredUnder(lists, keys)[p] == 0
    decreases |keys|
  {
    if keys != {} {
      var j :| j in keys && StoredUnder(lists, keys) == multiset(ListAt(lists, j)) + StoredUnder(lists, keys - {j});
      StoredUnderNone(lists, keys - {j}, p);
      assert p !in ListAt(lists, j);
    }
  }

  lemma NotifyKeeps(r: Store, channel: string, payload: Payload, p: Parcel)
    ensures Notify(r, channel, payload).lists == r.lists
    ensures Fetched(Notify(r, channel, payload).inbox)[p] == Fetched(r.inbox)[p]
  {
    SumAppend(FetchedBy, r.inbox, Push(channel, payload), p);
  }

  /** How one command moves a parcel between lists and replies. */
  lemma ExecCounts(r: Store, c: Cmd, p: Parcel)
    ensures var r1 := Exec(r, c);
      Stored(r1.lists)[p] + Fetched(r1.inbox)[p]
        + (if c.Del? then multiset(ListAt(r.lists, c.key))[p] else 0)
      == Stored(r.lists)[p] + Fetched(r.inbox)[p] + (if c.RPush? then multiset(c.parcels)[p] else 0)
        + (if c.LRange? then multiset(ListAt(r.lists, c.key))[p] else 0)
  {
    match c
    case Subscribe(ch) => SumAppend(FetchedBy, r.inbox, Confirm(ch), p);
    case Unsubscribe(ch) => SumAppend(FetchedBy, r.inbox, Confirm(ch), p);
    case LRange(key, tag) => SumAppend(FetchedBy, r.inbox, LRangeReply(tag, key, ListAt(r.lists, key)), p);
    case Del(key) =>
      StoredWithout(r.lists, key, p);
      NotifyKeeps(r.(lists := r.lists - {key}), KEYSPACE + key, Keyspace("del"), p);
    case RPush(key, ps) =>
      StoredUpdate(r.lists, key, ListAt(r.lists, key) + ps, p);
      NotifyKeeps(r.(lists := r.lists[key := ListAt(r.lists, key) + ps]), KEYSPACE + key, Keyspace("rpush"), p);
    case Expire(key) => NotifyKeeps(r, KEYSPACE + key, Keyspace("expire"), p);
    case Publish(ch, payload) => NotifyKeeps(r, ch, payload, p);
    case Incr =>
    case HSet(_) =>
    case Quit =>
  }

  /** A batch adds what it pushes, and loses and duplicates nothing. */
  lemma {:induction false} ExecBatchCounts(r: Store, b: Batch, p: Parcel)
    requires Paired(b)
    ensures var r1 := ExecBatch(r, b);
      Stored(r1.lists)[p] + Fetched(r1.inbox)[p]
      == Stored(r.lists)[p] + Fetched(r.inbox)[p] + PushedByBatch(b)[p]
    decreases |b|
  {
    if b != [] {
      ExecCounts(r, b[0], p);
      if b[0].LRange? {
        var r1 := Exec(r, b[0]);
        ExecCounts(r1, b[1], p);
        assert b[1..][1..] == b[2..];
        ExecBatchCounts(Exec(r1, b[1]), b[2..], p);
        assert PushedByBatch(b) == PushedByBatch(b[1..]) == PushedByBatch(b[2..]);
      } else {
        ExecBatchCounts(Exec(r, b[0]), b[1..], p);
      }
    }
  }

  /** Why the batch has to stay together: what another client pushes between the LRANGE and the
      DEL is lost, exactly that and nothing else. */
  lemma InterleavedPushIsLost(r: Store, key: string, tag: string, ps: seq<Parcel>, p: Parcel)
    ensures var c := ExecBatch(r, [LRange(key, tag), RPush(key, ps), Del(key)]);
      Stored(c.lists)[p] + Fetched(c.inbox)[p] == Stored(r.lists)[p] + Fetched(r.inbox)[p]
  {
    var a := Exec(r, LRange(key, tag));
    var b := Exec(a, RPush(key, ps));
    var c := Exec(b, Del(key));
    ThreeCommands(r, LRange(key, tag), RPush(key, ps), Del(key));
    ExecCounts(r, LRange(key, tag), p);
    ExecCounts(a, RPush(key, ps), p);
    ExecCounts(b, Del(key), p);
    assert ListAt(b.lists, key) == ListAt(r.lists, key) + ps;
  }

  lemma ThreeCommands(r: Store, c1: Cmd, c2: Cmd, c3: Cmd)
    ensures ExecBatch(r, [c1, c2, c3]) == Exec(Exec(Exec(r, c1), c2), c3)
  {
    var b := [c1, c2, c3];
    assert b[1..] == [c2, c3] && [c2, c3][1..] == [c3] && [c3][1..] == [];
    assert ExecBatch(Exec(Exec(r, c1), c2), [c3]) == Exec(Exec(Exec(r, c1), c2), c3);
    assert ExecBatch(Exec(r, c1), [c2, c3]) == ExecBatch(Exec(Exec(r, c1), c2), [c3]);
  }
}
