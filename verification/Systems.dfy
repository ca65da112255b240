/** One node, the Redis it talks to, and everything that can happen next: what clients and transport
    do, what Redis does, and what the other nodes do to the same Redis. */
module Systems {
  import opened Messages
  import opened Sessions
  import opened Redis
  import opened Nodes

  /** `taken` is a history: the parcels other nodes have fetched. */
  datatype System = System(node: Node, store: Store, taken: seq<Parcel>)

  datatype Event =
    | Arrival                            // on_run without an error
    | AppRead(i: nat, m: AppMsg)         // on_read without an error
    | ReadFailed(i: nat)                 // on_read with an error
    | WriteDone(i: nat)                  // on_write without an error
    | WriteFailed(i: nat)                // on_write with an error
    | PongArrived(i: nat)
    | CloseCompleted(i: nat)
    | RedisExecutes                      // Redis executes the oldest batch of the node
    | RedisReplies                       // the node handles the oldest reply or notification
    | ForeignStore(user: string, msgs: seq<Msg>)  // another node stores messages for a user
    | ForeignFetch(user: string)         // another node fetches the messages of a user
    | ForeignPublish(channel: string, payload: Payload)  // another node publishes, say, a presence message
    | Signal                             // shutdown

  /** The node of a server that has loaded its posts and begins to accept sessions. */
  const EMPTY_NODE := Node([], map[], [], 0, [], false, [])

  function Init(cfg: Config): System {
    System(EMPTY_NODE, Store(map[], {cfg.postsChannel}, [], true), [])
  }

  /** The transport completes a write successfully only before the end of the session's read loop; the
      notifications of the keyspace come from Redis itself;
      the first clause is a consequence of the invariant (see Safety.RunOk) and rules nothing out. */
  ghost predicate Enabled(s: System, e: Event) {
    InRange(s.node) &&
    match e
    case Arrival => true
    case AppRead(i, _) => i < |s.node.sessions| && s.node.sessions[i].readOps > 0
    case ReadFailed(i) => i < |s.node.sessions| && s.node.sessions[i].readOps > 0
    case WriteDone(i) => i < |s.node.sessions| && s.node.sessions[i].inFlight != [] && Open(s.node.sessions[i])
    case WriteFailed(i) => i < |s.node.sessions| && s.node.sessions[i].inFlight != []
    case PongArrived(i) => i < |s.node.sessions| && s.node.sessions[i].readOps > 0
    case CloseCompleted(i) => i < |s.node.sessions| && s.node.sessions[i].closePending
    case RedisExecutes => s.node.cmds != [] && s.store.open
    case RedisReplies => s.store.inbox != []
    case ForeignStore(_, msgs) => msgs != []
    case ForeignFetch(_) => true
    case ForeignPublish(_, payload) => !payload.Keyspace?
    case Signal => true
  }

  function ParcelsFor(user: string, msgs: seq<Msg>): (ps: seq<Parcel>)
    ensures |ps| == |msgs| && forall p :: p in ps ==> p.addr == user
  {
    seq(|msgs|, i requires 0 <= i < |msgs| => Parcel(user, msgs[i]))
  }

  function Next(cfg: Config, s: System, e: Event): System
    requires Enabled(s, e)
  {
    var n := s.node;
    match e
    case Arrival => s.(node := OnRun(n))
    case AppRead(i, m) => s.(node := OnRead(cfg, n, i, m))
    case ReadFailed(i) => s.(node := OnReadError(cfg, n, i))
    case WriteDone(i) => s.(node := OnWritten(n, i))
    case WriteFailed(i) => s.(node := With(n, i, OnWriteError(n.sessions[i])))
    case PongArrived(i) => s.(node := With(n, i, OnPong(n.sessions[i])))
    case CloseCompleted(i) => s.(node := With(n, i, CloseDone(n.sessions[i])))
    case RedisExecutes => s.(node := n.(cmds := n.cmds[1..]), store := ExecBatch(s.store, n.cmds[0]))
    case RedisReplies =>
      s.(node := OnReply(cfg, n, s.store.inbox[0]), store := s.store.(inbox := s.store.inbox[1..]))
    case ForeignStore(user, msgs) =>
      var ps := ParcelsFor(user, msgs);
      s.(node := n.(accepted := n.accepted + ps), store := ExecBatch(s.store, StoreBatch(cfg, ps, user)))
    case ForeignFetch(user) =>
      s.(store := Exec(s.store, Del(ListKey(cfg, user))),
         taken := s.taken + ListAt(s.store.lists, ListKey(cfg, user)))
    case ForeignPublish(channel, payload) => s.(store := Exec(s.store, Publish(channel, payload)))
    case Signal => s.(node := ShutdownAll(n))
  }

  /** `ss` is what the events `es` make of an empty server. */
  ghost predicate IsRun(cfg: Config, ss: seq<System>, es: seq<Event>) {
    && |ss| == |es| + 1
    && ss[0] == Init(cfg)
    && forall k :: 0 <= k < |es| ==> Enabled(ss[k], es[k]) && ss[k + 1] == Next(cfg, ss[k], es[k])
  }

  lemma RunStep(cfg: Config, ss: seq<System>, es: seq<Event>, k: nat)
    requires IsRun(cfg, ss, es) && k < |ss|
    ensures |ss| == |es| + 1 && ss[0] == Init(cfg)
    ensures k > 0 ==> Enabled(ss[k - 1], es[k - 1]) && ss[k] == Next(cfg, ss[k - 1], es[k - 1])
  {
    hide Enabled, Next;
  }

  lemma ExtendRun(cfg: Config, ss: seq<System>, es: seq<Event>, e: Event)
    requires IsRun(cfg, ss, es) && Enabled(ss[|es|], e)
    ensures IsRun(cfg, ss + [Next(cfg, ss[|es|], e)], es + [e])
  {
    hide Enabled, Next;
    var tt, fs := ss + [Next(cfg, ss[|es|], e)], es + [e];
    forall k | 0 <= k < |fs| ensures Enabled(tt[k], fs[k]) && tt[k + 1] == Next(cfg, tt[k], fs[k]) {
      if k < |es| {
        assert Enabled(ss[k], es[k]) && ss[k + 1] == Next(cfg, ss[k], es[k]);
      }
    }
  }
}
