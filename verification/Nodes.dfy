/** The handlers of the worker (src/worker.cpp) and of its sessions, as functions on the state of a
    node.  The classes in Server.dfy carry them out in place. */
module Nodes {
  import opened Prelude
  import opened Crypto
  import opened Messages
  import opened Sessions
  import opened Redis

  const CHAT_ADMIN_ID_KEY := "chat_admin_id_key_0"

  /** `sessions` holds every session ever accepted, in order; `index` is the source's sessions_ and
      gives positions in it.  `cmds` are the batches Redis has not executed yet.  `faulted` records
      that a handler ran into an assertion, popped an empty queue or left a noexcept function by an
      exception.  `accepted` is a history: the persistent parcels the service took responsibility for. */
  datatype Node = Node(
    sessions: seq<Session>,
    index: map<string, nat>,
    fifo: seq<string>,
    live: int,
    cmds: seq<Batch>,
    faulted: bool,
    accepted: seq<Parcel>)

  datatype EvRes = LoginOk | LoginFail | ChatMsgOk | PresenceOk | PublishOk | Unknown

  /** The optional field "token" of a login: missing or an empty JSON value, a string (even the empty
      one), or some other value. */
  datatype TokenField = NoToken | TextToken(text: string) | MalformedToken

  /** A message from the app after parsing; a field is None when it is missing or has another type. */
  datatype AppMsg =
    | LoginMsg(user: Option<string>, key: Option<string>, token: TokenField)
    | ChatMsg(to: Option<string>, postId: Option<string>, id: Option<int>, body: string)
    | PresenceMsg(to: Option<string>, body: string)
    | PublishMsg(user: Option<string>, key: Option<string>, hasPost: bool, newId: string)
    | OtherMsg

  predicate InRange(n: Node) {
    forall u :: u in n.index ==> n.index[u] < |n.sessions|
  }

  function With(n: Node, i: nat, s: Session): Node
    requires i < |n.sessions|
  {
    n.(sessions := n.sessions[i := s])
  }

  function Request(n: Node, b: Batch): Node {
    n.(cmds := n.cmds + [b])
  }

  function Accept(n: Node, p: Parcel): Node {
    n.(accepted := n.accepted + [p])
  }

  function Fault(n: Node): Node {
    n.(faulted := true)
  }

  function SendTo(n: Node, i: nat, e: Entry): Node
    requires i < |n.sessions|
  {
    With(n, i, Send(n.sessions[i], e))
  }

  function StoreBatch(cfg: Config, ps: seq<Parcel>, to: string): Batch
    requires ps != []
  {
    [Incr, RPush(ListKey(cfg, to), ps), Expire(ListKey(cfg, to)),
     Publish(cfg.notifyChannel, NoticeText(ps[|ps| - 1]))]
  }

  function StoreChatMsg(cfg: Config, n: Node, ps: seq<Parcel>, to: string): Node {
    if ps == [] then n else Request(n, StoreBatch(cfg, ps, to))
  }

  function FetchBatch(cfg: Config, user: string, tag: string): Batch {
    [LRange(ListKey(cfg, user), tag), Del(ListKey(cfg, user))]
  }

  function LoginBatch(cfg: Config, user: string): Batch {
    [Subscribe(NotifyChannel(cfg, user)), Subscribe(PresenceChannel(user)),
     LRange(ListKey(cfg, user), user), Del(ListKey(cfg, user))]
  }

  function LeaveBatch(cfg: Config, user: string): Batch {
    [Unsubscribe(NotifyChannel(cfg, user)), Unsubscribe(PresenceChannel(user))]
  }

  // Messages from the app ------------------------------------------------------------------

  /** The entry of the map of sessions; an older session of the same user is shut down and loses
      its user id first. */
  function Enroll(n: Node, i: nat, user: string): Node
    requires i < |n.sessions| && InRange(n)
  {
    if user !in n.index then n.(index := n.index[user := i])
    else
      var prior := n.index[user];
      var n1 := if Alive(n.sessions[prior])
                then With(n, prior, SetPubHash(Shutdown(n.sessions[prior]), ""))
                else n;
      n1.(index := n1.index[user := i])
  }

  function PublishToken(cfg: Config, n: Node, user: string, token: TokenField): Node {
    if token.TextToken?
    then Request(n, [Publish(cfg.notifyChannel, TokenText(user, token.text)), HSet(user)])
    else n
  }

  function OnAppLogin(cfg: Config, n: Node, i: nat, m: AppMsg): (Node, EvRes)
    requires m.LoginMsg? && i < |n.sessions| && InRange(n)
  {
    if m.user.None? || m.key.None? then (n, Unknown)
    else
      var user := MakeHexDigest(cfg.hash, m.user.value, m.key.value);
      if user == "" then (SendTo(n, i, Entry(Parcel("", LoginAck(false)), false)), LoginFail)
      else
        var n1 := Enroll(With(n, i, SetPubHash(n.sessions[i], user)), i, user);
        if m.token.MalformedToken? then (n1, Unknown)
        else
          var n2 := PublishToken(cfg, n1, user, m.token);
          var n3 := Request(n2, LoginBatch(cfg, user)).(fifo := n2.fifo + [user]);
          (SendTo(n3, i, Entry(Parcel(user, LoginAck(true)), false)), LoginOk)
  }

  /** The user a message is for: the admin is addressed by a fixed key. */
  function ChatTo(cfg: Config, to: string): string {
    if to == CHAT_ADMIN_ID_KEY then cfg.chatAdminId else to
  }

  /** The part of on_app_chat_msg that stores or forwards the message. */
  function Dispatch(cfg: Config, n: Node, p: Parcel): Node
    requires InRange(n)
  {
    if p.addr !in n.index then StoreChatMsg(cfg, Accept(n, p), [p], p.addr)
    else if Alive(n.sessions[n.index[p.addr]]) then SendTo(Accept(n, p), n.index[p.addr], Entry(p, true))
    else Accept(n, p)
  }

  function ChatParcel(cfg: Config, from: string, m: AppMsg): Parcel
    requires m.ChatMsg? && m.to.Some?
  {
    var to := ChatTo(cfg, m.to.value);
    Parcel(to, Chat(from, to, m.postId, m.id, m.body))
  }

  function OnAppChatMsg(cfg: Config, n: Node, i: nat, m: AppMsg): (Node, EvRes)
    requires m.ChatMsg? && i < |n.sessions| && InRange(n)
  {
    if m.to.None? then (n, Unknown)
    else
      var from := n.sessions[i].pubHash;
      var n1 := Dispatch(cfg, n, ChatParcel(cfg, from, m));
      if m.postId.None? || m.id.None? then (n1, Unknown)
      else
        var ack := ServerAck(m.to.value, from, m.postId.value, m.id.value);
        (SendTo(n1, i, Entry(Parcel(from, ack), false)), ChatMsgOk)
  }

  function OnAppPresence(cfg: Config, n: Node, i: nat, m: AppMsg): (Node, EvRes)
    requires m.PresenceMsg? && i < |n.sessions| && InRange(n)
  {
    if m.to.None? then (n, Unknown)
    else
      var to := ChatTo(cfg, m.to.value);
      var text := PresenceText(n.sessions[i].pubHash, to, m.body);
      if to !in n.index then (Request(n, [Publish(PresenceChannel(to), text)]), PresenceOk)
      else if Alive(n.sessions[n.index[to]])
      then (SendTo(n, n.index[to], Entry(Parcel(to, Relayed(text)), false)), PresenceOk)
      else (n, PresenceOk)
  }

  function OnAppPublish(cfg: Config, n: Node, i: nat, m: AppMsg): (Node, EvRes)
    requires m.PublishMsg? && i < |n.sessions|
  {
    if m.user.None? || m.key.None? then (n, Unknown)
    else
      var author := MakeHexDigest(cfg.hash, m.user.value, m.key.value);
      var me := n.sessions[i].pubHash;
      if author == "" then
        var p := Parcel(me, PublishAck(false, ""));
        (SendTo(Accept(n, p), i, Entry(p, true)), PublishOk)
      else if !m.hasPost then (n, Unknown)
      else
        var p := Parcel(me, PublishAck(true, m.newId));
        var n1 := Request(n, [HSet(m.newId), Publish(cfg.postsChannel, PostText(m.newId))]);
        (SendTo(Accept(n1, p), i, Entry(p, true)), PublishOk)
  }

  function OnApp(cfg: Config, n: Node, i: nat, m: AppMsg): (Node, EvRes)
    requires i < |n.sessions| && InRange(n)
  {
    if LoggedIn(n.sessions[i]) then
      match m
      case PresenceMsg(_, _) => OnAppPresence(cfg, n, i, m)
      case ChatMsg(_, _, _, _) => OnAppChatMsg(cfg, n, i, m)
      case PublishMsg(_, _, _, _) => OnAppPublish(cfg, n, i, m)
      case _ => (n, Unknown)
    else if m.LoginMsg? then OnAppLogin(cfg, n, i, m)
    else (n, Unknown)
  }

  function HandleEv(n: Node, i: nat, ev: EvRes): Node
    requires i < |n.sessions|
  {
    if ev.LoginFail? || ev.Unknown? then With(n, i, Shutdown(n.sessions[i])) else n
  }

  lemma OnAppLoginShape(cfg: Config, n: Node, i: nat, m: AppMsg)
    requires m.LoginMsg? && i < |n.sessions| && InRange(n)
    ensures var n1 := OnAppLogin(cfg, n, i, m).0; |n1.sessions| == |n.sessions| && InRange(n1)
  {
    if m.user.Some? && m.key.Some? {
      var user := MakeHexDigest(cfg.hash, m.user.value, m.key.value);
      var n1 := Enroll(With(n, i, SetPubHash(n.sessions[i], user)), i, user);
      assert |n1.sessions| == |n.sessions| && n1.index == n.index[user := i];
    }
  }

  lemma DispatchShape(cfg: Config, n: Node, p: Parcel)
    requires InRange(n)
    ensures |Dispatch(cfg, n, p).sessions| == |n.sessions| && Dispatch(cfg, n, p).index == n.index
  {
  }

  /** All other handlers leave the map alone. */
  lemma OnAppShape(cfg: Config, n: Node, i: nat, m: AppMsg)
    requires i < |n.sessions| && InRange(n)
    ensures |OnApp(cfg, n, i, m).0.sessions| == |n.sessions| && InRange(OnApp(cfg, n, i, m).0)
    ensures LoggedIn(n.sessions[i]) ==> OnApp(cfg, n, i, m).0.index == n.index
  {
    if !LoggedIn(n.sessions[i]) {
      if m.LoginMsg? { OnAppLoginShape(cfg, n, i, m); }
    } else {
      var n1 := OnApp(cfg, n, i, m).0;
      match m {
        case ChatMsg(_, _, _, _) =>
          if m.to.Some? { DispatchShape(cfg, n, ChatParcel(cfg, n.sessions[i].pubHash, m)); }
          hide Dispatch;
          assert n1.index == n.index && |n1.sessions| == |n.sessions|;
        case PresenceMsg(_, _) => assert n1.index == n.index && |n1.sessions| == |n.sessions|;
        case PublishMsg(_, _, _, _) => assert n1.index == n.index && |n1.sessions| == |n.sessions|;
        case _ =>
      }
    }
  }

  /** on_read: the handler of the read that ends here owns the session until it returns. */
  function OnRead(cfg: Config, n: Node, i: nat, m: AppMsg): Node
    requires i < |n.sessions| && InRange(n)
  {
    OnAppShape(cfg, n, i, m);
    var (n1, ev) := OnApp(cfg, n, i, m);
    var n2 := HandleEv(n1, i, ev);
    With(n2, i, ReadDone(DoRead(n2.sessions[i])))
  }

  // The end of a session -------------------------------------------------------------------

  function OnSessionDtor(cfg: Config, n: Node, user: string, ps: seq<Parcel>): Node {
    if user !in n.index then n
    else StoreChatMsg(cfg, Request(n.(index := n.index - {user}), LeaveBatch(cfg, user)), ps, user)
  }

  function OnFinish(cfg: Config, n: Node, i: nat): Node
    requires i < |n.sessions|
  {
    var s := n.sessions[i];
    var n1 := With(n, i, Sessions.Finish(s)).(live := n.live - 1);
    if LoggedIn(s) then OnSessionDtor(cfg, n1, s.pubHash, Kept(s.queue)) else n1
  }

  function OnReadError(cfg: Config, n: Node, i: nat): Node
    requires i < |n.sessions|
  {
    var n1 := OnFinish(cfg, n, i);
    With(n1, i, ReadDone(n1.sessions[i]))
  }

  function OnRun(n: Node): Node {
    n.(sessions := n.sessions + [DoRead(FRESH)], live := n.live + 1)
  }

  function OnWritten(n: Node, i: nat): Node
    requires i < |n.sessions| && n.sessions[i].inFlight != []
  {
    var s := n.sessions[i];
    if s.queue == [] then Fault(n) else With(n, i, OnWriteOk(s))
  }

  // What Redis sends -----------------------------------------------------------------------

  function OnDbChatMsg(cfg: Config, n: Node, user: string, ps: seq<Parcel>): Node
    requires InRange(n)
  {
    if user !in n.index then StoreChatMsg(cfg, n, ps, user)
    else
      var i := n.index[user];
      if Alive(n.sessions[i]) then With(n, i, SendAll(n.sessions[i], ps)) else Fault(n)
  }

  /** Storing or forwarding messages queues no tag. */
  lemma OnDbChatMsgFifo(cfg: Config, n: Node, user: string, ps: seq<Parcel>)
    requires InRange(n)
    ensures OnDbChatMsg(cfg, n, user, ps).fifo == n.fifo
  {
  }

  function OnLRange(cfg: Config, n: Node, ps: seq<Parcel>): Node
    requires InRange(n)
  {
    if n.fifo == [] then Fault(n)
    else
      var n1 := OnDbChatMsg(cfg, n, n.fifo[0], ps);
      n1.(fifo := n1.fifo[1..])
  }

  function OnDbPresence(n: Node, user: string, payload: Payload): Node
    requires InRange(n)
  {
    if user !in n.index then n
    else
      var i := n.index[user];
      if Alive(n.sessions[i]) then SendTo(n, i, Entry(Parcel(user, Relayed(payload)), false)) else Fault(n)
  }

  function OnPush(cfg: Config, n: Node, channel: string, payload: Payload): Node
    requires InRange(n)
  {
    if payload == Keyspace("rpush") then
      var pos := |NotifyPrefix(cfg)|;
      if pos >= |channel| then Fault(n)
      else
        var user := channel[pos..];
        var tag := PushedValue(cfg, user);
        Request(n, FetchBatch(cfg, user, tag)).(fifo := n.fifo + [tag])
    else if PRESENCE <= channel then OnDbPresence(n, Rest(PRESENCE, channel), payload)
    else n
  }

  function OnReply(cfg: Config, n: Node, r: Reply): Node
    requires InRange(n)
  {
    match r
    case LRangeReply(_, _, ps) => OnLRange(cfg, n, ps)
    case Push(channel, payload) => OnPush(cfg, n, channel, payload)
    case Confirm(_) => n
  }

  /** shutdown_impl: close every session of the map, then ask Redis to close the connection. */
  function ShutdownAll(n: Node): Node {
    Request(n.(sessions := seq(|n.sessions|, i requires 0 <= i < |n.sessions| =>
      if i in n.index.Values && Alive(n.sessions[i]) then Shutdown(n.sessions[i]) else n.sessions[i])),
      [Quit])
  }
}
