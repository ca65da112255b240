/** The worker and its sessions as the source has them: objects whose handlers change fields in place.
    Every handler is proved equal to the corresponding function on the state of the node. */
module Server {
  import opened Crypto
  import opened Messages
  import S = Sessions
  import opened Redis
  import N = Nodes

  /** ws_session_impl.  `readOps`, `inFlight` and `closePending` stand for the operations the session has
      started on its stream; the ghost fields are histories. */
  class WsSession {
    var msgQueue: seq<Entry>
    var closing: bool
    var pubHash: string
    var pongCounter: int

    var readOps: int
    var inFlight: seq<Entry>
    var closePending: bool

    ghost const id: nat
    ghost var finishes: int
    ghost var writeFailed: bool
    ghost var sent: seq<Entry>
    ghost var written: seq<Entry>

    ghost function View(): S.Session
      reads this
    {
      S.Session(msgQueue, closing, pubHash, pongCounter, readOps, inFlight, closePending, finishes, writeFailed, sent, written)
    }

    constructor (ghost id: nat)
      ensures View() == S.FRESH && this.id == id
    {
      msgQueue, closing, pubHash, pongCounter := [], false, "", 0;
      readOps, inFlight, closePending := 0, [], false;
      finishes, writeFailed, sent, written := 0, false, [], [];
      this.id := id;
    }

    predicate IsLoggedIn()
      reads this
      ensures IsLoggedIn() <==> S.LoggedIn(View())
    {
      pubHash != ""
    }

    /** Whether weak_ptr::lock succeeds. */
    predicate IsAlive()
      reads this
      ensures IsAlive() <==> S.Alive(View())
    {
      readOps > 0 || inFlight != [] || closePending
    }

    method DoRead()
      modifies this`readOps
      ensures View() == S.DoRead(old(View()))
    {
      readOps := readOps + 1;
    }

    method ReadDone()
      modifies this`readOps
      ensures View() == S.ReadDone(old(View()))
    {
      readOps := readOps - 1;
    }

    method DoWrite(e: Entry)
      modifies this`inFlight
      ensures View() == old(View()).(inFlight := old(inFlight) + [e])
    {
      inFlight := inFlight + [e];
    }

    method Send(e: Entry)
      modifies this
      ensures View() == S.Send(old(View()), e)
    {
      var isEmpty := msgQueue == [];
      msgQueue := msgQueue + [e];
      sent := sent + [e];
      if isEmpty && !closing {
        DoWrite(msgQueue[0]);
      }
    }

    method Shutdown()
      modifies this`closing, this`closePending
      ensures View() == S.Shutdown(old(View()))
    {
      if closing {
        return;
      }
      closing := true;
      closePending := true;
    }

    method OnClose()
      modifies this`closePending
      ensures View() == S.CloseDone(old(View()))
    {
      closePending := false;
    }

    method SetPubHash(hash: string)
      modifies this`pubHash
      ensures View() == S.SetPubHash(old(View()), hash)
    {
      pubHash := hash;
    }

    method OnPong()
      modifies this
      ensures View() == S.OnPong(old(View()))
    {
      pongCounter := pongCounter + 1;
      if pongCounter > 1 && !IsLoggedIn() {
        Shutdown();
      }
    }

    /** on_write; popping the front of the queue needs a queue that is not empty. */
    method OnWrite(failed: bool)
      requires inFlight != [] && (!failed ==> msgQueue != [])
      modifies this
      ensures View() == if failed then S.OnWriteError(old(View())) else S.OnWriteOk(old(View()))
    {
      if failed {
        inFlight := inFlight[1..];
        writeFailed := true;
        return;
      }
      written := written + [inFlight[0]];
      inFlight := inFlight[1..];
      msgQueue := msgQueue[1..];
      if msgQueue == [] {
        return;
      }
      DoWrite(msgQueue[0]);
    }

    /** std::remove_if as finish uses it: the persistent messages move to the front of the queue, in
        order; what stays behind them has no meaning any more. */
    method RemoveTransient() returns (point: nat)
      modifies this`msgQueue
      ensures point <= |msgQueue| == |old(msgQueue)|
      ensures forall k :: 0 <= k < point ==> msgQueue[k].persist
      ensures Kept(msgQueue[..point]) == Kept(old(msgQueue))
    {
      hide Kept;
      ghost var all := msgQueue;
      point := 0;
      for i := 0 to |msgQueue|
        invariant 0 <= point <= i <= |msgQueue| == |all|
        invariant forall k :: i <= k < |all| ==> msgQueue[k] == all[k]
        invariant forall k :: 0 <= k < point ==> msgQueue[k].persist
        invariant Kept(msgQueue[..point]) == Kept(all[..i])
      {
        var e := msgQueue[i];
        assert all[..i + 1] == all[..i] + [e];
        KeptSnoc(all[..i], e);
        if e.persist {
          ghost var front := msgQueue[..point];
          msgQueue := msgQueue[point := e];
          assert msgQueue[..point + 1] == front + [e];
          KeptSnoc(front, e);
          point := point + 1;
        }
      }
      assert all[..|all|] == all;
    }

    /** The strings of the persistent messages are moved out of the queue. */
    method TakePersistent() returns (msgs: seq<Parcel>)
      modifies this`msgQueue
      ensures msgs == Kept(old(msgQueue))
      ensures View() == old(View()).(queue := [])
    {
      var point := RemoveTransient();
      ghost var q := msgQueue;
      msgs := [];
      for k := 0 to point
        invariant msgQueue == q
        invariant msgs == Kept(msgQueue[..k])
      {
        assert msgQueue[..k + 1] == msgQueue[..k] + [msgQueue[k]];
        KeptSnoc(msgQueue[..k], msgQueue[k]);
        msgs := msgs + [msgQueue[k].parcel];
      }
      msgQueue := [];
    }
  }

  ghost function Views(ss: seq<WsSession>): (vs: seq<S.Session>)
    reads ss
    ensures |vs| == |ss| && forall i :: 0 <= i < |ss| ==> vs[i] == ss[i].View()
  {
    if ss == [] then [] else [ss[0].View()] + Views(ss[1..])
  }

  /** worker.  `requests` are the batches handed to the Redis connection; `registry` lists the sessions
      ever accepted. */
  class Worker {
    const cfg: Config
    var sessions: map<string, WsSession>
    var userIdsChatQueue: seq<string>
    var numberOfSessions: int
    var requests: seq<Batch>

    ghost var registry: seq<WsSession>
    ghost var faulted: bool
    ghost var accepted: seq<Parcel>

    ghost predicate Valid()
      reads this`registry, this`sessions
    {
      && (forall i :: 0 <= i < |registry| ==> registry[i].id == i)
      && (forall u :: u in sessions ==> sessions[u] in registry)
    }

    ghost function Index(): map<string, nat>
      reads this`sessions
    {
      map u | u in sessions :: sessions[u].id
    }

    ghost function View(): N.Node
      reads this, registry
    {
      N.Node(Views(registry), Index(), userIdsChatQueue, numberOfSessions, requests, faulted, accepted)
    }

    constructor (cfg: Config)
      ensures this.cfg == cfg && Valid() && View() == N.Node([], map[], [], 0, [], false, [])
    {
      this.cfg := cfg;
      sessions, userIdsChatQueue, numberOfSessions, requests := map[], [], 0, [];
      registry, faulted, accepted := [], false, [];
    }

    lemma InRange()
      requires Valid()
      ensures N.InRange(View())
    {
      forall u | u in sessions ensures Index()[u] < |registry| {
        EntryOf(u);
      }
    }

    /** What the map says about one user. */
    lemma EntryOf(u: string)
      requires Valid()
      ensures u in View().index <==> u in sessions
      ensures u in sessions ==>
        && View().index[u] == sessions[u].id < |registry|
        && registry[sessions[u].id] == sessions[u]
        && View().sessions[sessions[u].id] == sessions[u].View()
    {
      if u in sessions {
        var i :| 0 <= i < |registry| && registry[i] == sessions[u];
      }
    }

    /** If one session has changed, and nothing else, the state of the node has changed at its place. */
    twostate lemma OneChanged(s: WsSession)
      requires old(Valid()) && s in old(registry) && unchanged(this)
      requires forall t :: t in old(registry) && t != s ==> unchanged(t)
      ensures s.id < |registry| && registry[s.id] == s
      ensures View() == N.With(old(View()), s.id, s.View())
    {
      var i :| 0 <= i < |registry| && registry[i] == s;
      forall k | 0 <= k < |registry| && k != i
        ensures registry[k].View() == old(registry[k].View())
      {
        assert registry[k] in old(registry) && registry[k].id == k;
      }
      assert Views(registry) == old(Views(registry))[i := s.View()];
    }

    method Request(b: Batch)
      modifies this`requests
      ensures View() == N.Request(old(View()), b)
    {
      requests := requests + [b];
    }

    method StoreChatMsg(ps: seq<Parcel>, to: string)
      modifies this`requests
      ensures View() == N.StoreChatMsg(cfg, old(View()), ps, to)
    {
      if ps == [] {
        return;
      }
      var key := ListKey(cfg, to);
      Request([Incr, RPush(key, ps), Expire(key), Publish(cfg.notifyChannel, NoticeText(ps[|ps| - 1]))]);
    }

    method SendTo(s: WsSession, e: Entry)
      requires Valid() && s in registry
      modifies registry
      ensures Valid() && s.id < |registry| && View() == N.SendTo(old(View()), s.id, e)
    {
      s.Send(e);
      OneChanged(s);
    }

    // Messages from the app --------------------------------------------------------------------

    /** An entry of the map is added or replaced. */
    method SetEntry(user: string, s: WsSession)
      requires Valid() && s in registry
      modifies this`sessions
      ensures Valid() && s.id < |registry| && registry[s.id] == s
      ensures View() == old(View()).(index := old(View()).index[user := s.id])
    {
      sessions := sessions[user := s];
      assert Index() == old(Index())[user := s.id];
      assert s.id < |registry| && registry[s.id] == s by { var i :| 0 <= i < |registry| && registry[i] == s; }
    }

    /** An older session of the same user is closed, and loses its user id so that its end does not
        remove the entry of the new one. */
    method Override(prior: WsSession)
      requires Valid() && prior in registry
      modifies registry
      ensures Valid() && prior.id < |registry| && registry[prior.id] == prior
      ensures View() == if S.Alive(old(prior.View()))
        then N.With(old(View()), prior.id, S.SetPubHash(S.Shutdown(old(prior.View())), "")) else old(View())
    {
      if prior.IsAlive() {
        prior.Shutdown();
        prior.SetPubHash("");
        OneChanged(prior);
      }
      assert prior.id < |registry| && registry[prior.id] == prior by {
        var i :| 0 <= i < |registry| && registry[i] == prior;
      }
    }

    /** sessions_.insert and what follows when the user is already there. */
    method Enroll(s: WsSession, user: string)
      requires Valid() && s in registry
      modifies this`sessions, registry
      ensures Valid() && s.id < |registry| && registry[s.id] == s
      ensures N.InRange(old(View())) && View() == N.Enroll(old(View()), s.id, user)
    {
      hide Views, Index;
      InRange();
      EntryOf(user);
      if user in sessions {
        Override(sessions[user]);
      }
      SetEntry(user, s);
    }

    lemma Place(s: WsSession)
      requires Valid() && s in registry
      ensures s.id < |registry| && registry[s.id] == s && View().sessions[s.id] == s.View()
    {
      var i :| 0 <= i < |registry| && registry[i] == s;
    }

    method PublishToken(user: string, token: N.TokenField)
      modifies this`requests
      ensures View() == N.PublishToken(cfg, old(View()), user, token)
    {
      if token.TextToken? {
        Request([Publish(cfg.notifyChannel, TokenText(user, token.text)), HSet(user)]);
      }
    }

    method SetPubHash(s: WsSession, hash: string)
      requires Valid() && s in registry
      modifies registry
      ensures Valid() && s.id < |registry| && registry[s.id] == s
      ensures View() == N.With(old(View()), s.id, S.SetPubHash(old(s.View()), hash))
    {
      s.SetPubHash(hash);
      OneChanged(s);
      Place(s);
    }

    /** Subscribe to the user's channels and fetch what has been stored for the user. */
    method RequestLogin(user: string)
      modifies this`requests, this`userIdsChatQueue
      ensures View() == N.Request(old(View()), N.LoginBatch(cfg, user)).(fifo := old(View()).fifo + [user])
    {
      var key := ListKey(cfg, user);
      Request([Subscribe(NotifyChannel(cfg, user)), Subscribe(PresenceChannel(user)), LRange(key, user), Del(key)]);
      userIdsChatQueue := userIdsChatQueue + [user];
    }

    method OnAppLogin(s: WsSession, m: N.AppMsg) returns (ev: N.EvRes)
      requires Valid() && s in registry && m.LoginMsg?
      modifies this`sessions, this`requests, this`userIdsChatQueue, registry
      ensures Valid() && s.id < |registry| && N.InRange(old(View()))
      ensures (View(), ev) == N.OnAppLogin(cfg, old(View()), s.id, m)
    {
      hide Views, Index, N.Enroll, N.LoginBatch, N.PublishToken, S.Send, N.InRange, MakeHexDigest;
      InRange();
      Place(s);
      if m.user.None? || m.key.None? {
        return N.Unknown;
      }
      var user := MakeHexDigest(cfg.hash, m.user.value, m.key.value);
      if user == "" {
        SendTo(s, Entry(Parcel("", LoginAck(false)), false));
        return N.LoginFail;
      }
      SetPubHash(s, user);
      Enroll(s, user);
      if m.token.MalformedToken? {
        return N.Unknown;
      }
      PublishToken(user, m.token);
      RequestLogin(user);
      SendTo(s, Entry(Parcel(user, LoginAck(true)), false));
      return N.LoginOk;
    }

    method GetChatToField(to: string) returns (newTo: string)
      ensures newTo == N.ChatTo(cfg, to)
    {
      newTo := to;
      if to == N.CHAT_ADMIN_ID_KEY {
        newTo := cfg.chatAdminId;
      }
    }

    /** The message is stored when its addressee is not here, and handed over otherwise. */
    method Dispatch(p: Parcel)
      requires Valid()
      modifies this`requests, this`accepted, registry
      ensures Valid() && N.InRange(old(View()))
      ensures View() == N.Dispatch(cfg, old(View()), p)
    {
      hide Views, Index, S.Send, N.StoreBatch;
      InRange();
      EntryOf(p.addr);
      accepted := accepted + [p];
      if p.addr !in sessions {
        StoreChatMsg([p], p.addr);
      } else if sessions[p.addr].IsAlive() {
        SendTo(sessions[p.addr], Entry(p, true));
      }
    }

    method OnAppChatMsg(s: WsSession, m: N.AppMsg) returns (ev: N.EvRes)
      requires Valid() && s in registry && m.ChatMsg?
      modifies this`requests, this`accepted, registry
      ensures Valid() && s.id < |registry| && N.InRange(old(View()))
      ensures (View(), ev) == N.OnAppChatMsg(cfg, old(View()), s.id, m)
    {
      hide Views, Index, S.Send, N.Dispatch;
      InRange();
      Place(s);
      if m.to.None? {
        return N.Unknown;
      }
      var from := s.pubHash;
      var to := GetChatToField(m.to.value);
      Dispatch(Parcel(to, Chat(from, to, m.postId, m.id, m.body)));
      if m.postId.None? || m.id.None? {
        return N.Unknown;
      }
      SendTo(s, Entry(Parcel(from, ServerAck(m.to.value, from, m.postId.value, m.id.value)), false));
      return N.ChatMsgOk;
    }

    method OnAppPresence(s: WsSession, m: N.AppMsg) returns (ev: N.EvRes)
      requires Valid() && s in registry && m.PresenceMsg?
      modifies this`requests, registry
      ensures Valid() && s.id < |registry| && N.InRange(old(View()))
      ensures (View(), ev) == N.OnAppPresence(cfg, old(View()), s.id, m)
    {
      hide Views, Index, S.Send;
      InRange();
      Place(s);
      if m.to.None? {
        return N.Unknown;
      }
      var to := GetChatToField(m.to.value);
      EntryOf(to);
      var text := PresenceText(s.pubHash, to, m.body);
      if to !in sessions {
        Request([Publish(PresenceChannel(to), text)]);
      } else if sessions[to].IsAlive() {
        SendTo(sessions[to], Entry(Parcel(to, Relayed(text)), false));
      }
      return N.PresenceOk;
    }

    method OnAppPublish(s: WsSession, m: N.AppMsg) returns (ev: N.EvRes)
      requires Valid() && s in registry && m.PublishMsg?
      modifies this`requests, this`accepted, registry
      ensures Valid() && s.id < |registry|
      ensures (View(), ev) == N.OnAppPublish(cfg, old(View()), s.id, m)
    {
      hide Views, Index, S.Send;
      Place(s);
      if m.user.None? || m.key.None? {
        return N.Unknown;
      }
      var author := MakeHexDigest(cfg.hash, m.user.value, m.key.value);
      if author != "" && !m.hasPost {
        return N.Unknown;
      }
      ghost var n := View();
      if author != "" {
        Request([HSet(m.newId), Publish(cfg.postsChannel, PostText(m.newId))]);
      }
      var p := Parcel(s.pubHash, if author == "" then PublishAck(false, "") else PublishAck(true, m.newId));
      accepted := accepted + [p];
      SendTo(s, Entry(p, true));
      return N.PublishOk;
    }

    method OnApp(s: WsSession, m: N.AppMsg) returns (ev: N.EvRes)
      requires Valid() && s in registry
      modifies this`sessions, this`requests, this`userIdsChatQueue, this`accepted, registry
      ensures Valid() && s.id < |registry| && N.InRange(old(View()))
      ensures (View(), ev) == N.OnApp(cfg, old(View()), s.id, m)
    {
      hide Views, Index, N.OnAppLogin, N.OnAppChatMsg, N.OnAppPresence, N.OnAppPublish;
      InRange();
      Place(s);
      if s.IsLoggedIn() {
        match m
        case PresenceMsg(_, _) => ev := OnAppPresence(s, m);
        case ChatMsg(_, _, _, _) => ev := OnAppChatMsg(s, m);
        case PublishMsg(_, _, _, _) => ev := OnAppPublish(s, m);
        case _ => ev := N.Unknown;
      } else if m.LoginMsg? {
        ev := OnAppLogin(s, m);
      } else {
        ev := N.Unknown;
      }
    }

    /** handle_ev of the session. */
    method HandleEv(s: WsSession, ev: N.EvRes)
      requires Valid() && s in registry
      modifies registry
      ensures Valid() && s.id < |registry| && View() == N.HandleEv(old(View()), s.id, ev)
    {
      hide Views, Index;
      Place(s);
      if ev.LoginFail? || ev.Unknown? {
        s.Shutdown();
        OneChanged(s);
      }
    }

    /** on_read of the session without an error. */
    method OnRead(s: WsSession, m: N.AppMsg)
      requires Valid() && s in registry
      modifies this`sessions, this`requests, this`userIdsChatQueue, this`accepted, registry
      ensures Valid() && s.id < |registry| && N.InRange(old(View()))
      ensures View() == N.OnRead(cfg, old(View()), s.id, m)
    {
      hide Views, Index, N.OnApp, N.HandleEv;
      InRange();
      Place(s);
      N.OnAppShape(cfg, View(), s.id, m);
      var ev := OnApp(s, m);
      HandleEv(s, ev);
      Reread(s);
    }

    /** The next read is started before the handler of the last one returns. */
    method Reread(s: WsSession)
      requires Valid() && s in registry
      modifies registry
      ensures Valid() && s.id < |registry|
      ensures View() == N.With(old(View()), s.id, S.ReadDone(S.DoRead(old(View()).sessions[s.id])))
    {
      Place(s);
      s.DoRead();
      s.ReadDone();
      OneChanged(s);
    }

    // The end of a session ---------------------------------------------------------------------

    method RemoveEntry(user: string)
      requires Valid()
      modifies this`sessions
      ensures Valid() && View() == old(View()).(index := old(View()).index - {user})
    {
      sessions := sessions - {user};
      assert Index() == old(Index()) - {user};
    }

    method OnSessionDtor(user: string, msgs: seq<Parcel>)
      requires Valid()
      modifies this`sessions, this`requests
      ensures Valid() && View() == N.OnSessionDtor(cfg, old(View()), user, msgs)
    {
      hide Views, Index, N.StoreBatch, N.StoreChatMsg;
      EntryOf(user);
      if user !in sessions {
        return;
      }
      RemoveEntry(user);
      Request([Unsubscribe(NotifyChannel(cfg, user)), Unsubscribe(PresenceChannel(user))]);
      StoreChatMsg(msgs, user);
    }

    /** finish of the session: only the messages of a session that has its user go back to Redis. */
    method Finish(s: WsSession)
      requires Valid() && s in registry
      modifies this`sessions, this`requests, this`numberOfSessions, registry
      ensures Valid() && s.id < |registry| && View() == N.OnFinish(cfg, old(View()), s.id)
    {
      hide Views, Index, N.OnSessionDtor, Kept;
      Place(s);
      numberOfSessions := numberOfSessions - 1;
      var msgs := TakeMessages(s);
      if s.IsLoggedIn() {
        OnSessionDtor(s.pubHash, msgs);
      }
    }

    method TakeMessages(s: WsSession) returns (msgs: seq<Parcel>)
      requires Valid() && s in registry
      modifies registry
      ensures Valid() && s.id < |registry| && registry[s.id] == s && s.pubHash == old(s.pubHash)
      ensures View() == N.With(old(View()), s.id, S.Finish(old(View()).sessions[s.id]))
      ensures S.LoggedIn(old(s.View())) ==> msgs == Kept(old(View()).sessions[s.id].queue)
    {
      hide Kept;
      Place(s);
      s.finishes := s.finishes + 1;
      msgs := [];
      if s.IsLoggedIn() {
        msgs := s.TakePersistent();
      }
      OneChanged(s);
    }

    /** on_read of the session with an error. */
    method OnReadError(s: WsSession)
      requires Valid() && s in registry
      modifies this`sessions, this`requests, this`numberOfSessions, registry
      ensures Valid() && s.id < |registry| && View() == N.OnReadError(cfg, old(View()), s.id)
    {
      hide Views, Index, N.OnFinish;
      Finish(s);
      Place(s);
      label finished:
      s.ReadDone();
      OneChanged@finished(s);
    }

    /** on_run: a session has been accepted. */
    method OnRun() returns (s: WsSession)
      requires Valid()
      modifies this`registry, this`numberOfSessions
      ensures Valid() && fresh(s) && registry == old(registry) + [s]
      ensures View() == N.OnRun(old(View()))
    {
      hide Views;
      s := new WsSession(|registry|);
      numberOfSessions := numberOfSessions + 1;
      s.DoRead();
      registry := registry + [s];
      forall i | 0 <= i < |old(registry)| ensures registry[i].View() == old(registry[i].View()) {
        assert registry[i] == old(registry)[i];
      }
      assert Views(registry) == old(Views(registry)) + [S.DoRead(S.FRESH)];
      assert Index() == old(Index());
    }

    /** on_write of the session; an empty queue would be popped. */
    method OnWrite(s: WsSession, failed: bool)
      requires Valid() && s in registry && s.inFlight != []
      modifies registry, this`faulted
      ensures Valid() && s.id < |registry|
      ensures View() == if failed then N.With(old(View()), s.id, S.OnWriteError(old(View()).sessions[s.id]))
                        else N.OnWritten(old(View()), s.id)
    {
      hide Views, Index, S.OnWriteOk;
      Place(s);
      if !failed && s.msgQueue == [] {
        faulted := true;
      } else {
        s.OnWrite(failed);
        OneChanged(s);
      }
    }

    method OnPong(s: WsSession)
      requires Valid() && s in registry
      modifies registry
      ensures Valid() && s.id < |registry|
      ensures View() == N.With(old(View()), s.id, S.OnPong(old(View()).sessions[s.id]))
    {
      hide Views, Index;
      Place(s);
      s.OnPong();
      OneChanged(s);
    }

    method OnClose(s: WsSession)
      requires Valid() && s in registry
      modifies registry
      ensures Valid() && s.id < |registry|
      ensures View() == N.With(old(View()), s.id, S.CloseDone(old(View()).sessions[s.id]))
    {
      hide Views, Index;
      Place(s);
      s.OnClose();
      OneChanged(s);
    }

    // What Redis sends -------------------------------------------------------------------------

    /** All messages of a reply are sent to one session, in order. */
    method SendAll(s: WsSession, ps: seq<Parcel>)
      requires Valid() && s in registry
      modifies registry
      ensures Valid() && s.id < |registry|
      ensures View() == N.With(old(View()), s.id, S.SendAll(old(View()).sessions[s.id], ps))
    {
      hide Views, Index, S.Send;
      Place(s);
      for k := 0 to |ps|
        invariant Valid() && unchanged(this)
        invariant forall t :: t in registry && t != s ==> unchanged(t)
        invariant S.SendAll(s.View(), ps[k..]) == S.SendAll(old(s.View()), ps)
      {
        assert ps[k..][1..] == ps[k + 1..];
        s.Send(Entry(ps[k], true));
      }
      OneChanged(s);
    }

    method OnDbChatMsg(user: string, ps: seq<Parcel>)
      requires Valid()
      modifies this`requests, this`faulted, registry
      ensures Valid() && N.InRange(old(View()))
      ensures View() == N.OnDbChatMsg(cfg, old(View()), user, ps)
    {
      hide Views, Index, S.SendAll, N.StoreChatMsg;
      InRange();
      EntryOf(user);
      if user !in sessions {
        StoreChatMsg(ps, user);
      } else if sessions[user].IsAlive() {
        SendAll(sessions[user], ps);
      } else {
        faulted := true;
      }
    }

    method OnLRange(ps: seq<Parcel>)
      requires Valid()
      modifies this`requests, this`userIdsChatQueue, this`faulted, registry
      ensures Valid() && N.InRange(old(View()))
      ensures View() == N.OnLRange(cfg, old(View()), ps)
    {
      hide Views, Index, N.OnDbChatMsg;
      InRange();
      if userIdsChatQueue == [] {
        faulted := true;
        return;
      }
      OnDbChatMsg(userIdsChatQueue[0], ps);
      N.OnDbChatMsgFifo(cfg, old(View()), old(userIdsChatQueue)[0], ps);
      userIdsChatQueue := userIdsChatQueue[1..];
    }

    method OnDbPresence(user: string, payload: Payload)
      requires Valid()
      modifies this`faulted, registry
      ensures Valid() && N.InRange(old(View()))
      ensures View() == N.OnDbPresence(old(View()), user, payload)
    {
      hide Views, Index, S.Send;
      InRange();
      EntryOf(user);
      if user !in sessions {
        return;
      }
      if sessions[user].IsAlive() {
        SendTo(sessions[user], Entry(Parcel(user, Relayed(payload)), false));
      } else {
        faulted := true;
      }
    }

    method OnPush(channel: string, payload: Payload)
      requires Valid()
      modifies this`requests, this`userIdsChatQueue, this`faulted, registry
      ensures Valid() && N.InRange(old(View()))
      ensures View() == N.OnPush(cfg, old(View()), channel, payload)
    {
      hide Views, Index, N.OnDbPresence;
      InRange();
      if payload == Keyspace("rpush") {
        var pos := |NotifyPrefix(cfg)|;
        if pos >= |channel| {
          faulted := true;
          return;
        }
        var user := channel[pos..];
        var key := ListKey(cfg, user);
        var value := PushedValue(cfg, user);
        Request([LRange(key, value), Del(key)]);
        userIdsChatQueue := userIdsChatQueue + [value];
        return;
      }
      if PRESENCE <= channel {
        OnDbPresence(channel[|PRESENCE|..], payload);
      }
    }

    /** What the connection to Redis reports next. */
    method OnReply(r: Reply)
      requires Valid()
      modifies this`requests, this`userIdsChatQueue, this`faulted, registry
      ensures Valid() && N.InRange(old(View()))
      ensures View() == N.OnReply(cfg, old(View()), r)
    {
      hide Views, Index, N.OnLRange, N.OnPush;
      InRange();
      match r
      case LRangeReply(_, _, ps) => OnLRange(ps);
      case Push(channel, payload) => OnPush(channel, payload);
      case Confirm(_) =>
    }

    // Shutdown ---------------------------------------------------------------------------------

    ghost function Closed(v: S.Session, b: bool): (r: S.Session)
      ensures !b ==> r == v
    {
      if b && S.Alive(v) then S.Shutdown(v) else v
    }

    lemma ClosedTwice(v: S.Session)
      ensures Closed(Closed(v, true), true) == Closed(v, true)
    {
    }

    /** Closing the sessions of the map, in whatever order the map gives them. */
    method ShutdownSessions()
      requires Valid()
      modifies registry
      ensures Valid() && unchanged(this)
      ensures forall t :: t in registry ==> t.View() == Closed(old(t.View()), t in sessions.Values)
    {
      hide S.Shutdown, S.Alive, WsSession.View, Closed;
      ghost var handled: set<WsSession> := {};
      var todo := sessions.Keys;
      while todo != {}
        invariant Valid() && unchanged(this) && todo <= sessions.Keys
        invariant forall u :: u in sessions && u !in todo ==> sessions[u] in handled
        invariant handled <= sessions.Values
        invariant forall t :: t in registry ==> t.View() == Closed(old(t.View()), t in handled)
        decreases |todo|
      {
        var u :| u in todo;
        todo := todo - {u};
        var s := sessions[u];
        ClosedTwice(old(s.View()));
        CloseOne(s);
        handled := handled + {s};
      }
      assert handled == sessions.Values;
    }

    method CloseOne(s: WsSession)
      modifies s
      ensures s.View() == Closed(old(s.View()), true)
    {
      if s.IsAlive() {
        s.Shutdown();
      }
    }

    method ShutdownImpl()
      requires Valid()
      modifies this`requests, registry
      ensures Valid() && View() == N.ShutdownAll(old(View()))
    {
      hide Views, S.Shutdown, S.Alive;
      ShutdownSessions();
      forall i | 0 <= i < |registry|
        ensures i in Index().Values <==> registry[i] in sessions.Values
      {
        InIndex(i);
      }
      Request([Quit]);
    }

    lemma InIndex(i: nat)
      requires Valid() && i < |registry|
      ensures i in Index().Values <==> registry[i] in sessions.Values
    {
      if i in Index().Values {
        var u :| u in sessions && sessions[u].id == i;
        EntryOf(u);
      }
      if registry[i] in sessions.Values {
        var u :| u in sessions && sessions[u] == registry[i];
        assert Index()[u] == i;
      }
    }
  }
}
