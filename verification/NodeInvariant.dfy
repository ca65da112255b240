/** The invariant of a node: the write discipline of every session, the agreement of the map of
    sessions with the sessions, the session count, and the absence of faults. */
module NodeInvariant {
  import opened Prelude
  import opened Crypto
  import opened Messages
  import opened Sessions
  import opened Redis
  import opened Nodes

  function OpenCount(ss: seq<Session>): int {
    if ss == [] then 0 else (if Open(ss[0]) then 1 else 0) + OpenCount(ss[1..])
  }

  /** The entry of `u` refers to an unfinished session of that user. */
  ghost predicate EntryOk(n: Node, u: string)
    requires u in n.index
  {
    && n.index[u] < |n.sessions|
    && Open(n.sessions[n.index[u]])
    && n.sessions[n.index[u]].pubHash == u
    && IsDigest(u)
  }

  /** An unfinished session that is logged in is the one its user's entry refers to. */
  ghost predicate SlotOk(n: Node, i: nat)
    requires i < |n.sessions|
  {
    var s := n.sessions[i];
    Open(s) && LoggedIn(s) ==> s.pubHash in n.index && n.index[s.pubHash] == i
  }

  /** sessions_ maps exactly the user ids of unfinished, logged-in sessions, each to its session. */
  ghost predicate IndexOk(n: Node) {
    && (forall u {:trigger EntryOk(n, u)} :: u in n.index ==> EntryOk(n, u))
    && (forall i {:trigger SlotOk(n, i)} :: 0 <= i < |n.sessions| ==> SlotOk(n, i))
  }

  ghost predicate SessionsOk(n: Node) {
    forall i :: 0 <= i < |n.sessions| ==> SessionOk(n.sessions[i])
  }

  ghost predicate NodeOk(n: Node) {
    SessionsOk(n) && IndexOk(n) && n.live == OpenCount(n.sessions) && !n.faulted
  }

  lemma {:induction false} OpenCountUpdate(ss: seq<Session>, i: nat, s: Session)
    requires i < |ss|
    ensures OpenCount(ss[i := s]) + (if Open(ss[i]) then 1 else 0) == OpenCount(ss) + (if Open(s) then 1 else 0)
  {
    if i == 0 {
      assert ss[0 := s][1..] == ss[1..];
    } else {
      assert ss[i := s][1..] == ss[1..][i - 1 := s];
      OpenCountUpdate(ss[1..], i - 1, s);
    }
  }

  lemma {:induction false} OpenCountAppend(ss: seq<Session>, s: Session)
    ensures OpenCount(ss + [s]) == OpenCount(ss) + (if Open(s) then 1 else 0)
  {
    if ss != [] {
      assert (ss + [s])[1..] == ss[1..] + [s];
      OpenCountAppend(ss[1..], s);
    }
  }

  lemma {:induction false} OpenCountBounds(ss: seq<Session>)
    ensures 0 <= OpenCount(ss) <= |ss|
    ensures (exists i :: 0 <= i < |ss| && Open(ss[i])) <==> OpenCount(ss) > 0
  {
    if ss != [] {
      OpenCountBounds(ss[1..]);
      if i :| 0 <= i < |ss| && Open(ss[i]) {
        if i > 0 { assert ss[1..][i - 1] == ss[i]; }
      }
      if j :| 0 <= j < |ss[1..]| && Open(ss[1..][j]) { assert ss[j + 1] == ss[1..][j]; }
    }
  }

  lemma {:induction false} OpenCountSame(ss: seq<Session>, tt: seq<Session>)
    requires |ss| == |tt| && forall i :: 0 <= i < |ss| ==> (Open(ss[i]) <==> Open(tt[i]))
    ensures OpenCount(ss) == OpenCount(tt)
  {
    if ss != [] {
      OpenCountSame(ss[1..], tt[1..]);
    }
  }

  lemma InRangeOk(n: Node)
    requires IndexOk(n)
    ensures InRange(n)
  {
    forall u | u in n.index ensures n.index[u] < |n.sessions| { assert EntryOk(n, u); }
  }

  /** A step of one session that neither logs it in or out nor finishes it. */
  lemma WithOk(n: Node, i: nat, s: Session)
    requires NodeOk(n) && i < |n.sessions| && SessionOk(s)
    requires s.pubHash == n.sessions[i].pubHash && s.finishes == n.sessions[i].finishes
    ensures NodeOk(With(n, i, s))
  {
    var n1 := With(n, i, s);
    OpenCountUpdate(n.sessions, i, s);
    forall u | u in n1.index ensures EntryOk(n1, u) { assert EntryOk(n, u); }
    forall k | 0 <= k < |n1.sessions| ensures SlotOk(n1, k) { assert SlotOk(n, k); }
  }

  /** Sending commands to Redis, and the histories, do not concern the invariant. */
  lemma SameOk(n: Node, n1: Node)
    requires NodeOk(n)
    requires n1.sessions == n.sessions && n1.index == n.index && n1.live == n.live && !n1.faulted
    ensures NodeOk(n1)
  {
    forall u | u in n1.index ensures EntryOk(n1, u) { assert EntryOk(n, u); }
    forall k | 0 <= k < |n1.sessions| ensures SlotOk(n1, k) { assert SlotOk(n, k); }
  }

  lemma SendToOk(n: Node, i: nat, e: Entry)
    requires NodeOk(n) && i < |n.sessions| && Open(n.sessions[i])
    requires e.persist ==> LoggedIn(n.sessions[i])
    ensures NodeOk(SendTo(n, i, e))
    ensures SendTo(n, i, e).sessions[i].pubHash == n.sessions[i].pubHash && Open(SendTo(n, i, e).sessions[i])
  {
    SendOk(n.sessions[i], e);
    WithOk(n, i, Send(n.sessions[i], e));
  }

  function Overridden(s: Session): Session {
    SetPubHash(Shutdown(s), "")
  }

  /** What Enroll makes of the sessions when the map is right. */
  lemma EnrollShape(n: Node, i: nat, user: string)
    requires NodeOk(n) && i < |n.sessions| && Open(n.sessions[i]) && !LoggedIn(n.sessions[i])
    requires IsDigest(user)
    ensures InRange(With(n, i, SetPubHash(n.sessions[i], user)))
    ensures var n0 := With(n, i, SetPubHash(n.sessions[i], user));
      Enroll(n0, i, user) ==
        if user in n.index
        then With(n0, n.index[user], Overridden(n.sessions[n.index[user]])).(index := n.index[user := i])
        else n0.(index := n.index[user := i])
    ensures user in n.index ==> n.index[user] != i
  {
    InRangeOk(n);
    if user in n.index {
      assert EntryOk(n, user);
      assert SessionOk(n.sessions[n.index[user]]);
    }
  }

  /** The map after a login, from what happened to each session. */
  lemma EnrollIndexOk(n: Node, n1: Node, i: nat, user: string)
    requires IndexOk(n) && i < |n.sessions| == |n1.sessions| && Open(n.sessions[i]) && !LoggedIn(n.sessions[i])
    requires IsDigest(user) && n1.index == n.index[user := i]
    requires Open(n1.sessions[i]) && n1.sessions[i].pubHash == user
    requires forall k :: 0 <= k < |n.sessions| && k != i ==>
      n1.sessions[k].finishes == n.sessions[k].finishes
      && n1.sessions[k].pubHash == if user in n.index && k == n.index[user] then "" else n.sessions[k].pubHash
    ensures IndexOk(n1)
  {
    assert user in n.index ==> EntryOk(n, user);
    forall u | u in n1.index ensures EntryOk(n1, u) {
      if u != user { assert EntryOk(n, u); }
    }
    forall k | 0 <= k < |n1.sessions| ensures SlotOk(n1, k) { assert SlotOk(n, k); }
  }

  /** A session that logs in takes its place in the map, and only then do map and sessions agree
      again: the session it replaces loses its user id. */
  lemma EnrollOk(n: Node, i: nat, user: string)
    requires NodeOk(n) && i < |n.sessions| && Open(n.sessions[i]) && !LoggedIn(n.sessions[i])
    requires IsDigest(user) && InRange(With(n, i, SetPubHash(n.sessions[i], user)))
    ensures var n1 := Enroll(With(n, i, SetPubHash(n.sessions[i], user)), i, user);
      && NodeOk(n1)
      && |n1.sessions| == |n.sessions|
      && n1.sessions[i] == SetPubHash(n.sessions[i], user)
  {
    EnrollShape(n, i, user);
    var n1 := Enroll(With(n, i, SetPubHash(n.sessions[i], user)), i, user);
    assert SessionOk(n.sessions[i]);
    OpenCountUpdate(n.sessions, i, SetPubHash(n.sessions[i], user));
    if user in n.index {
      var prior := n.index[user];
      assert EntryOk(n, user) && SessionOk(n.sessions[prior]);
      OpenCountUpdate(n.sessions[i := SetPubHash(n.sessions[i], user)], prior, Overridden(n.sessions[prior]));
    }
    EnrollIndexOk(n, n1, i, user);
  }

  lemma OnAppLoginOk(cfg: Config, n: Node, i: nat, m: AppMsg)
    requires m.LoginMsg? && NodeOk(n) && i < |n.sessions| && Open(n.sessions[i]) && !LoggedIn(n.sessions[i])
    requires InRange(n)
    ensures var n1 := OnAppLogin(cfg, n, i, m).0; NodeOk(n1) && Open(n1.sessions[i])
  {
    if m.user.Some? && m.key.Some? {
      var user := MakeHexDigest(cfg.hash, m.user.value, m.key.value);
      if user == "" {
        SendToOk(n, i, Entry(Parcel("", LoginAck(false)), false));
      } else {
        EnrollShape(n, i, user);
        EnrollOk(n, i, user);
        var n1 := Enroll(With(n, i, SetPubHash(n.sessions[i], user)), i, user);
        if !m.token.MalformedToken? {
          var n2 := PublishToken(cfg, n1, user, m.token);
          var n3 := Request(n2, LoginBatch(cfg, user)).(fifo := n2.fifo + [user]);
          SameOk(n1, n3);
          SendToOk(n3, i, Entry(Parcel(user, LoginAck(true)), false));
        }
      }
    }
  }

  /** The same sessions, open and logged in as before. */
  ghost predicate SameUsers(n: Node, n1: Node) {
    && n1.index == n.index && |n1.sessions| == |n.sessions|
    && forall k :: 0 <= k < |n.sessions| ==>
        n1.sessions[k].pubHash == n.sessions[k].pubHash && n1.sessions[k].finishes == n.sessions[k].finishes
  }

  lemma DispatchOk(cfg: Config, n: Node, p: Parcel)
    requires NodeOk(n) && InRange(n)
    ensures NodeOk(Dispatch(cfg, n, p)) && SameUsers(n, Dispatch(cfg, n, p))
  {
    SameOk(n, Accept(n, p));
    if p.addr in n.index {
      assert EntryOk(n, p.addr) && SessionOk(n.sessions[n.index[p.addr]]);
      SendToOk(Accept(n, p), n.index[p.addr], Entry(p, true));
    } else {
      SameOk(n, Dispatch(cfg, n, p));
    }
  }

  lemma OnAppChatMsgOk(cfg: Config, n: Node, i: nat, m: AppMsg)
    requires m.ChatMsg? && NodeOk(n) && InRange(n) && i < |n.sessions| && Open(n.sessions[i])
    ensures var n1 := OnAppChatMsg(cfg, n, i, m).0; NodeOk(n1) && Open(n1.sessions[i])
  {
    if m.to.Some? {
      var from := n.sessions[i].pubHash;
      DispatchOk(cfg, n, ChatParcel(cfg, from, m));
      if m.postId.Some? && m.id.Some? {
        SendToOk(Dispatch(cfg, n, ChatParcel(cfg, from, m)), i,
                 Entry(Parcel(from, ServerAck(m.to.value, from, m.postId.value, m.id.value)), false));
      }
    }
  }

  lemma OnAppPresenceOk(cfg: Config, n: Node, i: nat, m: AppMsg)
    requires m.PresenceMsg? && NodeOk(n) && InRange(n) && i < |n.sessions| && Open(n.sessions[i])
    ensures var n1 := OnAppPresence(cfg, n, i, m).0; NodeOk(n1) && Open(n1.sessions[i])
  {
    if m.to.Some? {
      var to := ChatTo(cfg, m.to.value);
      if to in n.index {
        assert EntryOk(n, to);
        SendToOk(n, n.index[to], Entry(Parcel(to, Relayed(PresenceText(n.sessions[i].pubHash, to, m.body))), false));
      } else {
        SameOk(n, OnAppPresence(cfg, n, i, m).0);
      }
    }
  }

  lemma OnAppPublishOk(cfg: Config, n: Node, i: nat, m: AppMsg)
    requires m.PublishMsg? && NodeOk(n) && i < |n.sessions| && Open(n.sessions[i]) && LoggedIn(n.sessions[i])
    ensures var n1 := OnAppPublish(cfg, n, i, m).0; NodeOk(n1) && Open(n1.sessions[i])
  {
    if m.user.Some? && m.key.Some? {
      var me := n.sessions[i].pubHash;
      var failed := MakeHexDigest(cfg.hash, m.user.value, m.key.value) == "";
      if failed || m.hasPost {
        var p := Parcel(me, if failed then PublishAck(false, "") else PublishAck(true, m.newId));
        var n1 := if failed then n else Request(n, [HSet(m.newId), Publish(cfg.postsChannel, PostText(m.newId))]);
        SameOk(n, Accept(n1, p));
        SendToOk(Accept(n1, p), i, Entry(p, true));
      }
    }
  }

  lemma OnAppOk(cfg: Config, n: Node, i: nat, m: AppMsg)
    requires NodeOk(n) && InRange(n) && i < |n.sessions| && Open(n.sessions[i])
    ensures var n1 := OnApp(cfg, n, i, m).0; NodeOk(n1) && Open(n1.sessions[i])
  {
    if LoggedIn(n.sessions[i]) {
      match m {
        case ChatMsg(_, _, _, _) => OnAppChatMsgOk(cfg, n, i, m);
        case PresenceMsg(_, _) => OnAppPresenceOk(cfg, n, i, m);
        case PublishMsg(_, _, _, _) => OnAppPublishOk(cfg, n, i, m);
        case _ =>
      }
    } else if m.LoginMsg? {
      OnAppLoginOk(cfg, n, i, m);
    }
  }

  lemma OnReadOk(cfg: Config, n: Node, i: nat, m: AppMsg)
    requires NodeOk(n) && InRange(n) && i < |n.sessions| && Open(n.sessions[i])
    ensures NodeOk(OnRead(cfg, n, i, m))
  {
    OnAppShape(cfg, n, i, m);
    OnAppOk(cfg, n, i, m);
    var (n1, ev) := OnApp(cfg, n, i, m);
    assert SessionOk(n1.sessions[i]);
    WithOk(n1, i, Shutdown(n1.sessions[i]));
    var n2 := HandleEv(n1, i, ev);
    WithOk(n2, i, ReadDone(DoRead(n2.sessions[i])));
  }

  /** What the end of a session does to sessions and map. */
  lemma OnReadErrorShape(cfg: Config, n: Node, i: nat)
    requires NodeOk(n) && i < |n.sessions| && Open(n.sessions[i])
    ensures var n1 := OnReadError(cfg, n, i);
      && n1.sessions == n.sessions[i := ReadDone(Sessions.Finish(n.sessions[i]))]
      && n1.index == n.index - {n.sessions[i].pubHash}
      && n1.live == n.live - 1 && !n1.faulted
  {
    if !LoggedIn(n.sessions[i]) {
      assert "" in n.index ==> EntryOk(n, "");
    } else {
      assert SlotOk(n, i);
    }
  }

  /** The end of a session removes its own entry of the map, and no other: an overridden session has
      lost its user id and removes none. */
  lemma OnReadErrorOk(cfg: Config, n: Node, i: nat)
    requires NodeOk(n) && i < |n.sessions| && Open(n.sessions[i])
    ensures NodeOk(OnReadError(cfg, n, i))
    ensures forall u :: u in n.index && u !in OnReadError(cfg, n, i).index ==> n.index[u] == i
  {
    var s := n.sessions[i];
    var n1 := OnReadError(cfg, n, i);
    OnReadErrorShape(cfg, n, i);
    assert SessionOk(s) && SlotOk(n, i);
    OpenCountUpdate(n.sessions, i, ReadDone(Sessions.Finish(s)));
    hide OnReadError, OpenCount;
    forall u | u in n1.index ensures EntryOk(n1, u) { assert EntryOk(n, u); }
    forall k | 0 <= k < |n1.sessions| ensures SlotOk(n1, k) { assert SlotOk(n, k); }
  }

  lemma OnRunOk(n: Node)
    requires NodeOk(n)
    ensures NodeOk(OnRun(n))
  {
    var n1 := OnRun(n);
    OpenCountAppend(n.sessions, DoRead(FRESH));
    forall u | u in n1.index ensures EntryOk(n1, u) { assert EntryOk(n, u); }
    forall k | 0 <= k < |n1.sessions| ensures SlotOk(n1, k) { if k < |n.sessions| { assert SlotOk(n, k); } }
  }

  lemma OnWrittenOk(n: Node, i: nat)
    requires NodeOk(n) && i < |n.sessions| && Open(n.sessions[i]) && n.sessions[i].inFlight != []
    ensures NodeOk(OnWritten(n, i))
  {
    OnWriteOkOk(n.sessions[i]);
    WithOk(n, i, OnWriteOk(n.sessions[i]));
  }

  lemma OnDbChatMsgOk(cfg: Config, n: Node, user: string, ps: seq<Parcel>)
    requires NodeOk(n) && InRange(n)
    ensures NodeOk(OnDbChatMsg(cfg, n, user, ps))
  {
    if user in n.index {
      assert EntryOk(n, user);
      var i := n.index[user];
      assert SessionOk(n.sessions[i]);
      SendAllOk(n.sessions[i], ps);
      WithOk(n, i, SendAll(n.sessions[i], ps));
    } else {
      SameOk(n, OnDbChatMsg(cfg, n, user, ps));
    }
  }

  lemma OnPushOk(cfg: Config, n: Node, channel: string, payload: Payload)
    requires NodeOk(n) && InRange(n)
    requires payload == Keyspace("rpush") ==> |channel| > |NotifyPrefix(cfg)|
    ensures NodeOk(OnPush(cfg, n, channel, payload))
  {
    if payload != Keyspace("rpush") && PRESENCE <= channel && Rest(PRESENCE, channel) in n.index {
      var user := Rest(PRESENCE, channel);
      assert EntryOk(n, user) && SessionOk(n.sessions[n.index[user]]);
      SendToOk(n, n.index[user], Entry(Parcel(user, Relayed(payload)), false));
    } else {
      SameOk(n, OnPush(cfg, n, channel, payload));
    }
  }

  lemma ShutdownAllOk(n: Node)
    requires NodeOk(n)
    ensures NodeOk(ShutdownAll(n))
  {
    var n1 := ShutdownAll(n);
    OpenCountSame(n.sessions, n1.sessions);
    forall u | u in n1.index ensures EntryOk(n1, u) { assert EntryOk(n, u); }
    forall k | 0 <= k < |n1.sessions| ensures SlotOk(n1, k) && SessionOk(n1.sessions[k]) {
      assert SlotOk(n, k) && SessionOk(n.sessions[k]);
    }
  }
}
