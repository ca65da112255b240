/** The notifier's tokens and timers (src/notifier.cpp) as a step system over timed traces.

    A user's timer is armed by a message and disarmed by a later event for that user. Armer computes from the
    trace alone which message a pending wait belongs to; the invariant ties the timers of the running notifier
    to it, and the debounce theorems read off what a notification means. */
module Notifications {
  import opened Prelude

  datatype Config = Config(fcmValid: bool, waitInterval: int, maxMsgSize: int)

  /** A chat message in Redis; None stands for a missing or mistyped field. */
  datatype Message = Message(to: Option<string>, body: Option<string>, nick: Option<string>)

  /** What arrives on the notification channel. Garbage stands for any other text, well-formed or not. */
  datatype Payload =
    | Chat(msg: Message)
    | Token(userId: Option<string>, token: Option<string>)
    | Garbage

  /** A user_entry: `waits` handlers are pending on a timer that expires at `deadline`. */
  datatype Entry = Entry(token: string, msg: Option<Message>, deadline: int, waits: nat)

  type Tokens = map<string, Entry>

  datatype Ntf = Ntf(user: string, token: string, nick: string, text: string)

  // ------------------------------------------------------------------ handlers

  function Fresh(token: string): Entry {
    Entry(token, None, 0, 0)
  }

  /** expires_after cancels the pending waits and async_wait adds one. */
  function Arm(e: Entry, m: Message, deadline: int): Entry {
    e.(msg := Some(m), deadline := deadline, waits := 1)
  }

  predicate Accepted(cfg: Config, ts: Tokens, m: Message) {
    m.to.Some? && cfg.fcmValid && m.to.value in ts && ts[m.to.value].token != ""
  }

  function OnNtfMessage(cfg: Config, ts: Tokens, now: int, m: Message): Tokens {
    if Accepted(cfg, ts, m) then ts[m.to.value := Arm(ts[m.to.value], m, now + cfg.waitInterval)] else ts
  }

  function OnNtfDel(ts: Tokens, key: string): Tokens {
    if key in ts then ts[key := ts[key].(waits := 0)] else ts
  }

  function OnToken(ts: Tokens, userId: Option<string>, token: Option<string>): Tokens {
    if userId.None? || token.None? then ts
    else if token.value == "" then ts - {userId.value}
    else if userId.value in ts then ts[userId.value := ts[userId.value].(token := token.value)]
    else ts[userId.value := Fresh(token.value)]
  }

  function OnNtfPublish(cfg: Config, ts: Tokens, now: int, p: Payload): Tokens {
    match p
    case Chat(m) => OnNtfMessage(cfg, ts, now, m)
    case Token(u, t) => OnToken(ts, u, t)
    case Garbage => ts
  }

  /** Keys and values alternate; a present key is kept, a trailing key is ignored. */
  function OnHGetAll(ts: Tokens, v: seq<string>): Tokens
    decreases |v|
  {
    if |v| < 2 then ts
    else OnHGetAll(if v[0] in ts then ts else ts[v[0] := Fresh(v[1])], v[2..])
  }

  /** One pending handler runs. */
  function OnTimeout(ts: Tokens, user: string): Tokens
    requires user in ts && ts[user].waits > 0
  {
    ts[user := ts[user].(waits := ts[user].waits - 1)]
  }

  /** The text of a notification; a negative limit makes the resize fail. */
  function Truncate(cfg: Config, s: string): (r: Option<string>)
    ensures r.Some? <==> cfg.maxMsgSize >= 0
    ensures r.Some? ==> r.value <= s && |r.value| <= cfg.maxMsgSize
    ensures r.Some? ==> r.value == s || |r.value| == cfg.maxMsgSize
  {
    if |s| <= cfg.maxMsgSize then Some(s)
    else if cfg.maxMsgSize < 0 then None
    else Some(s[..cfg.maxMsgSize])
  }

  /** What the handler sends; None when a field of the message is missing. */
  function Compose(cfg: Config, user: string, token: string, m: Option<Message>): Option<Ntf> {
    if m.None? || m.value.body.None? || m.value.nick.None? then None
    else
      var text := Truncate(cfg, m.value.body.value);
      if text.None? then None else Some(Ntf(user, token, m.value.nick.value, text.value))
  }

  /** Something is sent exactly if the message has a body and a nick and the limit is not negative. It names the
      user, the token and the nick, and its text is the longest prefix of the body within the limit. */
  predicate Carries(cfg: Config, r: Option<Ntf>, user: string, token: string, m: Message) {
    && (r.Some? <==> m.body.Some? && m.nick.Some? && cfg.maxMsgSize >= 0)
    && (r.Some? ==>
          && r.value.user == user && r.value.token == token && r.value.nick == m.nick.value
          && r.value.text <= m.body.value
          && |r.value.text| == if |m.body.value| <= cfg.maxMsgSize then |m.body.value| else cfg.maxMsgSize)
  }

  lemma ComposeCarries(cfg: Config, user: string, token: string, m: Message)
    ensures Carries(cfg, Compose(cfg, user, token, Some(m)), user, token, m)
  {
  }

  // ------------------------------------------------------------------ runs

  datatype Event =
    | Tick(duration: nat)
    | Publish(payload: Payload)
    | Del(key: string)
    | HGetAll(v: seq<string>)
    | Expire(user: string)

  datatype State = State(tokens: Tokens, now: int)

  const INIT := State(map[], 0)

  predicate Enabled(s: State, e: Event) {
    e.Expire? ==> e.user in s.tokens && s.tokens[e.user].waits > 0 && s.tokens[e.user].deadline <= s.now
  }

  function Next(cfg: Config, s: State, e: Event): State
    requires Enabled(s, e)
  {
    match e
    case Tick(d) => s.(now := s.now + d)
    case Publish(p) => s.(tokens := OnNtfPublish(cfg, s.tokens, s.now, p))
    case Del(key) => s.(tokens := OnNtfDel(s.tokens, key))
    case HGetAll(v) => s.(tokens := OnHGetAll(s.tokens, v))
    case Expire(u) => s.(tokens := OnTimeout(s.tokens, u))
  }

  /** The state after a trace; None when the trace lets a timer expire that cannot. */
  function After(cfg: Config, es: seq<Event>): Option<State> {
    if es == [] then Some(INIT)
    else
      var s, e := After(cfg, es[..|es| - 1]), es[|es| - 1];
      if s.Some? && Enabled(s.value, e) then Some(Next(cfg, s.value, e)) else None
  }

  /** What the handler that runs at position `i` of the trace sends. */
  function Sent(cfg: Config, es: seq<Event>, i: nat): Option<Ntf>
    requires i < |es| && es[i].Expire? && After(cfg, es[..i + 1]).Some?
  {
    StepEnabled(cfg, es, i);
    var u, s := es[i].user, After(cfg, es[..i]).value;
    Compose(cfg, u, s.tokens[u].token, s.tokens[u].msg)
  }

  lemma StepEnabled(cfg: Config, es: seq<Event>, i: nat)
    requires i < |es| && After(cfg, es[..i + 1]).Some?
    ensures After(cfg, es[..i]).Some? && Enabled(After(cfg, es[..i]).value, es[i])
  {
    assert es[..i + 1][..i] == es[..i];
  }

  lemma {:induction false} PrefixRuns(cfg: Config, es: seq<Event>, i: nat)
    requires i <= |es| && After(cfg, es).Some?
    ensures After(cfg, es[..i]).Some?
    decreases |es|
  {
    if i < |es| {
      assert es[..|es| - 1][..i] == es[..i];
      PrefixRuns(cfg, es[..|es| - 1], i);
    } else {
      assert es[..i] == es;
    }
  }

  // ------------------------------------------------------------------ what a trace means

  function Clock(es: seq<Event>): int {
    if es == [] then 0
    else Clock(es[..|es| - 1]) + if es[|es| - 1].Tick? then es[|es| - 1].duration else 0
  }

  /** The value that a list of alternating keys and values gives first for a key. */
  function Listed(v: seq<string>, u: string): Option<string> {
    if |v| < 2 then None else if v[0] == u then Some(v[1]) else Listed(v[2..], u)
  }

  function TokenAfter(t: Option<string>, e: Event, u: string): Option<string> {
    match e
    case Publish(Token(Some(user), Some(token))) =>
      if user != u then t else if token == "" then None else Some(token)
    case HGetAll(v) => if t.Some? then t else Listed(v, u)
    case _ => t
  }

  /** The latest token of a user. */
  function TokenOf(es: seq<Event>, u: string): Option<string> {
    if es == [] then None
    else
      TokenAfter(TokenOf(es[..|es| - 1], u), es[|es| - 1], u)
  }

  predicate IsMessage(e: Event, u: string) {
    e.Publish? && e.payload.Chat? && e.payload.msg.to == Some(u)
  }

  /** The deletion of the user's list, the erasure of the user's token and the expiry of the user's timer. */
  predicate Disarms(e: Event, u: string) {
    e == Del(u) || e == Publish(Token(Some(u), Some(""))) || e == Expire(u)
  }

  /** A message to `u` that reaches a notifier which can forward it. */
  predicate Arms(cfg: Config, es: seq<Event>, k: nat, u: string)
    requires k < |es|
  {
    IsMessage(es[k], u) && cfg.fcmValid && TokenOf(es[..k], u).Some? && TokenOf(es[..k], u).value != ""
  }

  /** The position of the message that a pending wait of `u` belongs to. */
  function Armer(cfg: Config, es: seq<Event>, u: string): (r: Option<nat>)
    ensures r.Some? ==> r.value < |es| && Arms(cfg, es, r.value, u)
  {
    if es == [] then None
    else
      var n := |es| - 1;
      assert forall k :: 0 <= k < n ==> es[..n][k] == es[k] && es[..n][..k] == es[..k];
      if Arms(cfg, es, n, u) then Some(n) else if Disarms(es[n], u) then None else Armer(cfg, es[..n], u)
  }

  /** Armer is the latest arming message, provided that nothing has disarmed the timer since. */
  lemma {:induction false} ArmerIs(cfg: Config, es: seq<Event>, u: string, k: nat)
    requires k < |es|
    ensures Armer(cfg, es, u) == Some(k) <==>
              Arms(cfg, es, k, u) && forall j :: k < j < |es| ==> !Arms(cfg, es, j, u) && !Disarms(es[j], u)
  {
    var n := |es| - 1;
    if k < n {
      ArmerIs(cfg, es[..n], u, k);
      assert forall j :: 0 <= j < n ==> es[..n][j] == es[j] && es[..n][..j] == es[..j];
      assert forall j :: 0 <= j < n ==> Arms(cfg, es[..n], j, u) == Arms(cfg, es, j, u);
    }
  }

  // ------------------------------------------------------------------ the invariant

  /** The entry of `u` is what the trace says: present exactly if the user has a token, and with one wait
      pending, for the arming message and its deadline, exactly if there is such a message. */
  predicate Tracks(cfg: Config, es: seq<Event>, s: State, u: string) {
    var t, k := TokenOf(es, u), Armer(cfg, es, u);
    && s.now == Clock(es)
    && (u in s.tokens <==> t.Some?)
    && (k.Some? ==> t.Some? && t.value != "")
    && (u in s.tokens ==>
          && s.tokens[u].token == t.value
          && s.tokens[u].waits == (if k.Some? then 1 else 0)
          && (k.Some? ==>
                && s.tokens[u].msg == Some(es[k.value].payload.msg)
                && s.tokens[u].deadline == Clock(es[..k.value]) + cfg.waitInterval))
  }

  lemma {:induction false} HGetAllAt(ts: Tokens, v: seq<string>, u: string)
    ensures var r := OnHGetAll(ts, v);
            if u in ts then u in r && r[u] == ts[u]
            else match Listed(v, u) case Some(t) => u in r && r[u] == Fresh(t) case None => u !in r
    decreases |v|
  {
    if |v| >= 2 {
      HGetAllAt(if v[0] in ts then ts else ts[v[0] := Fresh(v[1])], v[2..], u);
    }
  }

  lemma TracksStep(cfg: Config, es: seq<Event>, s: State, e: Event, u: string)
    requires Tracks(cfg, es, s, u) && Enabled(s, e)
    ensures Tracks(cfg, es + [e], Next(cfg, s, e), u)
  {
    var fs := es + [e];
    var k, k1 := Armer(cfg, es, u), Armer(cfg, fs, u);
    Snoc(cfg, es, e, u);
    assert k.Some? ==> fs[..k.value] == es[..k.value];
    if e.HGetAll? {
      HGetAllAt(s.tokens, e.v, u);
    }
    hide Armer, TokenOf, Clock, OnHGetAll, Listed;
    if k1.Some? {
      assert fs[k1.value] == if k1.value < |es| then es[k1.value] else e;
    }
  }

  /** The functions of a trace, unfolded at its end. */
  lemma Snoc(cfg: Config, es: seq<Event>, e: Event, u: string)
    ensures Clock(es + [e]) == Clock(es) + if e.Tick? then e.duration else 0
    ensures TokenOf(es + [e], u) == TokenAfter(TokenOf(es, u), e, u)
    ensures var t := TokenOf(es, u);
      Armer(cfg, es + [e], u) ==
        if IsMessage(e, u) && cfg.fcmValid && t.Some? && t.value != "" then Some(|es|)
        else if Disarms(e, u) then None else Armer(cfg, es, u)
    ensures (es + [e])[..|es|] == es
  {
    var fs := es + [e];
    assert fs[..|fs| - 1] == es;
  }

  lemma {:induction false} RunTracks(cfg: Config, es: seq<Event>, u: string)
    requires After(cfg, es).Some?
    ensures Tracks(cfg, es, After(cfg, es).value, u)
  {
    hide Tracks, Enabled, Next;
    if es == [] {
      InitTracks(cfg, u);
    } else {
      var n := |es| - 1;
      RunTracks(cfg, es[..n], u);
      TracksStep(cfg, es[..n], After(cfg, es[..n]).value, es[n], u);
      assert es[..n] + [es[n]] == es;
    }
  }

  lemma InitTracks(cfg: Config, u: string)
    ensures Tracks(cfg, [], INIT, u)
  {
  }

  // ------------------------------------------------------------------ theorems

  /** Every user has at most one pending wait. */
  lemma OneWait(cfg: Config, es: seq<Event>, u: string)
    requires After(cfg, es).Some?
    ensures var ts := After(cfg, es).value.tokens; u in ts ==> ts[u].waits <= 1
  {
    RunTracks(cfg, es, u);
  }

  /** The timer of a user can expire exactly if the latest message to the user met a token, nothing has
      disarmed the timer since, and the wait interval has passed. */
  lemma ExpiresIff(cfg: Config, es: seq<Event>, u: string)
    requires After(cfg, es).Some?
    ensures Enabled(After(cfg, es).value, Expire(u)) <==>
              exists k | 0 <= k < |es| :: Due(cfg, es, k, u)
  {
    RunTracks(cfg, es, u);
    forall k | 0 <= k < |es|
      ensures Armer(cfg, es, u) == Some(k) <==>
                Arms(cfg, es, k, u) && forall j :: k < j < |es| ==> !Arms(cfg, es, j, u) && !Disarms(es[j], u)
    {
      ArmerIs(cfg, es, u, k);
    }
    hide Arms, Disarms, Armer, TokenOf, After, Clock;
    var k := Armer(cfg, es, u);
    if k.Some? && Clock(es[..k.value]) + cfg.waitInterval <= Clock(es) {
      assert Due(cfg, es, k.value, u);
    }
  }

  predicate Due(cfg: Config, es: seq<Event>, k: nat, u: string)
    requires k < |es|
  {
    && Arms(cfg, es, k, u)
    && (forall j :: k < j < |es| ==> !Arms(cfg, es, j, u) && !Disarms(es[j], u))
    && Clock(es[..k]) + cfg.waitInterval <= Clock(es)
  }

  /** A token that met an arming message stays until the timer is disarmed, so that every later message to
      the user arms the timer again. */
  lemma {:induction false} MessageRearms(cfg: Config, es: seq<Event>, k: nat, j: nat, u: string)
    requires k < j < |es| && Arms(cfg, es, k, u)
    requires forall i :: k < i < j ==> !Disarms(es[i], u)
    ensures TokenOf(es[..j], u).Some? && TokenOf(es[..j], u).value != ""
    ensures IsMessage(es[j], u) ==> Arms(cfg, es, j, u)
  {
    assert es[..j][..j - 1] == es[..j - 1];
    if k + 1 < j {
      MessageRearms(cfg, es, k, j - 1, u);
    }
  }

  /** A notification is sent only for a message that is the latest to its user, with no deletion, erasure or
      other expiry for the user since, and at least one wait interval after it. It goes to the user's latest
      token and carries the message, cut to the limit. */
  lemma Debounce(cfg: Config, es: seq<Event>, i: nat, u: string)
    requires i < |es| && es[i] == Expire(u) && After(cfg, es[..i + 1]).Some?
    ensures exists k | 0 <= k < i ::
      && IsMessage(es[k], u)
      && (forall j :: k < j < i ==> !IsMessage(es[j], u) && !Disarms(es[j], u))
      && Clock(es[..i]) - Clock(es[..k]) >= cfg.waitInterval
      && TokenOf(es[..i], u).Some?
      && Carries(cfg, Sent(cfg, es, i), u, TokenOf(es[..i], u).value, es[k].payload.msg)
  {
    StepEnabled(cfg, es, i);
    var fs := es[..i];
    RunTracks(cfg, fs, u);
    var k := Armer(cfg, fs, u).value;
    ArmerIs(cfg, fs, u, k);
    assert fs[..k] == es[..k];
    ComposeCarries(cfg, u, TokenOf(fs, u).value, es[k].payload.msg);
    forall j | k < j < i
      ensures !IsMessage(es[j], u) && !Disarms(es[j], u)
    {
      MessageRearms(cfg, fs, k, j, u);
      assert fs[j] == es[j];
    }
  }

  /** The arming message of an expiry. */
  function ArmedBy(cfg: Config, es: seq<Event>, i: nat): Option<nat>
    requires i < |es| && es[i].Expire?
  {
    Armer(cfg, es[..i], es[i].user)
  }

  /** Two expiries are never armed by the same message. */
  lemma DistinctMessages(cfg: Config, es: seq<Event>, i: nat, j: nat)
    requires i < j < |es| && es[i].Expire? && es[j].Expire? && After(cfg, es).Some?
    ensures ArmedBy(cfg, es, i).Some? && ArmedBy(cfg, es, j).Some?
    ensures ArmedBy(cfg, es, i) != ArmedBy(cfg, es, j)
  {
    PrefixRuns(cfg, es, i + 1);
    PrefixRuns(cfg, es, j + 1);
    StepEnabled(cfg, es, i);
    StepEnabled(cfg, es, j);
    RunTracks(cfg, es[..i], es[i].user);
    RunTracks(cfg, es[..j], es[j].user);
    var k, l := ArmedBy(cfg, es, i).value, ArmedBy(cfg, es, j).value;
    ArmerIs(cfg, es[..j], es[j].user, l);
    assert es[..j][i] == es[i];
    assert l < j && k < i;
    assert es[..i][k] == es[k] && es[..j][l] == es[l];
  }
}
