/** One WebSocket session: its write queue and its life cycle (src/ws_session.hpp). */
module Sessions {
  import opened Messages

  /** `readOps` counts the read operations whose handler has not returned, `inFlight` holds the
      buffers of the write operations that have not completed, `closePending` says that a close
      operation is under way.  `finishes`, `writeFailed`, `sent` and `written` are histories:
      calls of finish, whether a write ever failed, the arguments of all calls of send, and the
      buffers written without an error. */
  datatype Session = Session(
    queue: seq<Entry>,
    closing: bool,
    pubHash: string,
    pongs: int,
    readOps: int,
    inFlight: seq<Entry>,
    closePending: bool,
    finishes: int,
    writeFailed: bool,
    sent: seq<Entry>,
    written: seq<Entry>)

  const FRESH := Session([], false, "", 0, 0, [], false, 0, false, [], [])

  predicate LoggedIn(s: Session) {
    s.pubHash != ""
  }

  /** Whether some handler still owns the session, so that a weak pointer to it can be locked. */
  predicate Alive(s: Session) {
    s.readOps > 0 || s.inFlight != [] || s.closePending
  }

  predicate Open(s: Session) {
    s.finishes == 0
  }

  function DoRead(s: Session): Session {
    s.(readOps := s.readOps + 1)
  }

  function ReadDone(s: Session): Session {
    s.(readOps := s.readOps - 1)
  }

  function DoWrite(s: Session): Session
    requires s.queue != []
  {
    s.(inFlight := s.inFlight + [s.queue[0]])
  }

  function Send(s: Session, e: Entry): Session {
    var s1 := s.(queue := s.queue + [e], sent := s.sent + [e]);
    if s.queue == [] && !s.closing then DoWrite(s1) else s1
  }

  function SendAll(s: Session, ps: seq<Parcel>): Session
    decreases |ps|
  {
    if ps == [] then s else SendAll(Send(s, Entry(ps[0], true)), ps[1..])
  }

  function Shutdown(s: Session): Session {
    if s.closing then s else s.(closing := true, closePending := true)
  }

  function CloseDone(s: Session): Session {
    s.(closePending := false)
  }

  function SetPubHash(s: Session, hash: string): Session {
    s.(pubHash := hash)
  }

  function OnPong(s: Session): Session {
    var s1 := s.(pongs := s.pongs + 1);
    if s1.pongs > 1 && !LoggedIn(s1) then Shutdown(s1) else s1
  }

  function OnWriteError(s: Session): Session
    requires s.inFlight != []
  {
    s.(inFlight := s.inFlight[1..], writeFailed := true)
  }

  function OnWriteOk(s: Session): Session
    requires s.inFlight != [] && s.queue != []
  {
    var s1 := s.(written := s.written + [s.inFlight[0]],
                 inFlight := s.inFlight[1..],
                 queue := s.queue[1..]);
    if s1.queue == [] then s1 else DoWrite(s1)
  }

  /** The session's part of finish: the strings of a logged-in session are moved out of the
      queue (see Kept), whatever is left in it is unspecified and never used again. */
  function Finish(s: Session): Session {
    var s1 := s.(finishes := s.finishes + 1);
    if LoggedIn(s) then s1.(queue := []) else s1
  }

  /** What holds of every session between two handlers. */
  ghost predicate SessionOk(s: Session) {
    && 0 <= s.finishes <= 1
    && s.readOps == 1 - s.finishes
    && |s.inFlight| <= 1
    && s.written <= s.sent
    && (Open(s) ==> s.written + s.queue == s.sent)
    && (Open(s) && s.inFlight != [] ==> s.queue != [] && s.inFlight[0] == s.queue[0])
    && (Open(s) && !s.closing && !s.writeFailed && s.queue != [] ==> s.inFlight != [])
    && (Open(s) && s.writeFailed ==> s.inFlight == [] && s.queue != [])
    && (!Open(s) && LoggedIn(s) ==> s.queue == [])
    && (Open(s) && !LoggedIn(s) && !s.closing ==> Kept(s.queue) == [])
  }

  /** The steps that may happen to a session at any time keep the discipline.  A handler sends
      persistent messages to logged-in or closing sessions only. */
  lemma SendOk(s: Session, e: Entry)
    requires SessionOk(s) && Open(s)
    requires e.persist ==> LoggedIn(s)
    ensures SessionOk(Send(s, e)) && Open(Send(s, e))
    ensures Send(s, e).pubHash == s.pubHash && Send(s, e).closing == s.closing
    ensures Send(s, e).finishes == s.finishes && Send(s, e).readOps == s.readOps
  {
    KeptSnoc(s.queue, e);
    assert s.written + (s.queue + [e]) == (s.written + s.queue) + [e];
    assert Send(s, e).queue[0] == (if s.queue == [] then e else s.queue[0]);
  }

  lemma {:induction false} SendAllOk(s: Session, ps: seq<Parcel>)
    requires SessionOk(s) && Open(s) && LoggedIn(s)
    ensures SessionOk(SendAll(s, ps)) && Open(SendAll(s, ps))
    ensures SendAll(s, ps).pubHash == s.pubHash && SendAll(s, ps).closing == s.closing
    ensures SendAll(s, ps).finishes == s.finishes && SendAll(s, ps).readOps == s.readOps
    decreases |ps|
  {
    if ps != [] {
      SendOk(s, Entry(ps[0], true));
      SendAllOk(Send(s, Entry(ps[0], true)), ps[1..]);
    }
  }

  lemma OnWriteOkOk(s: Session)
    requires SessionOk(s) && Open(s) && s.inFlight != []
    ensures s.queue != [] && SessionOk(OnWriteOk(s))
  {
    var t := OnWriteOk(s);
    hide Kept;
    assert s.queue == [s.queue[0]] + s.queue[1..];
    assert t.written + t.queue == s.written + s.queue;
    KeptFirst(s.queue);
    assert t.written <= t.sent;
  }

  /** What is sent, persistent or not, is appended to the queue; a write starts exactly if nothing was waiting
      and the session is not being closed. */
  lemma SendAppends(s: Session, e: Entry)
    ensures Send(s, e).sent == s.sent + [e] && Send(s, e).queue == s.queue + [e]
    ensures Send(s, e).inFlight == s.inFlight + (if s.queue == [] && !s.closing then [e] else [])
    ensures Send(s, e).written == s.written && Send(s, e).closing == s.closing && Send(s, e).pubHash == s.pubHash
  {
  }

  /** From `s` to `t` a session has been given the parcels `ps`, persistently, in this order and behind all
      else, and nothing besides. */
  ghost predicate Grows(s: Session, t: Session, ps: seq<Parcel>) {
    && |t.sent| == |s.sent| + |ps| && |t.queue| == |s.queue| + |ps|
    && s.sent <= t.sent && s.queue <= t.queue
    && forall k :: 0 <= k < |ps| ==>
        t.sent[|s.sent| + k] == Entry(ps[k], true) && t.queue[|s.queue| + k] == Entry(ps[k], true)
  }

  /** Several messages are sent in their order. */
  lemma {:induction false} SendAllInOrder(s: Session, ps: seq<Parcel>)
    ensures Grows(s, SendAll(s, ps), ps)
    decreases |ps|
  {
    if ps != [] {
      var s1 := Send(s, Entry(ps[0], true));
      SendAppends(s, Entry(ps[0], true));
      hide Send;
      SendAllInOrder(s1, ps[1..]);
      var t := SendAll(s1, ps[1..]);
      forall k | 0 <= k < |ps|
        ensures t.sent[|s.sent| + k] == Entry(ps[k], true) && t.queue[|s.queue| + k] == Entry(ps[k], true)
      {
        if k == 0 {
          assert t.sent[|s.sent|] == s1.sent[|s.sent|] && t.queue[|s.queue|] == s1.queue[|s.queue|];
        } else {
          assert t.sent[|s1.sent| + (k - 1)] == Entry(ps[1..][k - 1], true);
        }
      }
    }
  }

  /** Closing is for ever: a second shutdown, also one after the close has ended, does nothing. */
  lemma ShutdownOnce(s: Session)
    ensures Shutdown(s).closing && Shutdown(s).queue == s.queue && Shutdown(s).sent == s.sent
    ensures !s.closing ==> Shutdown(s).closePending
    ensures Shutdown(Shutdown(s)) == Shutdown(s)
    ensures Shutdown(CloseDone(Shutdown(s))) == CloseDone(Shutdown(s))
  {
  }

  function Pongs(s: Session, n: nat): Session {
    if n == 0 then s else OnPong(Pongs(s, n - 1))
  }

  /** A client that does not log in is disconnected by the second pong, not by the first, and one that is
      logged in by none. */
  lemma {:induction false} PongsClose(s: Session, n: nat)
    requires s.pongs == 0 && !s.closing
    ensures Pongs(s, n).closing <==> n >= 2 && s.pubHash == ""
    ensures Pongs(s, n).pongs == n && Pongs(s, n).pubHash == s.pubHash
  {
    if n > 0 {
      PongsClose(s, n - 1);
    }
  }

  /** The persistent parcels a session has written or still holds. */
  ghost function Held(s: Session): multiset<Parcel> {
    multiset(Kept(s.written)) + multiset(Kept(s.queue))
  }

  lemma SendHeld(s: Session, e: Entry, p: Parcel)
    ensures Held(Send(s, e))[p] == Held(s)[p] + (if e.persist && e.parcel == p then 1 else 0)
  {
    hide Kept;
    KeptSnoc(s.queue, e);
  }

  lemma {:induction false} SendAllHeld(s: Session, ps: seq<Parcel>, p: Parcel)
    ensures Held(SendAll(s, ps))[p] == Held(s)[p] + multiset(ps)[p]
    decreases |ps|
  {
    hide Kept, Held;
    if ps != [] {
      SendHeld(s, Entry(ps[0], true), p);
      SendAllHeld(Send(s, Entry(ps[0], true)), ps[1..], p);
      assert ps == [ps[0]] + ps[1..];
    }
  }

  lemma OnWriteOkHeld(s: Session, p: Parcel)
    requires SessionOk(s) && Open(s) && s.inFlight != []
    ensures s.queue != [] && Held(OnWriteOk(s))[p] == Held(s)[p]
  {
    hide Kept;
    KeptSnoc(s.written, s.inFlight[0]);
    KeptFirst(s.queue);
  }
}
