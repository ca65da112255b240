/** The messages that travel through the server. */
module Messages {
  import opened Prelude

  /** A message accepted for delivery to user `addr`.  The addressee is a history variable:
      it records for whom the message was accepted, and no step reads it. */
  datatype Parcel = Parcel(addr: string, msg: Msg)

  /** What the server writes to a client. */
  datatype Msg =
    | Chat(from: string, to: string, postId: Option<string>, id: Option<int>, body: string)
    | ServerAck(ackFrom: string, ackTo: string, ackPostId: string, ackId: int)
    | PublishAck(ok: bool, newPostId: string)
    | LoginAck(success: bool)
    | Relayed(text: Payload)

  /** What Redis passes on through its channels. */
  datatype Payload =
    | Keyspace(op: string)
    | PresenceText(sender: string, receiver: string, what: string)
    | PostText(postId: string)
    | TokenText(user: string, token: string)
    | NoticeText(parcel: Parcel)

  /** An element of a session's queue; `persist` marks what survives a broken connection. */
  datatype Entry = Entry(parcel: Parcel, persist: bool)

  /** The parcels that have to survive a broken connection, in order. */
  function Kept(es: seq<Entry>): (ps: seq<Parcel>) {
    if es == [] then []
    else if es[|es| - 1].persist then Kept(es[..|es| - 1]) + [es[|es| - 1].parcel]
    else Kept(es[..|es| - 1])
  }

  lemma {:induction false} KeptConcat(a: seq<Entry>, b: seq<Entry>)
    ensures Kept(a + b) == Kept(a) + Kept(b)
  {
    if b == [] {
      assert a + b == a;
    } else {
      var last := |b| - 1;
      assert (a + b)[..|a + b| - 1] == a + b[..last];
      KeptConcat(a, b[..last]);
    }
  }

  lemma KeptSnoc(es: seq<Entry>, e: Entry)
    ensures Kept(es + [e]) == Kept(es) + (if e.persist then [e.parcel] else [])
  {
    assert (es + [e])[..|es + [e]| - 1] == es;
  }

  lemma KeptFirst(es: seq<Entry>)
    requires es != []
    ensures Kept(es) == (if es[0].persist then [es[0].parcel] else []) + Kept(es[1..])
  {
    assert es == [es[0]] + es[1..];
    KeptConcat([es[0]], es[1..]);
    KeptSnoc([], es[0]);
    assert [] + [es[0]] == [es[0]];
  }

  lemma {:induction false} KeptMember(es: seq<Entry>, p: Parcel)
    ensures p in Kept(es) <==> Entry(p, true) in es
  {
    if es != [] {
      var init := es[..|es| - 1];
      assert es == init + [es[|es| - 1]];
      KeptMember(init, p);
    }
  }
}
