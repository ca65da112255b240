/** Requests to delete a post (src/worker.cpp, delete_post): what they send to Redis, and whether index and
    stored posts still agree afterwards. */
module Removals {
  import opened Prelude
  import opened Ordering
  import opened Posts
  import opened PostIndex

  /** What delete_post sends: the post that it found is filed under the requested id among the removed
      posts, the requested id leaves the stored posts, and every node is told to delete it. */
  datatype Removal = Removal(id: string, filed: Post, command: Cmd)

  function Request(ps: seq<Post>, id: string, from: string): Option<Removal> {
    if Get(ps, id).id == "" then None else Some(Removal(id, Get(ps, id), Delete(id, from)))
  }

  /** A deletion request files a post with the requested id exactly if there is one, and nothing at all
      exactly if every post has a smaller id. In the remaining case it files the wrong post. */
  lemma FiledIsRight(ps: seq<Post>, id: string, from: string)
    requires Sorted(ps) && forall i :: 0 <= i < |ps| ==> ps[i].id != ""
    ensures var r := Request(ps, id, from);
      && (r.Some? && r.value.filed.id == id <==> Bucket(ps, id) != [])
      && (Bucket(ps, id) != [] ==> r.value.filed == Bucket(ps, id)[0] && r.value.command == Delete(id, from))
      && (r.None? <==> forall i :: 0 <= i < |ps| ==> Less(ps[i].id, id))
  {
    GetAgrees(ps, id);
    FirstIsHead(ps, id);
    Irreflexive(id);
  }

  /** The two hashes of Redis: the stored posts, of which only the ids matter here, and the removed ones. */
  datatype Hashes = Hashes(stored: set<string>, removed: Shelf)

  function File(h: Hashes, r: Removal): Hashes {
    Hashes(h.stored - {r.id}, h.removed[r.id := r.filed])
  }

  /** The index holds posts of exactly the ids that are stored. */
  ghost predicate Mirrors(ps: seq<Post>, stored: set<string>) {
    forall i :: i in stored <==> Bucket(ps, i) != []
  }

  /** Once the command has come back, index and stored posts agree as before exactly if the post was not
      there or the request came from its owner or the admin. The request of anyone else takes the post
      from Redis but leaves it in the index. */
  lemma RequestKeepsMirror(admin: string, ps: seq<Post>, h: Hashes, id: string, from: string)
    requires Sorted(ps) && |Bucket(ps, id)| <= 1
    ensures Mirrors(ps, h.stored) && Request(ps, id, from).Some? ==>
      var r := Request(ps, id, from).value;
      Mirrors(Apply(admin, ps, r.command), File(h, r).stored)
      <==> Bucket(ps, id) == [] || Bucket(ps, id)[0].from == from || from == admin
  {
    hide Sorted, Bucket, Get, Apply;
    if Request(ps, id, from).Some? && Mirrors(ps, h.stored) {
      MirrorAfter(admin, ps, h, Request(ps, id, from).value);
    }
  }

  lemma MirrorAfter(admin: string, ps: seq<Post>, h: Hashes, r: Removal)
    requires Sorted(ps) && |Bucket(ps, r.id)| <= 1 && Mirrors(ps, h.stored) && r.command.Delete? && r.command.id == r.id
    ensures Mirrors(Apply(admin, ps, r.command), File(h, r).stored)
      <==> Bucket(ps, r.id) == [] || Bucket(ps, r.id)[0].from == r.command.from || r.command.from == admin
  {
    hide Sorted, Bucket, Apply;
    var id, from := r.id, r.command.from;
    forall i
      ensures Bucket(Apply(admin, ps, r.command), i)
           == if i == id then RemoveHead(Bucket(ps, id), from, from == admin) else Bucket(ps, i)
    {
      BucketOfApply(admin, ps, r.command, i);
    }
    var b := RemoveHead(Bucket(ps, id), from, from == admin);
    assert b == [] <==> Bucket(ps, id) == [] || Bucket(ps, id)[0].from == from || from == admin;
    assert id !in File(h, r).stored && Bucket(Apply(admin, ps, r.command), id) == b;
  }
}
