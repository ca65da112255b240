/** The class channel (src/channel.cpp) and the worker's handlers that feed it, each method proved equal to
    its function in PostIndex or PostQueries. */
module Channels {
  import opened Prelude
  import opened Crypto
  import opened Ordering
  import opened Posts
  import opened PostIndex
  import opened PostQueries
  import opened Removals

  /** std::upper_bound on the range before `last`. */
  method UpperBound(ps: seq<Post>, last: nat, id: string) returns (first: nat)
    requires last <= |ps| && Sorted(ps[..last])
    ensures first == Upper(ps[..last], id)
  {
    first := 0;
    var len := last;
    while len > 0
      invariant 0 <= len && first + len <= last
      invariant forall i :: 0 <= i < first ==> !Less(id, ps[i].id)
      invariant forall i :: first + len <= i < last ==> Less(id, ps[i].id)
    {
      var half := len / 2;
      var mid := first + half;
      if Less(id, ps[mid].id) {
        forall i | mid <= i < last
          ensures Less(id, ps[i].id)
        {
          assert mid < i ==> !Less(ps[..last][i].id, ps[..last][mid].id);
          if mid < i { LessThenNotLess(id, ps[mid].id, ps[i].id); }
        }
        len := half;
      } else {
        forall i | 0 <= i <= mid
          ensures !Less(id, ps[i].id)
        {
          assert i < mid ==> !Less(ps[..last][mid].id, ps[..last][i].id);
          if i < mid { NotLessTransitive(ps[i].id, ps[mid].id, id); }
        }
        first := mid + 1;
        len := len - half - 1;
      }
    }
    UpperIs(ps[..last], id, first);
  }

  lemma {:induction false} UpperIs(ps: seq<Post>, id: string, k: nat)
    requires k <= |ps|
    requires forall i :: 0 <= i < k ==> !Less(id, ps[i].id)
    requires forall i :: k <= i < |ps| ==> Less(id, ps[i].id)
    ensures k == Upper(ps, id)
  {
    if k > 0 {
      UpperIs(ps[1..], id, k - 1);
    }
  }

  /** std::lower_bound. */
  method LowerBound(ps: seq<Post>, id: string) returns (first: nat)
    requires Sorted(ps)
    ensures first == Lower(ps, id)
  {
    first := 0;
    var len := |ps|;
    while len > 0
      invariant 0 <= len && first + len <= |ps|
      invariant forall i :: 0 <= i < first ==> Less(ps[i].id, id)
      invariant forall i :: first + len <= i < |ps| ==> !Less(ps[i].id, id)
    {
      var half := len / 2;
      var mid := first + half;
      if Less(ps[mid].id, id) {
        forall i | 0 <= i <= mid
          ensures Less(ps[i].id, id)
        {
          if i < mid { NotLessThenLess(ps[i].id, ps[mid].id, id); }
        }
        first := mid + 1;
        len := len - half - 1;
      } else {
        forall i | mid <= i < |ps|
          ensures !Less(ps[i].id, id)
        {
          if mid < i { NotLessTransitive(id, ps[mid].id, ps[i].id); }
        }
        len := half;
      }
    }
    LowerIs(ps, id, first);
  }

  lemma {:induction false} LowerIs(ps: seq<Post>, id: string, k: nat)
    requires k <= |ps|
    requires forall i :: 0 <= i < k ==> Less(ps[i].id, id)
    requires forall i :: k <= i < |ps| ==> !Less(ps[i].id, id)
    ensures k == Lower(ps, id)
  {
    if k > 0 {
      LowerIs(ps[1..], id, k - 1);
    }
  }

  /** std::find_if for an id. */
  method FindIf(ps: seq<Post>, id: string) returns (k: nat)
    ensures k == First(ps, id)
  {
    k := 0;
    while k < |ps| && ps[k].id != id
      invariant k <= First(ps, id)
    {
      k := k + 1;
    }
  }

  /** std::rotate of the last element of `s` to position `point`. */
  function RotateLast<T>(s: seq<T>, point: nat): seq<T>
    requires point < |s|
  {
    s[..point] + s[|s| - 1..] + s[point..|s| - 1]
  }

  lemma RotatedIn(ps: seq<Post>, p: Post, k: nat)
    requires k == Upper(ps, p.id)
    ensures RotateLast(ps + [p], k) == Insert(ps, p)
  {
    hide Upper;
    var s := ps + [p];
    assert s[..k] == ps[..k] && s[|s| - 1..] == [p] && s[k..|s| - 1] == ps[k..];
  }

  method IsChildOf(code: seq<int>, wanted: seq<int>) returns (r: bool)
    ensures r <==> wanted <= code
  {
    if |wanted| > |code| {
      return false;
    }
    var i := 0;
    while i < |wanted| && wanted[i] == code[i]
      invariant i <= |wanted| && wanted[..i] == code[..i]
    {
      i := i + 1;
    }
    r := i == |wanted|;
  }

  /** Whether filter hands the post to its receiver. */
  method Passes(p: Post, q: Post) returns (r: bool)
    ensures r <==> Matches(p, q)
  {
    var location := IsChildOf(p.location, q.location);
    if !location {
      return false;
    }
    r := IsChildOf(p.product, q.product);
  }

  class Channel {
    var posts: seq<Post>

    ghost predicate Valid()
      reads this
    {
      Sorted(posts)
    }

    constructor ()
      ensures Valid() && posts == []
    {
      posts := [];
    }

    method AddPost(p: Post)
      requires Valid()
      modifies this
      ensures Valid() && posts == Insert(old(posts), p)
    {
      InsertSorted(posts, p);
      hide Upper, Less, Insert;
      posts := posts + [p];
      var prev := |posts| - 1;
      assert posts[..prev] == old(posts);
      var point := UpperBound(posts, prev, posts[prev].id);
      posts := RotateLast(posts, point);
      RotatedIn(old(posts), p, point);
    }

    method GetPost(id: string) returns (p: Post)
      requires Valid()
      ensures p == Get(posts, id)
    {
      var point := LowerBound(posts, id);
      if point == |posts| {
        return NO_POST;
      }
      p := posts[point];
    }

    method OnVisualization(id: string)
      requires Valid()
      modifies this
      ensures Valid() && posts == Bump(old(posts), id)
    {
      var found := FindIf(posts, id);
      if found != |posts| {
        posts := posts[found := posts[found].(visualizations := posts[found].visualizations + 1)];
      }
    }

    method RemovePost(id: string, from: string, ignoreOwner: bool) returns (removed: bool)
      requires Valid()
      modifies this
      ensures Valid() && posts == Remove(old(posts), id, from, ignoreOwner)
      ensures removed <==> MayRemove(old(posts), id, from, ignoreOwner)
      ensures removed <==> |posts| < |old(posts)|
    {
      var found := FindIf(posts, id);
      if found == |posts| {
        return false;
      }
      if posts[found].from == from || ignoreOwner {
        posts := posts[..found] + posts[found + 1..];
        return true;
      }
      removed := false;
    }

    /** The limit `max` is not used. */
    method QueryPosts(q: Post, max: int) returns (r: seq<Post>)
      ensures r == Query(posts, q)
    {
      r := [];
      for i := 0 to |posts|
        invariant r == Query(posts[..i], q)
      {
        assert posts[..i + 1][..i] == posts[..i];
        var pass := Passes(posts[i], q);
        if pass {
          r := r + [posts[i]];
        }
      }
      assert posts[..|posts|] == posts;
    }

    /** The counter starts with whatever `garbage` the uninitialised variable holds, so the count is right
        exactly if that is zero. */
    method CountPosts(q: Post, garbage: int) returns (n: int)
      ensures n == garbage + |Query(posts, q)|
      ensures n == |Query(posts, q)| <==> garbage == 0
    {
      n := garbage;
      for i := 0 to |posts|
        invariant n == garbage + |Query(posts[..i], q)|
      {
        assert posts[..i + 1][..i] == posts[..i];
        var pass := Passes(posts[i], q);
        if pass {
          n := n + 1;
        }
      }
      assert posts[..|posts|] == posts;
    }

    method LoadVisualizations(v: seq<Counter>)
      requires Valid()
      modifies this
      ensures Valid() && posts == Walk(old(posts), v)
    {
      var vb, pb := 0, 0;
      while vb != |v| && pb != |posts|
        invariant vb <= |v| && pb <= |posts| == |old(posts)|
        invariant posts[pb..] == old(posts)[pb..]
        invariant Walk(old(posts), v) == posts[..pb] + Walk(posts[pb..], v[vb..])
        decreases |v| - vb
      {
        assert posts[pb..][1..] == posts[pb + 1..] && v[vb..][1..] == v[vb + 1..];
        if v[vb].0 == posts[pb].id {
          ghost var before := posts;
          posts := posts[pb := posts[pb].(visualizations := v[vb].1)];
          assert posts[pb + 1..] == before[pb + 1..] && posts[..pb + 1] == before[..pb] + [posts[pb]];
          pb := pb + 1;
        }
        vb := vb + 1;
      }
      assert posts == posts[..pb] + posts[pb..];
      WalkIsGreedy(old(posts), v, 0);
      SameIdsSorted(old(posts), posts);
    }

    /** The worker's handler of one message of the posts channel (src/worker.cpp:690-760). */
    method OnDbChannelPost(admin: string, c: Cmd)
      requires Valid()
      modifies this
      ensures Valid() && posts == Apply(admin, old(posts), c)
    {
      match c
      case Visualization(id) =>
        OnVisualization(id);
      case Delete(id, from) =>
        var removed := RemovePost(id, from, from == admin);
      case Publish(p) =>
        AddPost(p);
      case Unknown =>
    }

    /** The worker's handler of the stored posts (src/worker.cpp:200-215). */
    method OnHvals(admin: string, msgs: seq<Cmd>)
      requires Valid()
      modifies this
      ensures Valid() && posts == Run(admin, old(posts), msgs)
    {
      for i := 0 to |msgs|
        invariant Valid() && posts == Run(admin, old(posts), msgs[..i])
      {
        assert msgs[..i + 1][..i] == msgs[..i];
        OnDbChannelPost(admin, msgs[i]);
      }
      assert msgs[..|msgs|] == msgs;
    }

    /** What the worker sends to Redis when a post is to be deleted (src/worker.cpp:299-340). */
    method DeletePost(hash: Hasher, user: string, key: string, id: string) returns (r: Option<Removal>)
      requires Valid()
      ensures r == Request(posts, id, MakeHexDigest(hash, user, key))
    {
      var command := Delete(id, MakeHexDigest(hash, user, key));
      var p := GetPost(id);
      if p.id == "" {
        return None;
      }
      r := Some(Removal(id, p, command));
    }
  }

  lemma SameIdsSorted(ps: seq<Post>, qs: seq<Post>)
    requires Sorted(ps) && Ids(ps) == Ids(qs)
    ensures Sorted(qs)
  {
    assert |Ids(ps)| == |Ids(qs)|;
    forall i | 0 <= i < |ps|
      ensures ps[i].id == qs[i].id
    {
      assert Ids(ps)[i] == Ids(qs)[i];
    }
  }
}
