/** Queries over the post index and the patching of its counters (src/channel.cpp:95-161). */
module PostQueries {
  import opened Posts

  /** `f` maps the positions of `xs` to positions of `ys` that hold the same things in the same order. */
  ghost predicate Embeds<T(!new)>(f: seq<nat>, xs: seq<T>, ys: seq<T>) {
    && |f| == |xs|
    && (forall i, j :: 0 <= i < j < |f| ==> f[i] < f[j])
    && (forall i :: 0 <= i < |f| ==> f[i] < |ys| && ys[f[i]] == xs[i])
  }

  // ------------------------------------------------------------------ query

  /** Both codes of the post extend those of the query; `<=` on sequences is the prefix order. */
  predicate Matches(p: Post, q: Post) {
    q.location <= p.location && q.product <= p.product
  }

  function Query(ps: seq<Post>, q: Post): seq<Post> {
    if ps == [] then []
    else Query(ps[..|ps| - 1], q) + (if Matches(ps[|ps| - 1], q) then [ps[|ps| - 1]] else [])
  }

  /** The positions of the matching posts. */
  function Hits(ps: seq<Post>, q: Post): (f: seq<nat>)
    ensures forall i :: 0 <= i < |f| ==> f[i] < |ps| && Matches(ps[f[i]], q)
    ensures forall k :: 0 <= k < |ps| && Matches(ps[k], q) ==> k in f
    ensures forall i, j :: 0 <= i < j < |f| ==> f[i] < f[j]
  {
    if ps == [] then [] else Hits(ps[..|ps| - 1], q) + (if Matches(ps[|ps| - 1], q) then [|ps| - 1] else [])
  }

  /** A query returns, in their order, the posts at exactly the positions at which both the location and the
      product extend those of the query. */
  lemma {:induction false} QuerySelects(ps: seq<Post>, q: Post)
    ensures Embeds(Hits(ps, q), Query(ps, q), ps)
    ensures forall k :: 0 <= k < |ps| ==>
      (k in Hits(ps, q) <==> q.location <= ps[k].location && q.product <= ps[k].product)
  {
    if ps != [] {
      QuerySelects(ps[..|ps| - 1], q);
    }
  }

  predicate Extends(narrow: Post, wide: Post) {
    wide.location <= narrow.location && wide.product <= narrow.product
  }

  lemma {:induction false} QueryAppend(xs: seq<Post>, ys: seq<Post>, q: Post)
    ensures Query(xs + ys, q) == Query(xs, q) + Query(ys, q)
  {
    if ys == [] {
      assert xs + ys == xs;
    } else {
      var n := |ys| - 1;
      assert (xs + ys)[..|xs + ys| - 1] == xs + ys[..n];
      QueryAppend(xs, ys[..n], q);
    }
  }

  lemma QueryOne(p: Post, q: Post)
    ensures Query([p], q) == if Matches(p, q) then [p] else []
  {
    assert [p][..0] == [];
    assert Query([], q) == [];
  }

  /** Extending the codes of a query selects from the former result. */
  lemma {:induction false} QueryRefines(ps: seq<Post>, wide: Post, narrow: Post)
    requires Extends(narrow, wide)
    ensures Query(Query(ps, wide), narrow) == Query(ps, narrow)
    ensures Embeds(Hits(Query(ps, wide), narrow), Query(ps, narrow), Query(ps, wide))
  {
    QuerySelects(Query(ps, wide), narrow);
    if ps != [] {
      var r, p := ps[..|ps| - 1], ps[|ps| - 1];
      QueryRefines(r, wide, narrow);
      MatchesRefines(p, wide, narrow);
      var last := if Matches(p, wide) then [p] else [];
      hide Matches;
      QueryAppend(Query(r, wide), last, narrow);
      QueryOne(p, narrow);
      assert Query([], narrow) == [];
    }
  }

  lemma MatchesRefines(p: Post, wide: Post, narrow: Post)
    requires Extends(narrow, wide)
    ensures Matches(p, narrow) ==> Matches(p, wide)
  {
  }

  // ------------------------------------------------------------------ load_visualizations

  type Counter = (string, int)

  function Ids(ps: seq<Post>): (ids: seq<string>)
    ensures |ids| == |ps| && forall i :: 0 <= i < |ps| ==> ids[i] == ps[i].id
  {
    seq(|ps|, i requires 0 <= i < |ps| => ps[i].id)
  }

  function Keys(v: seq<Counter>): (ks: seq<string>)
    ensures |ks| == |v| && forall i :: 0 <= i < |v| ==> ks[i] == v[i].0
  {
    seq(|v|, i requires 0 <= i < |v| => v[i].0)
  }

  /** The two-pointer walk: a counter is given to the first post that has none yet, or dropped. */
  function Walk(ps: seq<Post>, v: seq<Counter>): (r: seq<Post>)
    ensures |r| == |ps|
    decreases v
  {
    if v == [] || ps == [] then ps
    else if v[0].0 == ps[0].id then [ps[0].(visualizations := v[0].1)] + Walk(ps[1..], v[1..])
    else Walk(ps, v[1..])
  }

  function Shift(f: seq<nat>): (g: seq<nat>)
    ensures |g| == |f| && forall i :: 0 <= i < |f| ==> g[i] == f[i] + 1
  {
    seq(|f|, i requires 0 <= i < |f| => f[i] + 1)
  }

  function Unshift(f: seq<nat>): (g: seq<nat>)
    requires forall i :: 0 <= i < |f| ==> f[i] > 0
    ensures |g| == |f| && forall i :: 0 <= i < |f| ==> g[i] == f[i] - 1
  {
    seq(|f|, i requires 0 <= i < |f| => f[i] - 1)
  }

  /** The leftmost positions at which the ids can be matched one after the other, as far as possible. */
  function Leftmost(ids: seq<string>, keys: seq<string>): (f: seq<nat>)
    ensures |f| <= |ids|
    ensures forall i :: 0 <= i < |f| ==> f[i] < |keys|
    decreases keys
  {
    if ids == [] || keys == [] then []
    else if keys[0] == ids[0] then [0] + Shift(Leftmost(ids[1..], keys[1..]))
    else Shift(Leftmost(ids, keys[1..]))
  }

  lemma {:induction false} LeftmostEmbeds(ids: seq<string>, keys: seq<string>)
    ensures Embeds(Leftmost(ids, keys), ids[..|Leftmost(ids, keys)|], keys)
    decreases keys
  {
    if ids != [] && keys != [] {
      if keys[0] == ids[0] {
        LeftmostEmbeds(ids[1..], keys[1..]);
      } else {
        LeftmostEmbeds(ids, keys[1..]);
      }
    }
  }

  lemma EmbedsTail(f: seq<nat>, ids: seq<string>, keys: seq<string>, j: nat)
    requires 0 < j <= |ids| && keys != [] && Embeds(f, ids[..j], keys)
    ensures forall i :: 1 <= i < j ==> f[i] > 0
    ensures Embeds(Unshift(f[1..]), ids[1..][..j - 1], keys[1..])
  {
    assert forall i :: 1 <= i < j ==> f[0] < f[i];
    var g := Unshift(f[1..]);
    assert forall i :: 0 <= i < |g| ==> g[i] == f[i + 1] - 1;
    assert ids[1..][..j - 1] == ids[..j][1..];
  }

  lemma EmbedsLater(f: seq<nat>, ids: seq<string>, keys: seq<string>)
    requires ids != [] && keys != [] && Embeds(f, ids, keys) && keys[0] != ids[0]
    ensures forall i :: 0 <= i < |f| ==> f[i] > 0
    ensures Embeds(Unshift(f), ids, keys[1..])
  {
    assert forall i :: 1 <= i < |f| ==> f[0] < f[i];
  }

  /** Greedy matching is optimal: no embedding of a prefix of the ids reaches further or is anywhere
      further to the left. */
  lemma {:induction false} LeftmostIsBest(ids: seq<string>, keys: seq<string>, j: nat, f: seq<nat>)
    requires j <= |ids| && Embeds(f, ids[..j], keys)
    ensures j <= |Leftmost(ids, keys)|
    ensures forall i :: 0 <= i < j ==> Leftmost(ids, keys)[i] <= f[i]
    decreases keys
  {
    if j == 0 {
      return;
    }
    assert f[0] < |keys| && ids[..j][0] == keys[f[0]];
    if keys[0] == ids[0] {
      var l, l1 := Leftmost(ids, keys), Leftmost(ids[1..], keys[1..]);
      assert l == [0] + Shift(l1);
      hide Leftmost, Embeds;
      EmbedsTail(f, ids, keys, j);
      var g := Unshift(f[1..]);
      LeftmostIsBest(ids[1..], keys[1..], j - 1, g);
      forall i | 0 <= i < j
        ensures i < |l| && l[i] <= f[i]
      {
        if i > 0 {
          assert l[i] == l1[i - 1] + 1 && g[i - 1] == f[i] - 1;
        }
      }
    } else {
      var l, l1 := Leftmost(ids, keys), Leftmost(ids, keys[1..]);
      assert l == Shift(l1);
      hide Leftmost, Embeds;
      EmbedsLater(f, ids[..j], keys);
      var g := Unshift(f);
      LeftmostIsBest(ids, keys[1..], j, g);
      forall i | 0 <= i < j
        ensures i < |l| && l[i] <= f[i]
      {
        assert l[i] == l1[i] + 1 && g[i] == f[i] - 1;
      }
    }
  }

  /** A prefix of the ids embeds in the keys exactly if it is no longer than the greedy match. */
  lemma EmbedsIffReached(ids: seq<string>, keys: seq<string>, j: nat)
    requires j <= |ids|
    ensures (exists f :: Embeds(f, ids[..j], keys)) <==> j <= |Leftmost(ids, keys)|
  {
    var g := Leftmost(ids, keys);
    LeftmostEmbeds(ids, keys);
    if j <= |g| {
      assert Embeds(g[..j], ids[..j], keys);
    } else if f :| Embeds(f, ids[..j], keys) {
      LeftmostIsBest(ids, keys, j, f);
    }
  }

  function Updated(p: Post, v: seq<Counter>, f: seq<nat>, i: nat): Post
    requires forall k :: 0 <= k < |f| ==> f[k] < |v|
  {
    if i < |f| then p.(visualizations := v[f[i]].1) else p
  }

  lemma UpdatedLater(p: Post, v: seq<Counter>, f: seq<nat>, i: nat)
    requires v != [] && forall k :: 0 <= k < |f| ==> f[k] < |v| - 1
    ensures Updated(p, v, Shift(f), i) == Updated(p, v[1..], f, i)
    ensures Updated(p, v, [0] + Shift(f), i + 1) == Updated(p, v[1..], f, i)
  {
    assert i < |f| ==> v[Shift(f)[i]] == v[1..][f[i]] && ([0] + Shift(f))[i + 1] == Shift(f)[i];
  }

  /** The walk updates exactly the posts that the greedy match reaches, each with the counter that it is
      matched with, and leaves the rest as it is. */
  lemma {:induction false} WalkUpdates(ps: seq<Post>, v: seq<Counter>, i: nat)
    requires i < |ps|
    ensures Walk(ps, v)[i] == Updated(ps[i], v, Leftmost(Ids(ps), Keys(v)), i)
    decreases v
  {
    if v != [] {
      KeysRest(v);
      assert Ids(ps)[1..] == Ids(ps[1..]);
      var ids, keys := Ids(ps), Keys(v);
      if v[0].0 != ps[0].id {
        assert Leftmost(ids, keys) == Shift(Leftmost(ids, keys[1..]));
        assert Walk(ps, v) == Walk(ps, v[1..]);
        hide Walk, Leftmost, Ids, Keys, Updated, Shift;
        UpdatedLater(ps[i], v, Leftmost(ids, keys[1..]), i);
        WalkUpdates(ps, v[1..], i);
      } else {
        assert Leftmost(ids, keys) == [0] + Shift(Leftmost(ids[1..], keys[1..]));
        assert Walk(ps, v) == [ps[0].(visualizations := v[0].1)] + Walk(ps[1..], v[1..]);
        if i > 0 {
          hide Walk, Leftmost, Ids, Keys, Updated, Shift;
          UpdatedLater(ps[i], v, Leftmost(ids[1..], keys[1..]), i - 1);
          WalkUpdates(ps[1..], v[1..], i - 1);
        }
      }
    }
  }

  lemma KeysRest(v: seq<Counter>)
    requires v != []
    ensures Keys(v)[1..] == Keys(v[1..])
  {
  }

  /** load_visualizations updates the longest prefix of the posts whose ids embed in the keys, hence every
      post exactly if the whole sequence of ids does, and it never changes an id. */
  lemma WalkIsGreedy(ps: seq<Post>, v: seq<Counter>, j: nat)
    requires j <= |ps|
    ensures var f := Leftmost(Ids(ps), Keys(v));
            && Ids(Walk(ps, v)) == Ids(ps)
            && Walk(ps, v)[|f|..] == ps[|f|..]
            && (forall i :: 0 <= i < |f| ==> v[f[i]].0 == ps[i].id && Walk(ps, v)[i] == ps[i].(visualizations := v[f[i]].1))
            && (j <= |f| <==> exists g :: Embeds(g, Ids(ps)[..j], Keys(v)))
  {
    forall i | 0 <= i < |ps|
      ensures Walk(ps, v)[i] == Updated(ps[i], v, Leftmost(Ids(ps), Keys(v)), i)
    {
      WalkUpdates(ps, v, i);
    }
    hide Walk, Leftmost, Ids, Keys;
    LeftmostEmbeds(Ids(ps), Keys(v));
    EmbedsIffReached(Ids(ps), Keys(v), j);
  }

  /** A post without a counter stops the walk: nothing behind it is updated, whatever the counters say. */
  lemma WalkStalls(ps: seq<Post>, v: seq<Counter>, i: nat)
    requires i < |ps| && ps[i].id !in Keys(v)
    ensures Walk(ps, v)[i..] == ps[i..]
  {
    var f := Leftmost(Ids(ps), Keys(v));
    WalkIsGreedy(ps, v, 0);
    assert forall k :: 0 <= k < |f| ==> Keys(v)[f[k]] == ps[k].id && Keys(v)[f[k]] in Keys(v);
    assert Walk(ps, v)[i..] == Walk(ps, v)[|f|..][i - |f|..];
  }
}
