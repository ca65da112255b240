/** The sorted post index (src/channel.cpp) as functions on sequences, and what they achieve.

    The vector is compared with a bucket per post id: the posts with that id in the order in which they
    were published. A sorted vector is determined by its buckets (SortedByBuckets), and every operation
    acts on the bucket of one id only (BucketOfInsert, BucketOfRemove, BucketOfBump). */
module PostIndex {
  import opened Prelude
  import opened Ordering
  import opened Posts

  predicate Sorted(ps: seq<Post>) {
    forall i, j :: 0 <= i < j < |ps| ==> !Less(ps[j].id, ps[i].id)
  }

  // ------------------------------------------------------------------ positions

  /** Where std::upper_bound ends: behind the posts up to the first one with a greater id. */
  function Upper(ps: seq<Post>, id: string): (k: nat)
    ensures k <= |ps|
    ensures forall i :: 0 <= i < k ==> !Less(id, ps[i].id)
    ensures k < |ps| ==> Less(id, ps[k].id)
  {
    if ps == [] || Less(id, ps[0].id) then 0 else 1 + Upper(ps[1..], id)
  }

  /** Where std::lower_bound ends: at the first post whose id is not less. */
  function Lower(ps: seq<Post>, id: string): (k: nat)
    ensures k <= |ps|
    ensures forall i :: 0 <= i < k ==> Less(ps[i].id, id)
    ensures k < |ps| ==> !Less(ps[k].id, id)
  {
    if ps == [] || !Less(ps[0].id, id) then 0 else 1 + Lower(ps[1..], id)
  }

  /** Where std::find_if ends: at the first post with this id. */
  function First(ps: seq<Post>, id: string): (k: nat)
    ensures k <= |ps|
    ensures forall i :: 0 <= i < k ==> ps[i].id != id
    ensures k < |ps| ==> ps[k].id == id
  {
    if ps == [] || ps[0].id == id then 0 else 1 + First(ps[1..], id)
  }

  // ------------------------------------------------------------------ operations

  function Insert(ps: seq<Post>, p: Post): seq<Post> {
    var k := Upper(ps, p.id);
    ps[..k] + [p] + ps[k..]
  }

  function Bump(ps: seq<Post>, id: string): seq<Post> {
    var k := First(ps, id);
    if k < |ps| then ps[k := ps[k].(visualizations := ps[k].visualizations + 1)] else ps
  }

  predicate MayRemove(ps: seq<Post>, id: string, from: string, ignoreOwner: bool) {
    First(ps, id) < |ps| && (ps[First(ps, id)].from == from || ignoreOwner)
  }

  function Remove(ps: seq<Post>, id: string, from: string, ignoreOwner: bool): seq<Post> {
    if MayRemove(ps, id, from, ignoreOwner) then ps[..First(ps, id)] + ps[First(ps, id) + 1..] else ps
  }

  /** The value-initialised post. */
  const NO_POST := Post(0, 0, "", "", "", "", "", [], [], [], [], [], [])

  function Get(ps: seq<Post>, id: string): Post {
    var k := Lower(ps, id);
    if k < |ps| then ps[k] else NO_POST
  }

  // ------------------------------------------------------------------ commands

  /** The messages of the posts channel; Unknown stands for every other text, well-formed or not. */
  datatype Cmd = Visualization(id: string) | Delete(id: string, from: string) | Publish(post: Post) | Unknown

  function Apply(admin: string, ps: seq<Post>, c: Cmd): seq<Post> {
    match c
    case Visualization(id) => Bump(ps, id)
    case Delete(id, from) => Remove(ps, id, from, from == admin)
    case Publish(p) => Insert(ps, p)
    case Unknown => ps
  }

  function Run(admin: string, ps: seq<Post>, cs: seq<Cmd>): seq<Post> {
    if cs == [] then ps else Apply(admin, Run(admin, ps, cs[..|cs| - 1]), cs[|cs| - 1])
  }

  // ------------------------------------------------------------------ sortedness and order

  /** The new post stands behind every post that is not greater, in particular behind its equals, and
      before every greater one; the posts around it are the old ones in their order. */
  lemma InsertIsStable(ps: seq<Post>, p: Post)
    requires Sorted(ps)
    ensures var k, r := Upper(ps, p.id), Insert(ps, p);
      r[..k] == ps[..k] && r[k] == p && r[k + 1..] == ps[k..]
    ensures forall i :: 0 <= i < |ps| ==> (i < Upper(ps, p.id) <==> !Less(p.id, ps[i].id))
  {
    var k := Upper(ps, p.id);
    GreaterBehind(ps, p.id);
    hide Upper, Less, Sorted;
    InsertAt(ps, p, k);
  }

  lemma InsertSorted(ps: seq<Post>, p: Post)
    requires Sorted(ps)
    ensures Sorted(Insert(ps, p))
  {
    GreaterBehind(ps, p.id);
    hide Upper, Less, Sorted;
    InsertAtSorted(ps, p, Upper(ps, p.id));
  }

  lemma GreaterBehind(ps: seq<Post>, id: string)
    requires Sorted(ps)
    ensures forall i :: Upper(ps, id) <= i < |ps| ==> Less(id, ps[i].id)
  {
    hide Less;
    var k := Upper(ps, id);
    forall i | k <= i < |ps|
      ensures Less(id, ps[i].id)
    {
      if k < i {
        LessThenNotLess(id, ps[k].id, ps[i].id);
      }
    }
  }

  lemma InsertAt(ps: seq<Post>, p: Post, k: nat)
    requires k <= |ps|
    ensures var r := ps[..k] + [p] + ps[k..]; r[..k] == ps[..k] && r[k] == p && r[k + 1..] == ps[k..]
  {
  }

  lemma InsertAtSorted(ps: seq<Post>, p: Post, k: nat)
    requires Sorted(ps) && k <= |ps|
    requires forall i :: 0 <= i < k ==> !Less(p.id, ps[i].id)
    requires forall i :: k <= i < |ps| ==> Less(p.id, ps[i].id)
    ensures Sorted(ps[..k] + [p] + ps[k..])
  {
    hide Less;
    var r := ps[..k] + [p] + ps[k..];
    forall i, j | 0 <= i < j < |r|
      ensures !Less(r[j].id, r[i].id)
    {
      if i == k {
        assert r[j] == ps[j - 1];
        Asymmetric(p.id, r[j].id);
      } else if j == k {
        assert r[i] == ps[i];
      } else {
        assert r[i] == ps[if i < k then i else i - 1] && r[j] == ps[if j < k then j else j - 1];
      }
    }
  }

  lemma ApplySorted(admin: string, ps: seq<Post>, c: Cmd)
    requires Sorted(ps)
    ensures Sorted(Apply(admin, ps, c))
  {
    match c
    case Publish(p) => InsertSorted(ps, p);
    case _ =>
  }

  /** Whatever arrives, the index stays sorted. */
  lemma {:induction false} RunSorted(admin: string, ps: seq<Post>, cs: seq<Cmd>)
    requires Sorted(ps)
    ensures Sorted(Run(admin, ps, cs))
  {
    hide Sorted, Apply;
    if cs != [] {
      RunSorted(admin, ps, cs[..|cs| - 1]);
      ApplySorted(admin, Run(admin, ps, cs[..|cs| - 1]), cs[|cs| - 1]);
    }
  }

  // ------------------------------------------------------------------ buckets

  /** The posts with this id, in their order. */
  function Bucket(ps: seq<Post>, id: string): seq<Post> {
    if ps == [] then [] else (if ps[0].id == id then [ps[0]] else []) + Bucket(ps[1..], id)
  }

  lemma {:induction false} BucketHolds(ps: seq<Post>, id: string, p: Post)
    ensures p in Bucket(ps, id) <==> p in ps && p.id == id
  {
    if ps != [] {
      BucketHolds(ps[1..], id, p);
    }
  }

  lemma {:induction false} BucketSplit(xs: seq<Post>, ys: seq<Post>, id: string)
    ensures Bucket(xs + ys, id) == Bucket(xs, id) + Bucket(ys, id)
  {
    if xs == [] {
      assert xs + ys == ys;
    } else {
      var head := if xs[0].id == id then [xs[0]] else [];
      assert (xs + ys)[1..] == xs[1..] + ys;
      BucketSplit(xs[1..], ys, id);
      assert (head + Bucket(xs[1..], id)) + Bucket(ys, id) == head + (Bucket(xs[1..], id) + Bucket(ys, id));
    }
  }

  lemma {:induction false} BucketEmpty(ps: seq<Post>, id: string)
    requires forall i :: 0 <= i < |ps| ==> ps[i].id != id
    ensures Bucket(ps, id) == []
  {
    if ps != [] {
      BucketEmpty(ps[1..], id);
    }
  }

  /** The two sequences agree on the posts of every id, and on their order. */
  ghost predicate SameBuckets(xs: seq<Post>, ys: seq<Post>) {
    forall id :: Bucket(xs, id) == Bucket(ys, id)
  }

  /** Two sorted vectors with the same buckets are the same vector. */
  lemma {:induction false} SortedByBuckets(xs: seq<Post>, ys: seq<Post>)
    requires Sorted(xs) && Sorted(ys) && SameBuckets(xs, ys)
    ensures xs == ys
  {
    assert xs != [] ==> Bucket(xs, xs[0].id) != [];
    assert ys != [] ==> Bucket(ys, ys[0].id) != [];
    if xs != [] && ys != [] {
      SameSmallestId(xs, ys);
      SameSmallestId(ys, xs);
      Trichotomy(xs[0].id, ys[0].id);
      var id := xs[0].id;
      assert Bucket(xs, id)[0] == xs[0] && Bucket(ys, id)[0] == ys[0];
      forall i
        ensures Bucket(xs[1..], i) == Bucket(ys[1..], i)
      {
        if i == id {
          assert Bucket(xs, i)[1..] == Bucket(xs[1..], i) && Bucket(ys, i)[1..] == Bucket(ys[1..], i);
        } else {
          assert Bucket(xs, i) == Bucket(xs[1..], i) && Bucket(ys, i) == Bucket(ys[1..], i);
        }
      }
      SortedByBuckets(xs[1..], ys[1..]);
    }
  }

  lemma SameSmallestId(xs: seq<Post>, ys: seq<Post>)
    requires Sorted(ys) && xs != [] && ys != []
    requires Bucket(xs, xs[0].id) == Bucket(ys, xs[0].id)
    ensures !Less(xs[0].id, ys[0].id)
  {
    BucketHolds(xs, xs[0].id, xs[0]);
    BucketHolds(ys, xs[0].id, xs[0]);
    Irreflexive(xs[0].id);
  }

  lemma BucketOne(p: Post, id: string)
    ensures Bucket([p], id) == if p.id == id then [p] else []
  {
  }

  /** Publishing appends to the bucket of the post's id and touches no other bucket. */
  lemma BucketOfInsert(ps: seq<Post>, p: Post, id: string)
    requires Sorted(ps)
    ensures Bucket(Insert(ps, p), id) == Bucket(ps, id) + (if p.id == id then [p] else [])
  {
    var k := Upper(ps, p.id);
    assert p.id == id ==> Bucket(ps[k..], id) == [] by {
      if p.id == id {
        NoneBehind(ps, id);
        BucketEmpty(ps[k..], id);
      }
    }
    hide Bucket, Sorted, Upper;
    assert ps == ps[..k] + ps[k..];
    BucketSplit(ps[..k], ps[k..], id);
    BucketSplit(ps[..k] + [p], ps[k..], id);
    BucketSplit(ps[..k], [p], id);
    BucketOne(p, id);
  }

  lemma NoneBehind(ps: seq<Post>, id: string)
    requires Sorted(ps)
    ensures forall i :: Upper(ps, id) <= i < |ps| ==> ps[i].id != id
  {
    hide Less, Sorted, Upper;
    GreaterBehind(ps, id);
    Irreflexive(id);
  }

  lemma BucketAround(ps: seq<Post>, mid: seq<Post>, k: nat, id: string)
    requires k < |ps|
    ensures Bucket(ps, id) == Bucket(ps[..k], id) + Bucket([ps[k]], id) + Bucket(ps[k + 1..], id)
    ensures Bucket(ps[..k] + mid + ps[k + 1..], id) == Bucket(ps[..k], id) + Bucket(mid, id) + Bucket(ps[k + 1..], id)
  {
    BucketSplit(ps[..k] + mid, ps[k + 1..], id);
    BucketSplit(ps[..k], mid, id);
    assert ps == ps[..k] + [ps[k]] + ps[k + 1..];
    BucketSplit(ps[..k] + [ps[k]], ps[k + 1..], id);
    BucketSplit(ps[..k], [ps[k]], id);
  }

  function BumpHead(b: seq<Post>): seq<Post> {
    if b == [] then [] else [b[0].(visualizations := b[0].visualizations + 1)] + b[1..]
  }

  function RemoveHead(b: seq<Post>, from: string, ignoreOwner: bool): seq<Post> {
    if b != [] && (b[0].from == from || ignoreOwner) then b[1..] else b
  }

  /** The search for the first match finds the head of the bucket. */
  lemma FirstIsHead(ps: seq<Post>, id: string)
    ensures First(ps, id) < |ps| <==> Bucket(ps, id) != []
    ensures First(ps, id) < |ps| ==> ps[First(ps, id)] == Bucket(ps, id)[0]
  {
    var k := First(ps, id);
    BucketEmpty(ps[..k], id);
    if k < |ps| {
      BucketAround(ps, [], k, id);
      assert Bucket([ps[k]], id) == [ps[k]];
    } else {
      assert ps[..k] == ps;
    }
  }

  lemma BumpFront(p: Post, rest: seq<Post>)
    ensures BumpHead([] + [p] + rest) == [] + [p.(visualizations := p.visualizations + 1)] + rest
  {
  }

  lemma UpdateOne<T>(s: seq<T>, k: nat, x: T)
    requires k < |s|
    ensures s[k := x] == s[..k] + [x] + s[k + 1..]
  {
  }

  lemma BucketOfBump(ps: seq<Post>, id: string, other: string)
    ensures Bucket(Bump(ps, id), other) == if other == id then BumpHead(Bucket(ps, id)) else Bucket(ps, other)
  {
    var k := First(ps, id);
    FirstIsHead(ps, id);
    if k < |ps| {
      BucketEmpty(ps[..k], id);
      hide Bucket, First;
      var q := ps[k].(visualizations := ps[k].visualizations + 1);
      assert Bump(ps, id) == ps[k := q];
      UpdateOne(ps, k, q);
      BucketAround(ps, [q], k, other);
      BucketOne(ps[k], other);
      BucketOne(q, other);
      hide Bump, BumpHead;
      BumpFront(ps[k], Bucket(ps[k + 1..], other));
    }
  }

  lemma BucketOfRemove(ps: seq<Post>, id: string, from: string, ignoreOwner: bool, other: string)
    ensures Bucket(Remove(ps, id, from, ignoreOwner), other)
         == if other == id then RemoveHead(Bucket(ps, id), from, ignoreOwner) else Bucket(ps, other)
  {
    var k := First(ps, id);
    FirstIsHead(ps, id);
    if MayRemove(ps, id, from, ignoreOwner) {
      BucketEmpty(ps[..k], id);
      assert Bucket([], other) == [];
      hide Bucket, First;
      assert Remove(ps, id, from, ignoreOwner) == ps[..k] + [] + ps[k + 1..];
      BucketAround(ps, [], k, other);
      BucketOne(ps[k], other);
    }
  }

  function Act(admin: string, b: seq<Post>, id: string, c: Cmd): seq<Post> {
    match c
    case Visualization(i) => if i == id then BumpHead(b) else b
    case Delete(i, from) => if i == id then RemoveHead(b, from, from == admin) else b
    case Publish(p) => if p.id == id then b + [p] else b
    case Unknown => b
  }

  function ActAll(admin: string, b: seq<Post>, id: string, cs: seq<Cmd>): seq<Post> {
    if cs == [] then b else Act(admin, ActAll(admin, b, id, cs[..|cs| - 1]), id, cs[|cs| - 1])
  }

  /** The vector simulates the buckets over every trace of commands: each id is a queue of its own, fed by
      publications and served at its head by deletions and visualizations. */
  lemma {:induction false} RunIsBucketwise(admin: string, ps: seq<Post>, cs: seq<Cmd>, id: string)
    requires Sorted(ps)
    ensures Bucket(Run(admin, ps, cs), id) == ActAll(admin, Bucket(ps, id), id, cs)
  {
    hide Sorted, Bucket, Apply, Act;
    if cs != [] {
      RunIsBucketwise(admin, ps, cs[..|cs| - 1], id);
      RunSorted(admin, ps, cs[..|cs| - 1]);
      BucketOfApply(admin, Run(admin, ps, cs[..|cs| - 1]), cs[|cs| - 1], id);
    }
  }

  // ------------------------------------------------------------------ a map of posts

  type Shelf = map<string, Post>

  function Shelve(admin: string, m: Shelf, c: Cmd): Shelf {
    match c
    case Visualization(id) =>
      if id in m then m[id := m[id].(visualizations := m[id].visualizations + 1)] else m
    case Delete(id, from) =>
      if id in m && (m[id].from == from || from == admin) then m - {id} else m
    case Publish(p) => m[p.id := p]
    case Unknown => m
  }

  function ShelveAll(admin: string, m: Shelf, cs: seq<Cmd>): Shelf {
    if cs == [] then m else Shelve(admin, ShelveAll(admin, m, cs[..|cs| - 1]), cs[|cs| - 1])
  }

  /** The vector holds the posts of the map, each once and nothing else. */
  ghost predicate Agrees(ps: seq<Post>, m: Shelf) {
    Sorted(ps) && forall id :: Bucket(ps, id) == if id in m then [m[id]] else []
  }

  predicate Publishes(c: Cmd, m: Shelf) {
    c.Publish? && c.post.id in m
  }

  /** No command of the trace publishes an id that is on the shelf at that time. */
  predicate Distinct(admin: string, m: Shelf, cs: seq<Cmd>) {
    cs == [] || (Distinct(admin, m, cs[..|cs| - 1])
                 && !Publishes(cs[|cs| - 1], ShelveAll(admin, m, cs[..|cs| - 1])))
  }

  lemma BucketOfApply(admin: string, ps: seq<Post>, c: Cmd, id: string)
    requires Sorted(ps)
    ensures Bucket(Apply(admin, ps, c), id) == Act(admin, Bucket(ps, id), id, c)
  {
    hide Sorted, Bucket, Insert, Remove, Bump, BumpHead, RemoveHead;
    match c
    case Visualization(i) => BucketOfBump(ps, i, id);
    case Delete(i, from) => BucketOfRemove(ps, i, from, from == admin, id);
    case Publish(p) => BucketOfInsert(ps, p, id);
    case Unknown =>
  }

  lemma ActIsShelve(admin: string, b: seq<Post>, m: Shelf, c: Cmd, id: string)
    requires b == if id in m then [m[id]] else []
    requires forall i :: i in m ==> m[i].id == i
    requires !Publishes(c, m)
    ensures Act(admin, b, id, c) == var n := Shelve(admin, m, c); if id in n then [n[id]] else []
  {
  }

  /** One command keeps the agreement with the map exactly if it does not publish a present id. */
  lemma ApplyIsShelve(admin: string, ps: seq<Post>, m: Shelf, c: Cmd)
    requires Agrees(ps, m)
    requires forall id :: id in m ==> m[id].id == id
    ensures Agrees(Apply(admin, ps, c), Shelve(admin, m, c)) <==> !Publishes(c, m)
  {
    hide Sorted, Bucket, Apply, Act, Shelve;
    ApplySorted(admin, ps, c);
    if Publishes(c, m) {
      BucketOfApply(admin, ps, c, c.post.id);
      assert |Act(admin, Bucket(ps, c.post.id), c.post.id, c)| == 2 by { PublishedTwice(admin, m[c.post.id], c); }
    } else {
      forall id
        ensures Bucket(Apply(admin, ps, c), id) == var n := Shelve(admin, m, c); if id in n then [n[id]] else []
      {
        BucketOfApply(admin, ps, c, id);
        ActIsShelve(admin, Bucket(ps, id), m, c, id);
      }
    }
  }

  lemma PublishedTwice(admin: string, p: Post, c: Cmd)
    requires c.Publish?
    ensures |Act(admin, [p], c.post.id, c)| == 2
  {
  }

  /** With distinct ids every trace leaves the vector equal to the map. */
  lemma {:induction false} RunIsShelveAll(admin: string, ps: seq<Post>, m: Shelf, cs: seq<Cmd>)
    requires Agrees(ps, m)
    requires forall id :: id in m ==> m[id].id == id
    requires Distinct(admin, m, cs)
    ensures Agrees(Run(admin, ps, cs), ShelveAll(admin, m, cs))
    ensures forall id :: id in ShelveAll(admin, m, cs) ==> ShelveAll(admin, m, cs)[id].id == id
  {
    hide Agrees, Apply;
    if cs != [] {
      RunIsShelveAll(admin, ps, m, cs[..|cs| - 1]);
      ApplyIsShelve(admin, Run(admin, ps, cs[..|cs| - 1]), ShelveAll(admin, m, cs[..|cs| - 1]), cs[|cs| - 1]);
    }
  }

  /** The vector that agrees with a map is unique. */
  lemma AgreesOnce(ps: seq<Post>, qs: seq<Post>, m: Shelf)
    requires Agrees(ps, m) && Agrees(qs, m)
    ensures ps == qs
  {
    hide Sorted, Bucket;
    SortedByBuckets(ps, qs);
  }

  /** A post disappears only by a deletion that names it and comes from its owner or from the admin. */
  lemma DisappearsByDelete(admin: string, ps: seq<Post>, c: Cmd, id: string)
    requires Sorted(ps)
    requires |Bucket(Apply(admin, ps, c), id)| < |Bucket(ps, id)|
    ensures c.Delete? && c.id == id && (c.from == admin || c.from == Bucket(ps, id)[0].from)
    ensures Bucket(Apply(admin, ps, c), id) == Bucket(ps, id)[1..]
  {
    BucketOfApply(admin, ps, c, id);
    hide Sorted, Bucket, Apply;
  }

  // ------------------------------------------------------------------ order independence

  function Publishing(qs: seq<Post>): (cs: seq<Cmd>)
    ensures |cs| == |qs| && forall i :: 0 <= i < |qs| ==> cs[i] == Publish(qs[i])
  {
    seq(|qs|, i requires 0 <= i < |qs| => Publish(qs[i]))
  }

  /** What the worker does with the values that Redis returns. */
  function Load(admin: string, ps: seq<Post>, qs: seq<Post>): seq<Post> {
    Run(admin, ps, Publishing(qs))
  }

  lemma LoadStep(admin: string, ps: seq<Post>, qs: seq<Post>)
    requires qs != []
    ensures Load(admin, ps, qs) == Insert(Load(admin, ps, qs[..|qs| - 1]), qs[|qs| - 1])
  {
    hide Insert;
    var n := |qs| - 1;
    assert Publishing(qs)[..n] == Publishing(qs[..n]);
  }

  lemma {:induction false} BucketOfLoad(admin: string, ps: seq<Post>, qs: seq<Post>, id: string)
    requires Sorted(ps)
    ensures Bucket(Load(admin, ps, qs), id) == Bucket(ps, id) + Bucket(qs, id)
  {
    if qs == [] {
      assert Publishing(qs) == [];
    } else {
      hide Load, Bucket, Sorted, Insert;
      var n := |qs| - 1;
      LoadStep(admin, ps, qs);
      assert qs == qs[..n] + [qs[n]];
      BucketOfLoad(admin, ps, qs[..n], id);
      LoadSorted(admin, ps, qs[..n]);
      BucketOfInsert(Load(admin, ps, qs[..n]), qs[n], id);
      BucketSplit(qs[..n], [qs[n]], id);
      BucketOne(qs[n], id);
    }
  }

  /** Two loads give the same vector exactly if they agree on the order of posts that share an id. */
  lemma LoadsAgree(admin: string, ps: seq<Post>, qs: seq<Post>, rs: seq<Post>)
    requires Sorted(ps)
    ensures Load(admin, ps, qs) == Load(admin, ps, rs) <==> SameBuckets(qs, rs)
  {
    hide Sorted, Bucket, Load;
    forall id
      ensures Bucket(Load(admin, ps, qs), id) == Bucket(ps, id) + Bucket(qs, id)
      ensures Bucket(Load(admin, ps, rs), id) == Bucket(ps, id) + Bucket(rs, id)
    {
      BucketOfLoad(admin, ps, qs, id);
      BucketOfLoad(admin, ps, rs, id);
    }
    if Load(admin, ps, qs) == Load(admin, ps, rs) {
      forall id
        ensures Bucket(qs, id) == Bucket(rs, id)
      {
        assert Bucket(Load(admin, ps, qs), id) == Bucket(Load(admin, ps, rs), id);
        Cancel(Bucket(ps, id), Bucket(qs, id), Bucket(rs, id));
      }
    } else if SameBuckets(qs, rs) {
      LoadSorted(admin, ps, qs);
      LoadSorted(admin, ps, rs);
      SortedByBuckets(Load(admin, ps, qs), Load(admin, ps, rs));
    }
  }

  lemma Cancel<T>(b: seq<T>, x: seq<T>, y: seq<T>)
    requires b + x == b + y
    ensures x == y
  {
    assert x == (b + x)[|b|..] && y == (b + y)[|b|..];
  }

  lemma LoadSorted(admin: string, ps: seq<Post>, qs: seq<Post>)
    requires Sorted(ps)
    ensures Sorted(Load(admin, ps, qs))
  {
    RunSorted(admin, ps, Publishing(qs));
  }

  predicate DistinctIds(qs: seq<Post>) {
    forall i, j :: 0 <= i < j < |qs| ==> qs[i].id != qs[j].id
  }

  /** With distinct ids the order in which Redis returns the posts does not matter. */
  lemma LoadOrderIrrelevant(admin: string, ps: seq<Post>, qs: seq<Post>, rs: seq<Post>)
    requires Sorted(ps) && DistinctIds(qs) && multiset(qs) == multiset(rs)
    ensures Load(admin, ps, qs) == Load(admin, ps, rs)
  {
    hide Sorted, Load, Bucket;
    forall id
      ensures Bucket(qs, id) == Bucket(rs, id)
    {
      BucketSmall(qs, id);
      forall p
        ensures multiset(Bucket(qs, id))[p] == multiset(Bucket(rs, id))[p]
      {
        BucketCounts(qs, id, p);
        BucketCounts(rs, id, p);
      }
      SameIfSmall(Bucket(qs, id), Bucket(rs, id));
    }
    LoadsAgree(admin, ps, qs, rs);
  }

  lemma SameIfSmall<T>(x: seq<T>, y: seq<T>)
    requires |x| <= 1 && multiset(x) == multiset(y)
    ensures x == y
  {
    assert |multiset(x)| == |x| && |multiset(y)| == |y|;
    if x != [] {
      assert y[0] in multiset(y);
    }
  }

  lemma {:induction false} BucketSmall(qs: seq<Post>, id: string)
    requires DistinctIds(qs)
    ensures |Bucket(qs, id)| <= 1
  {
    if qs != [] {
      BucketSmall(qs[1..], id);
      if qs[0].id == id {
        BucketEmpty(qs[1..], id);
      }
    }
  }

  lemma {:induction false} BucketCounts(qs: seq<Post>, id: string, p: Post)
    ensures multiset(Bucket(qs, id))[p] == if p.id == id then multiset(qs)[p] else 0
  {
    if qs != [] {
      BucketCounts(qs[1..], id, p);
      assert qs == [qs[0]] + qs[1..];
    }
  }

  // ------------------------------------------------------------------ get

  /** Where lower_bound ends there is no greater post than any post that is greater than the id. */
  lemma NextGreater(ps: seq<Post>, id: string)
    requires Sorted(ps)
    ensures forall i :: 0 <= i < |ps| && Less(id, ps[i].id) ==>
      Lower(ps, id) <= i && !Less(ps[i].id, ps[Lower(ps, id)].id)
  {
    hide Less;
    forall i | 0 <= i < |ps| && Less(id, ps[i].id)
      ensures Lower(ps, id) <= i && !Less(ps[i].id, ps[Lower(ps, id)].id)
    {
      Asymmetric(id, ps[i].id);
      Irreflexive(ps[i].id);
    }
  }

  /** The binary search agrees with the linear scans exactly if the id is present; otherwise it returns
      the post with the next greater id. */
  lemma GetAgrees(ps: seq<Post>, id: string)
    requires Sorted(ps)
    ensures Bucket(ps, id) != [] ==> Lower(ps, id) == First(ps, id) && Get(ps, id) == Bucket(ps, id)[0]
    ensures Bucket(ps, id) == [] && Lower(ps, id) < |ps| ==>
      Less(id, Get(ps, id).id) && forall i :: 0 <= i < |ps| && Less(id, ps[i].id) ==> !Less(ps[i].id, Get(ps, id).id)
    ensures Lower(ps, id) == |ps| ==> Get(ps, id) == Post(0, 0, "", "", "", "", "", [], [], [], [], [], [])
    ensures Lower(ps, id) == |ps| <==> forall i :: 0 <= i < |ps| ==> Less(ps[i].id, id)
  {
    hide Less;
    NextGreater(ps, id);
    var k, f := Lower(ps, id), First(ps, id);
    FirstIsHead(ps, id);
    Irreflexive(id);
    if f < |ps| {
      assert k <= f;
      if k < f {
        Trichotomy(ps[k].id, id);
      }
    } else if k < |ps| {
      Trichotomy(ps[k].id, id);
    }
  }
}
