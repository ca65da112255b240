/** Vocabulary shared by the other modules. */
module Prelude {

  datatype Option<+T> = None | Some(value: T)

  /** The part of `s` behind the prefix `p`; the inverse of prefixing (see Unprefix). */
  function Rest(p: string, s: string): string
    requires p <= s
  {
    s[|p|..]
  }

  lemma Unprefix(p: string, x: string)
    ensures p <= p + x && Rest(p, p + x) == x
  {
  }

  lemma Reprefix(p: string, s: string)
    requires p <= s
    ensures p + Rest(p, s) == s
  {
  }

  lemma PrefixInjective(p: string, x: string, y: string)
    requires p + x == p + y
    ensures x == y
  {
    Unprefix(p, x);
    Unprefix(p, y);
  }

  /** The sum of `f` over a sequence, as one multiset. */
  ghost function Sum<S(!new), T(!new)>(f: S -> multiset<T>, ss: seq<S>): multiset<T> {
    if ss == [] then multiset{} else f(ss[0]) + Sum(f, ss[1..])
  }

  lemma {:induction false} SumUpdate<S(!new), T(!new)>(f: S -> multiset<T>, ss: seq<S>, i: nat, s: S, t: T)
    requires i < |ss|
    ensures Sum(f, ss[i := s])[t] + f(ss[i])[t] == Sum(f, ss)[t] + f(s)[t]
  {
    if i == 0 {
      assert ss[0 := s][1..] == ss[1..];
    } else {
      assert ss[i := s][1..] == ss[1..][i - 1 := s];
      SumUpdate(f, ss[1..], i - 1, s, t);
    }
  }

  lemma {:induction false} SumAppend<S(!new), T(!new)>(f: S -> multiset<T>, ss: seq<S>, s: S, t: T)
    ensures Sum(f, ss + [s])[t] == Sum(f, ss)[t] + f(s)[t]
  {
    if ss == [] {
      assert (ss + [s])[1..] == [];
    } else {
      assert (ss + [s])[1..] == ss[1..] + [s];
      SumAppend(f, ss[1..], s, t);
    }
  }

  /** If only position `i` can hold `t`, the sum holds it exactly as often as that position. */
  lemma {:induction false} SumOnly<S(!new), T(!new)>(f: S -> multiset<T>, ss: seq<S>, i: nat, t: T)
    requires i < |ss|
    requires forall k :: 0 <= k < |ss| && k != i ==> f(ss[k])[t] == 0
    ensures Sum(f, ss)[t] == f(ss[i])[t]
  {
    if i == 0 {
      SumNone(f, ss[1..], t);
    } else {
      SumOnly(f, ss[1..], i - 1, t);
    }
  }

  lemma {:induction false} SumNone<S(!new), T(!new)>(f: S -> multiset<T>, ss: seq<S>, t: T)
    requires forall k :: 0 <= k < |ss| ==> f(ss[k])[t] == 0
    ensures Sum(f, ss)[t] == 0
  {
    if ss != [] {
      SumNone(f, ss[1..], t);
    }
  }

  /** Sums are pointwise additive. */
  lemma {:induction false} SumSplit<S(!new), T(!new)>(f: S -> multiset<T>, g: S -> multiset<T>, h: S -> multiset<T>, ss: seq<S>, t: T)
    requires forall s :: f(s)[t] == g(s)[t] + h(s)[t]
    ensures Sum(f, ss)[t] == Sum(g, ss)[t] + Sum(h, ss)[t]
  {
    if ss != [] {
      SumSplit(f, g, h, ss[1..], t);
    }
  }
}
