/** Types that several components share. */
module Common {

  newtype Byte = x: int | 0 <= x < 256

  datatype Option<T> = None | Some(value: T)

  /** A sequence without one of its elements. */
  function Without<T>(s: seq<T>, i: nat): (r: seq<T>)
    requires i < |s|
    ensures |r| == |s| - 1
    ensures forall k :: 0 <= k < |r| ==> r[k] == s[if k < i then k else k + 1]
  {
    s[..i] + s[i + 1..]
  }

  /** The first place from `i` on where `p` holds; the length if there is none. */
  function FirstFrom<T>(p: T -> bool, s: seq<T>, i: nat): (r: nat)
    requires i <= |s|
    ensures i <= r <= |s| && (r < |s| ==> p(s[r]))
    ensures forall j :: i <= j < r ==> !p(s[j])
    decreases |s| - i
  {
    if i == |s| || p(s[i]) then i else FirstFrom(p, s, i + 1)
  }

  function Map<A, B>(f: A -> B, s: seq<A>): (r: seq<B>)
    ensures |r| == |s| && forall i :: 0 <= i < |s| ==> r[i] == f(s[i])
  {
    seq(|s|, i requires 0 <= i < |s| => f(s[i]))
  }

  function FlatMap<A, B>(f: A -> seq<B>, s: seq<A>): seq<B> {
    if s == [] then [] else FlatMap(f, s[..|s| - 1]) + f(s[|s| - 1])
  }

  /** A sequence whose first `i` elements have been mapped in place. */
  function MapUpTo<A>(f: A -> A, s: seq<A>, i: nat): (r: seq<A>)
    requires i <= |s|
    ensures |r| == |s| && forall k :: i <= k < |s| ==> r[k] == s[k]
  {
    if i == 0 then s else MapUpTo(f, s, i - 1)[i - 1 := f(s[i - 1])]
  }

  lemma {:induction false} MapUpToIsMap<A>(f: A -> A, s: seq<A>, i: nat)
    requires i <= |s|
    ensures MapUpTo(f, s, i) == Map(f, s[..i]) + s[i..]
    decreases i
  {
    if i != 0 {
      MapUpToIsMap(f, s, i - 1);
    }
  }

  /** `before` followed by what the first `i` elements yield. */
  function FlatMapUpTo<A, B>(f: A -> seq<B>, before: seq<B>, s: seq<A>, i: nat): seq<B>
    requires i <= |s|
  {
    if i == 0 then before else FlatMapUpTo(f, before, s, i - 1) + f(s[i - 1])
  }

  lemma {:induction false} FlatMapUpToIsFlatMap<A, B>(f: A -> seq<B>, before: seq<B>, s: seq<A>, i: nat)
    requires i <= |s|
    ensures FlatMapUpTo(f, before, s, i) == before + FlatMap(f, s[..i])
    decreases i
  {
    if i != 0 {
      FlatMapUpToIsFlatMap(f, before, s, i - 1);
      assert s[..i][..i - 1] == s[..i - 1];
    }
  }

  lemma MappedAll<A, B>(f: A -> A, g: A -> seq<B>, before: seq<B>, s: seq<A>)
    ensures MapUpTo(f, s, |s|) == Map(f, s)
    ensures FlatMapUpTo(g, before, s, |s|) == before + FlatMap(g, s)
  {
    MapUpToIsMap(f, s, |s|);
    FlatMapUpToIsFlatMap(g, before, s, |s|);
    assert s[..|s|] == s;
  }
}
