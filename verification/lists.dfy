/** Sequence facts that do not depend on what the elements are. */
module Lists {

  /** `f` applied to every element of `s`, in order. */
  function Map<A, B>(f: A -> B, s: seq<A>): (r: seq<B>)
    ensures |r| == |s|
    ensures forall i :: 0 <= i < |s| ==> r[i] == f(s[i])
    decreases |s|
  {
    if |s| == 0 then [] else [f(s[0])] + Map(f, s[1..])
  }

  lemma MapAppend<A, B>(f: A -> B, a: seq<A>, b: seq<A>)
    ensures Map(f, a + b) == Map(f, a) + Map(f, b)
  {
    assert forall i :: 0 <= i < |a + b| ==> (a + b)[i] == if i < |a| then a[i] else b[i - |a|];
  }

  /** Mapping two arrangements of the same elements gives two arrangements of the
      same images. */
  lemma {:induction false} MapPermutation<A, B>(f: A -> B, a: seq<A>, b: seq<A>)
    requires multiset(a) == multiset(b)
    ensures multiset(Map(f, a)) == multiset(Map(f, b))
    decreases |a|
  {
    if |a| > 0 {
      var x := a[0];
      assert x in multiset(b);
      var k :| 0 <= k < |b| && b[k] == x;
      MapWithout(f, b, k);
      SameRest(a, b, k);
      MapPermutation(f, a[1..], Without(b, k));
      assert Map(f, a) == [f(x)] + Map(f, a[1..]);
    }
  }

  /** `s` with the element at `k` taken out. */
  function Without<A>(s: seq<A>, k: nat): (r: seq<A>)
    requires k < |s|
    ensures |r| == |s| - 1
    ensures multiset(r) + multiset{s[k]} == multiset(s)
  {
    assert s == s[..k] + [s[k]] + s[k + 1..];
    s[..k] + s[k + 1..]
  }

  /** Taking the same element out of two arrangements leaves two arrangements. */
  lemma SameRest<A>(a: seq<A>, b: seq<A>, k: nat)
    requires 0 < |a| && k < |b| && a[0] == b[k]
    requires multiset(a) == multiset(b)
    ensures multiset(a[1..]) == multiset(Without(b, k))
  {
    assert a == [a[0]] + a[1..];
    var rest := Without(b, k);
    forall y
      ensures multiset(rest)[y] == multiset(a[1..])[y]
    {
      assert multiset(b)[y] == multiset(a)[y];
    }
  }

  lemma MapWithout<A, B>(f: A -> B, s: seq<A>, k: nat)
    requires k < |s|
    ensures multiset(Map(f, s)) == multiset(Map(f, Without(s, k))) + multiset{f(s[k])}
  {
    var mf, mb := Map(f, s[..k]), Map(f, s[k + 1..]);
    MapSplitAt(f, s, k);
    MapAppend(f, s[..k], s[k + 1..]);
    assert multiset(mf + [f(s[k])] + mb) == multiset(mf + mb) + multiset{f(s[k])};
  }

  lemma MapSplitAt<A, B>(f: A -> B, s: seq<A>, k: nat)
    requires k < |s|
    ensures Map(f, s) == Map(f, s[..k]) + [f(s[k])] + Map(f, s[k + 1..])
  {
    var before, after := s[..k], s[k + 1..];
    assert s == (before + [s[k]]) + after;
    calc {
      Map(f, s);
      == { MapAppend(f, before + [s[k]], after); }
      Map(f, before + [s[k]]) + Map(f, after);
      == { MapAppend(f, before, [s[k]]); }
      Map(f, before) + Map(f, [s[k]]) + Map(f, after);
    }
    assert Map(f, [s[k]]) == [f(s[k])];
  }

  /** A value held at two different positions is counted at least twice. */
  lemma TwiceCounted<A>(s: seq<A>, i: nat, k: nat)
    requires i < k < |s| && s[i] == s[k]
    ensures multiset(s)[s[i]] >= 2
  {
    assert s == s[..i] + [s[i]] + s[i + 1..k] + [s[k]] + s[k + 1..];
  }
}
