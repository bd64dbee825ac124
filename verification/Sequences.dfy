/** Shared sequence vocabulary: the specifications of the resolver's nested loops are flat maps. */
module Sequences {

  /** The concatenation of f over s, in order: what a loop that appends f's results computes. */
  function FlatMap<A, B>(f: A -> seq<B>, s: seq<A>): seq<B> {
    if s == [] then [] else f(s[0]) + FlatMap(f, s[1..])
  }

  lemma FlatMapCons<A, B>(f: A -> seq<B>, x: A, s: seq<A>)
    ensures FlatMap(f, [x] + s) == f(x) + FlatMap(f, s)
  {
    assert ([x] + s)[1..] == s;
  }

  lemma {:induction false} FlatMapSnoc<A, B>(f: A -> seq<B>, s: seq<A>, x: A)
    ensures FlatMap(f, s + [x]) == FlatMap(f, s) + f(x)
  {
    if s == [] {
      assert s + [x] == [x];
    } else {
      assert (s + [x])[1..] == s[1..] + [x];
      FlatMapSnoc(f, s[1..], x);
    }
  }

  lemma PrefixNext<A>(s: seq<A>, i: nat)
    requires i < |s|
    ensures s[..i + 1] == s[..i] + [s[i]]
  {
  }

  /** One turn of a loop over s. */
  lemma FlatMapNext<A, B>(f: A -> seq<B>, s: seq<A>, i: nat)
    requires i < |s|
    ensures FlatMap(f, s[..i + 1]) == FlatMap(f, s[..i]) + f(s[i])
  {
    assert s[..i + 1] == s[..i] + [s[i]];
    FlatMapSnoc(f, s[..i], s[i]);
  }

  /** One turn of a loop that appends to what was there before. */
  lemma FlatMapAppend<A, B>(before: seq<B>, f: A -> seq<B>, s: seq<A>, i: nat)
    requires i < |s|
    ensures (before + FlatMap(f, s[..i])) + f(s[i]) == before + FlatMap(f, s[..i + 1])
  {
    FlatMapNext(f, s, i);
  }

  /** Every element of a flat map comes from some element of s. */
  lemma {:induction false} FlatMapSource<A, B>(f: A -> seq<B>, s: seq<A>, b: B) returns (a: A)
    requires b in FlatMap(f, s)
    ensures a in s && b in f(a)
  {
    if b in f(s[0]) {
      a := s[0];
    } else {
      a := FlatMapSource(f, s[1..], b);
    }
  }

  /** Every element of f(a) is in the flat map when a is in s. */
  lemma {:induction false} FlatMapMember<A, B>(f: A -> seq<B>, s: seq<A>, a: A, b: B)
    requires a in s && b in f(a)
    ensures b in FlatMap(f, s)
  {
    if a != s[0] {
      FlatMapMember(f, s[1..], a, b);
    }
  }

  /** Two flat maps agree when their contributions agree position by position. */
  lemma {:induction false} FlatMapCongruence<A, B>(f: A -> seq<B>, g: A -> seq<B>, s: seq<A>, t: seq<A>)
    requires |s| == |t|
    requires forall i :: 0 <= i < |s| ==> f(s[i]) == g(t[i])
    ensures FlatMap(f, s) == FlatMap(g, t)
  {
    if s != [] {
      FlatMapCongruence(f, g, s[1..], t[1..]);
    }
  }

  /** Flat maps whose contributions have the same lengths are equal only position by position. */
  lemma {:induction false} FlatMapPositional<A, B>(f: A -> seq<B>, g: A -> seq<B>, s: seq<A>, t: seq<A>)
    requires |s| == |t|
    requires forall i :: 0 <= i < |s| ==> |f(s[i])| == |g(t[i])|
    ensures |FlatMap(f, s)| == |FlatMap(g, t)|
    ensures FlatMap(f, s) == FlatMap(g, t) ==> forall i :: 0 <= i < |s| ==> f(s[i]) == g(t[i])
  {
    if s != [] {
      FlatMapPositional(f, g, s[1..], t[1..]);
      if FlatMap(f, s) == FlatMap(g, t) {
        assert f(s[0]) == FlatMap(f, s)[..|f(s[0])|] == FlatMap(g, t)[..|g(t[0])|] == g(t[0]);
        assert FlatMap(f, s[1..]) == FlatMap(f, s)[|f(s[0])|..] == FlatMap(g, t)[|g(t[0])|..] == FlatMap(g, t[1..]);
        forall i | 0 <= i < |s|
          ensures f(s[i]) == g(t[i])
        {
          assert i > 0 ==> s[i] == s[1..][i - 1] && t[i] == t[1..][i - 1];
        }
      }
    }
  }

  /** The elements of s satisfying p, in order. */
  function Filter<A(!new)>(p: A -> bool, s: seq<A>): (r: seq<A>)
    ensures forall x :: x in r <==> x in s && p(x)
  {
    if s == [] then []
    else if p(s[0]) then [s[0]] + Filter(p, s[1..])
    else Filter(p, s[1..])
  }

  /** Replacing an element by another the filter keeps replaces it in the filtered sequence. */
  lemma {:induction false} FilterReplace<A(!new)>(p: A -> bool, s: seq<A>, i: nat, b: A) returns (x: nat)
    requires i < |s| && p(s[i]) && p(b)
    ensures x < |Filter(p, s)| && Filter(p, s)[x] == s[i] && Filter(p, s[i := b]) == Filter(p, s)[x := b]
  {
    if i == 0 {
      x := 0;
      assert s[0 := b][1..] == s[1..];
    } else {
      x := FilterReplace(p, s[1..], i - 1, b);
      assert s[i := b][1..] == s[1..][i - 1 := b];
      if p(s[0]) {
        assert Filter(p, s) == [s[0]] + Filter(p, s[1..]);
        assert ([s[0]] + Filter(p, s[1..]))[x + 1 := b] == [s[0]] + Filter(p, s[1..])[x := b];
        x := x + 1;
      }
    }
  }

  /** Dropping elements that contribute nothing does not change a flat map. */
  lemma {:induction false} FlatMapFilter<A(!new), B>(f: A -> seq<B>, p: A -> bool, s: seq<A>)
    requires forall x :: x in s && !p(x) ==> f(x) == []
    ensures FlatMap(f, Filter(p, s)) == FlatMap(f, s)
  {
    if s != [] {
      var x, rest := s[0], s[1..];
      assert x in s && forall y :: y in rest ==> y in s;
      FlatMapFilter(f, p, rest);
      if p(x) {
        FlatMapCons(f, x, Filter(p, rest));
      }
    }
  }

  /** One copy of c for each element that p chooses. */
  lemma {:induction false} FlatMapChosen<A(!new), B>(f: A -> seq<B>, p: A -> bool, s: seq<A>, c: B)
    requires forall x :: x in s ==> f(x) == if p(x) then [c] else []
    ensures |FlatMap(f, s)| == |Filter(p, s)|
    ensures forall b :: b in FlatMap(f, s) ==> b == c
  {
    if s != [] {
      var x, rest := s[0], s[1..];
      assert x in s && forall y :: y in rest ==> y in s;
      FlatMapChosen(f, p, rest, c);
    }
  }

  function Reversed<A>(s: seq<A>): (r: seq<A>)
    ensures |r| == |s|
    ensures forall i :: 0 <= i < |s| ==> r[i] == s[|s| - 1 - i]
  {
    if s == [] then [] else Reversed(s[1..]) + [s[0]]
  }

  lemma ReversedConcat<A>(s: seq<A>, t: seq<A>)
    ensures Reversed(s + t) == Reversed(t) + Reversed(s)
  {
  }

  lemma ReversedTwice<A>(s: seq<A>)
    ensures Reversed(Reversed(s)) == s
  {
  }

  /** What every step of a trace carries on holds all along it. */
  lemma {:induction false} Carried<S>(holds: (int, S) -> bool, trace: seq<S>, n: nat)
    requires n < |trace| && holds(0, trace[0])
    requires forall i :: 0 <= i < |trace| - 1 && holds(i, trace[i]) ==> holds(i + 1, trace[i + 1])
    ensures holds(n, trace[n])
  {
    if n > 0 {
      Carried(holds, trace, n - 1);
      assert holds(n - 1 + 1, trace[n - 1 + 1]);
    }
  }
}
