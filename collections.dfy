/** Order-preserving filtering, the shape of every `Array.prototype.filter`
    and list comprehension with a condition in the modelled code. */
module Collections {
  import opened Wrappers

  function Filter<T>(p: T -> bool, s: seq<T>): (r: seq<T>)
    ensures |r| <= |s|
  {
    if s == [] then [] else (if p(s[0]) then [s[0]] else []) + Filter(p, s[1..])
  }

  lemma FilterCons<T>(p: T -> bool, x: T, s: seq<T>)
    ensures Filter(p, [x] + s) == (if p(x) then [x] else []) + Filter(p, s)
  {
    assert ([x] + s)[1..] == s;
  }

  lemma FilterHead<T>(p: T -> bool, s: seq<T>)
    requires s != []
    ensures Filter(p, s) == (if p(s[0]) then [s[0]] else []) + Filter(p, s[1..])
  {
  }

  lemma ConcatAssoc<T>(a: seq<T>, b: seq<T>, c: seq<T>)
    ensures a + (b + c) == (a + b) + c
  {
  }

  /** Scanning a filter one element at a time: after moving the head of
      `rest` into the kept prefix (when it passes), prefix and remaining
      filter still make up the whole result. */
  lemma FilterStep<T>(p: T -> bool, before: seq<T>, after: seq<T>, rest: seq<T>, all: seq<T>)
    requires rest != []
    requires before + Filter(p, rest) == all
    requires after == before + (if p(rest[0]) then [rest[0]] else [])
    ensures after + Filter(p, rest[1..]) == all
  {
    FilterHead(p, rest);
    ConcatAssoc(before, if p(rest[0]) then [rest[0]] else [], Filter(p, rest[1..]));
  }

  /** An element is kept exactly when it is in the input and passes. */
  lemma {:induction false} FilterMembership<T>(p: T -> bool, s: seq<T>, x: T)
    ensures x in Filter(p, s) <==> x in s && p(x)
  {
    if s != [] {
      FilterMembership(p, s[1..], x);
      assert s == [s[0]] + s[1..];
    }
  }

  /** Two tests that agree on every element filter alike. */
  lemma {:induction false} FilterExt<T>(p: T -> bool, q: T -> bool, s: seq<T>)
    requires forall x :: p(x) == q(x)
    ensures Filter(p, s) == Filter(q, s)
  {
    if s != [] {
      FilterExt(p, q, s[1..]);
    }
  }

  /** A test every element passes keeps the whole sequence. */
  lemma {:induction false} FilterAll<T>(p: T -> bool, s: seq<T>)
    requires forall x :: p(x)
    ensures Filter(p, s) == s
  {
    if s != [] {
      FilterAll(p, s[1..]);
      assert s == [s[0]] + s[1..];
    }
  }

  /** Filtering by `p` and then by `q` is filtering once by `p && q`: the
      kept elements, their order and their repetitions are the same. */
  lemma {:induction false} FilterCompose<T>(p: T -> bool, q: T -> bool, pq: T -> bool, s: seq<T>)
    requires forall x :: pq(x) == (p(x) && q(x))
    ensures Filter(q, Filter(p, s)) == Filter(pq, s)
  {
    if s != [] {
      FilterCompose(p, q, pq, s[1..]);
      var rest := Filter(p, s[1..]);
      if p(s[0]) {
        assert Filter(p, s) == [s[0]] + rest;
        FilterCons(q, s[0], rest);
      } else {
        assert Filter(p, s) == rest;
      }
    }
  }

  /** Every kept element passes. */
  lemma FilterPasses<T>(p: T -> bool, s: seq<T>)
    ensures forall i :: 0 <= i < |Filter(p, s)| ==> p(Filter(p, s)[i])
  {
    forall i | 0 <= i < |Filter(p, s)| ensures p(Filter(p, s)[i]) {
      FilterMembership(p, s, Filter(p, s)[i]);
    }
  }

  /** `sub` is `s` with some elements dropped and the rest in their order. */
  ghost predicate IsSubsequence<T>(sub: seq<T>, s: seq<T>)
  {
    sub == [] ||
    (s != [] &&
     ((sub[0] == s[0] && IsSubsequence(sub[1..], s[1..])) || IsSubsequence(sub, s[1..])))
  }

  lemma {:induction false} SubsequenceRefl<T>(s: seq<T>)
    ensures IsSubsequence(s, s)
  {
    if s != [] { SubsequenceRefl(s[1..]); }
  }

  lemma {:induction false} SubsequenceTrans<T>(a: seq<T>, b: seq<T>, c: seq<T>)
    requires IsSubsequence(a, b) && IsSubsequence(b, c)
    ensures IsSubsequence(a, c)
    decreases |c|
  {
    if a == [] {
    } else if IsSubsequence(b, c[1..]) {
      SubsequenceTrans(a, b, c[1..]);
    } else if a[0] == b[0] && IsSubsequence(a[1..], b[1..]) {
      SubsequenceTrans(a[1..], b[1..], c[1..]);
    } else {
      SubsequenceTrans(a, b[1..], c[1..]);
    }
  }

  lemma {:induction false} FilterIsSubsequence<T>(p: T -> bool, s: seq<T>)
    ensures IsSubsequence(Filter(p, s), s)
  {
    if s != [] {
      FilterIsSubsequence(p, s[1..]);
      if p(s[0]) {
        assert Filter(p, s) == [s[0]] + Filter(p, s[1..]);
        assert Filter(p, s)[1..] == Filter(p, s[1..]);
      } else {
        assert Filter(p, s) == Filter(p, s[1..]);
      }
    }
  }

  /** The elements of `s` are strictly increasing under `rank`. */
  ghost predicate StrictlyIncreasing<T>(s: seq<T>, rank: T -> int)
  {
    forall i, j :: 0 <= i < j < |s| ==> rank(s[i]) < rank(s[j])
  }

  /** The tail of an increasing sequence is increasing and lies above the
      head. */
  lemma IncreasingTail<T>(s: seq<T>, rank: T -> int)
    requires s != [] && StrictlyIncreasing(s, rank)
    ensures StrictlyIncreasing(s[1..], rank)
    ensures forall x :: x in s[1..] ==> rank(s[0]) < rank(x)
  {
    var tail := s[1..];
    forall i, j | 0 <= i < j < |tail| ensures rank(tail[i]) < rank(tail[j]) {
      assert tail[i] == s[i + 1] && tail[j] == s[j + 1];
    }
    forall x | x in tail ensures rank(s[0]) < rank(x) {
      var j :| 0 <= j < |tail| && tail[j] == x;
      assert s[j + 1] == x;
    }
  }

  /** An element below every element of an increasing sequence extends it
      at the front. */
  lemma IncreasingCons<T>(x: T, rest: seq<T>, rank: T -> int)
    requires StrictlyIncreasing(rest, rank)
    requires forall y :: y in rest ==> rank(x) < rank(y)
    ensures StrictlyIncreasing([x] + rest, rank)
  {
    var f := [x] + rest;
    forall i, j | 0 <= i < j < |f| ensures rank(f[i]) < rank(f[j]) {
      assert f[j] == rest[j - 1];
      if i > 0 { assert f[i] == rest[i - 1]; }
    }
  }

  /** Filtering keeps a strictly increasing order (so it also keeps elements
      distinct). */
  lemma {:induction false} FilterKeepsIncreasing<T>(p: T -> bool, s: seq<T>, rank: T -> int)
    requires StrictlyIncreasing(s, rank)
    ensures StrictlyIncreasing(Filter(p, s), rank)
  {
    if s != [] {
      var tail := s[1..];
      IncreasingTail(s, rank);
      FilterKeepsIncreasing(p, tail, rank);
      var rest := Filter(p, tail);
      if p(s[0]) {
        forall y | y in rest ensures rank(s[0]) < rank(y) {
          FilterMembership(p, tail, y);
        }
        IncreasingCons(s[0], rest, rank);
        assert Filter(p, s) == [s[0]] + rest;
      } else {
        assert Filter(p, s) == rest;
      }
    }
  }

  /** `s.map(f)` where `f` may throw (`None`): the whole map throws as soon
      as one element does. */
  function MapAll<A, B>(f: A -> Option<B>, s: seq<A>): (r: Option<seq<B>>)
    ensures r.Some? <==> forall i :: 0 <= i < |s| ==> f(s[i]).Some?
    ensures r.Some? ==> |r.value| == |s|
    ensures r.Some? ==> forall i :: 0 <= i < |s| ==> r.value[i] == f(s[i]).value
  {
    if s == [] then Some([])
    else
      var head := f(s[0]);
      var tail := MapAll(f, s[1..]);
      if head.None? then None
      else if tail.None? then
        assert exists i :: 1 <= i < |s| && f(s[i]).None? by {
          var j :| 0 <= j < |s[1..]| && f(s[1..][j]).None?;
          assert s[j + 1] == s[1..][j];
        }
        None
      else Some([head.value] + tail.value)
  }
}
