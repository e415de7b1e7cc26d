/** The JavaScript `Array.prototype` methods that the query layer and the
    dashboard are built from (`filter`, `find`, `some`, `map`, `reduce`),
    over finite sequences, together with the facts about them that the
    rest of the model relies on. */
module JsArray {
  import opened Wrappers

  /** `s.filter(p)`: the elements of `s` that satisfy `p`, in their
      original order, each kept exactly as often as it occurs in `s`. */
  function Filter<T(!new)>(s: seq<T>, p: T -> bool): (r: seq<T>)
    ensures |r| <= |s|
    ensures forall x :: x in r <==> x in s && p(x)
  {
    if s == [] then []
    else if p(s[0]) then [s[0]] + Filter(s[1..], p)
    else Filter(s[1..], p)
  }

  /** `filter` on a sequence with a known first element. */
  lemma FilterCons<T(!new)>(x: T, s: seq<T>, p: T -> bool)
    ensures Filter([x] + s, p) == if p(x) then [x] + Filter(s, p) else Filter(s, p)
  {
    assert ([x] + s)[1..] == s;
  }

  /** `filter` keeps each passing value exactly as often as it occurs, and
      no failing value at all. */
  lemma {:induction false} FilterCounts<T(!new)>(s: seq<T>, p: T -> bool)
    ensures forall x :: multiset(Filter(s, p))[x] == if p(x) then multiset(s)[x] else 0
  {
    if s != [] {
      FilterCounts(s[1..], p);
      assert s == [s[0]] + s[1..];
    }
  }

  /** `r` is the elements of `s` at the positions `idx`, in that order. */
  ghost predicate Picks<T>(r: seq<T>, s: seq<T>, idx: seq<nat>) {
    && |idx| == |r|
    && forall k :: 0 <= k < |idx| ==> idx[k] < |s| && r[k] == s[idx[k]]
  }

  /** The positions in `idx` strictly increase. */
  ghost predicate Increasing(idx: seq<nat>) {
    forall k, l :: 0 <= k < l < |idx| ==> idx[k] < idx[l]
  }

  /** `idx` holds exactly the positions of `s` whose element satisfies `p`. */
  ghost predicate Covers<T>(s: seq<T>, p: T -> bool, idx: seq<nat>) {
    forall j :: 0 <= j < |s| ==> (j in idx <==> p(s[j]))
  }

  /** `idx` lists, in increasing order, exactly the positions of `s` whose
      element satisfies `p`, and `r` is the elements at those positions. */
  ghost predicate Selects<T>(r: seq<T>, s: seq<T>, p: T -> bool, idx: seq<nat>) {
    Picks(r, s, idx) && Increasing(idx) && Covers(s, p, idx)
  }

  /** Every position in `idx`, moved one place to the right. */
  function Shift(idx: seq<nat>): (r: seq<nat>)
    ensures |r| == |idx|
    ensures forall k {:trigger r[k]} :: 0 <= k < |idx| ==> r[k] == idx[k] + 1
  {
    if idx == [] then [] else [idx[0] + 1] + Shift(idx[1..])
  }

  /** The selection of `s` that `FilterSelects` builds from one of `s[1..]`. */
  function Extend<T>(s: seq<T>, p: T -> bool, idx': seq<nat>): seq<nat>
    requires s != []
  {
    if p(s[0]) then [0] + Shift(idx') else Shift(idx')
  }

  lemma ExtendPicks<T(!new)>(s: seq<T>, p: T -> bool, idx': seq<nat>)
    requires s != [] && Picks(Filter(s[1..], p), s[1..], idx')
    ensures Picks(Filter(s, p), s, Extend(s, p, idx'))
  {
    var idx, r, r' := Extend(s, p, idx'), Filter(s, p), Filter(s[1..], p);
    var d := if p(s[0]) then 1 else 0;
    assert r == if p(s[0]) then [s[0]] + r' else r';
    forall k | d <= k < |idx|
      ensures idx[k] < |s| && r[k] == s[idx[k]]
    {
      assert idx[k] == idx'[k - d] + 1 && r[k] == r'[k - d];
      assert r'[k - d] == s[1..][idx'[k - d]];
      assert s[1..][idx'[k - d]] == s[idx'[k - d] + 1];
    }
  }

  lemma ExtendIncreasing<T>(s: seq<T>, p: T -> bool, idx': seq<nat>)
    requires s != [] && Increasing(idx')
    ensures Increasing(Extend(s, p, idx'))
  {
    var idx := Extend(s, p, idx');
    var d := if p(s[0]) then 1 else 0;
    forall k, l | 0 <= k < l < |idx|
      ensures idx[k] < idx[l]
    {
      if k >= d {
        assert idx[k] == idx'[k - d] + 1 && idx[l] == idx'[l - d] + 1;
      } else {
        assert idx[l] == idx'[l - d] + 1;
      }
    }
  }

  lemma ExtendCovers<T>(s: seq<T>, p: T -> bool, idx': seq<nat>)
    requires s != [] && Covers(s[1..], p, idx')
    ensures Covers(s, p, Extend(s, p, idx'))
  {
    var idx, shifted := Extend(s, p, idx'), Shift(idx');
    forall j | 1 <= j < |s|
      ensures j in shifted <==> (j - 1) in idx'
    {
      if j in shifted {
        var k :| 0 <= k < |shifted| && shifted[k] == j;
        assert idx'[k] == j - 1;
      }
      if (j - 1) in idx' {
        var k :| 0 <= k < |idx'| && idx'[k] == j - 1;
        assert shifted[k] == j;
      }
    }
    assert 0 !in shifted;
    forall j | 0 <= j < |s|
      ensures j in idx <==> p(s[j])
    {
      if j > 0 {
        assert s[1..][j - 1] == s[j];
      }
    }
  }

  /** `filter` is an order-preserving selection: it keeps exactly the
      positions whose element passes, and never reorders them. */
  lemma {:induction false} FilterSelects<T(!new)>(s: seq<T>, p: T -> bool) returns (idx: seq<nat>)
    ensures Selects(Filter(s, p), s, p, idx)
  {
    if s == [] {
      idx := [];
    } else {
      var idx' := FilterSelects(s[1..], p);
      idx := Extend(s, p, idx');
      ExtendPicks(s, p, idx');
      ExtendIncreasing(s, p, idx');
      ExtendCovers(s, p, idx');
    }
  }

  /** Filtering by `p` then `q` is filtering by their conjunction. */
  lemma {:induction false} FilterConjunction<T(!new)>(s: seq<T>, p: T -> bool, q: T -> bool, pq: T -> bool)
    requires forall x :: pq(x) == (p(x) && q(x))
    ensures Filter(Filter(s, p), q) == Filter(s, pq)
  {
    if s != [] {
      FilterConjunction(s[1..], p, q, pq);
      if p(s[0]) {
        assert Filter(s, p) == [s[0]] + Filter(s[1..], p);
        assert (Filter(s, p))[1..] == Filter(s[1..], p);
      }
    }
  }

  /** The order in which two filters are applied does not matter. */
  lemma {:induction false} FilterCommutes<T(!new)>(s: seq<T>, p: T -> bool, q: T -> bool)
    ensures Filter(Filter(s, p), q) == Filter(Filter(s, q), p)
  {
    if s != [] {
      FilterCommutes(s[1..], p, q);
      if p(s[0]) {
        assert (Filter(s, p))[1..] == Filter(s[1..], p);
      }
      if q(s[0]) {
        assert (Filter(s, q))[1..] == Filter(s[1..], q);
      }
    }
  }

  /** Two predicates that agree on every element of `s` filter it alike. */
  lemma {:induction false} FilterExtensional<T(!new)>(s: seq<T>, p: T -> bool, q: T -> bool)
    requires forall x :: x in s ==> p(x) == q(x)
    ensures Filter(s, p) == Filter(s, q)
  {
    if s != [] {
      assert forall x :: x in s[1..] ==> x in s;
      FilterExtensional(s[1..], p, q);
    }
  }

  /** A filter keeps the whole sequence exactly when every element passes,
      and that is also exactly when it keeps the length. */
  lemma {:induction false} FilterKeepsAll<T(!new)>(s: seq<T>, p: T -> bool)
    ensures (forall i :: 0 <= i < |s| ==> p(s[i])) <==> Filter(s, p) == s
    ensures Filter(s, p) == s <==> |Filter(s, p)| == |s|
  {
    if s != [] {
      FilterKeepsAll(s[1..], p);
      if forall i :: 0 <= i < |s| ==> p(s[i]) {
        assert forall i :: 0 <= i < |s[1..]| ==> p(s[1..][i]) by {
          forall i | 0 <= i < |s[1..]| ensures p(s[1..][i]) { assert s[1..][i] == s[i + 1]; }
        }
      } else {
        var i :| 0 <= i < |s| && !p(s[i]);
        assert s[i] in s && s[i] !in Filter(s, p);
      }
    }
  }

  /** `filter` over a sequence with a known last element. */
  lemma {:induction false} FilterSnoc<T(!new)>(s: seq<T>, x: T, p: T -> bool)
    ensures Filter(s + [x], p) == Filter(s, p) + (if p(x) then [x] else [])
  {
    if s == [] {
      assert s + [x] == [x];
      assert Filter([x][1..], p) == [];
    } else {
      FilterSnoc(s[1..], x, p);
      assert (s + [x])[0] == s[0] && (s + [x])[1..] == s[1..] + [x];
    }
  }

  /** The positions of `s` whose element satisfies `p`. */
  ghost function Positions<T>(s: seq<T>, p: T -> bool): set<int> {
    set i | 0 <= i < |s| && p(s[i])
  }

  /** The positions of `s + [x]` are those of `s`, and the last one when
      `x` passes. */
  lemma PositionsSnoc<T>(s: seq<T>, x: T, p: T -> bool)
    ensures Positions(s + [x], p) == Positions(s, p) + (if p(x) then {|s|} else {})
  {
    var t := s + [x];
    forall i | 0 <= i < |s|
      ensures t[i] == s[i]
    {
    }
    assert t[|s|] == x;
  }

  /** `s.filter(p).length` is the number of positions whose element passes. */
  lemma {:induction false} FilterLengthCounts<T(!new)>(s: seq<T>, p: T -> bool)
    ensures |Filter(s, p)| == |Positions(s, p)|
  {
    if s != [] {
      var s', x := s[..|s| - 1], s[|s| - 1];
      assert s == s' + [x];
      FilterLengthCounts(s', p);
      FilterSnoc(s', x, p);
      PositionsSnoc(s', x, p);
      assert |s'| !in Positions(s', p);
    }
  }

  /** The position of the element `s.find(p)` returns: the first one that
      satisfies `p`, or `None` when none does. */
  function FirstIndex<T>(s: seq<T>, p: T -> bool): (r: Option<nat>)
    ensures r.Some? ==> r.value < |s| && p(s[r.value]) && forall j :: 0 <= j < r.value ==> !p(s[j])
    ensures r.None? ==> forall j :: 0 <= j < |s| ==> !p(s[j])
  {
    if s == [] then None
    else if p(s[0]) then Some(0)
    else match FirstIndex(s[1..], p)
      case None => None
      case Some(i) => assert s[i + 1] == s[1..][i]; Some(i + 1)
  }

  /** `s.find(p)`: the first element satisfying `p`, or `undefined`. */
  function Find<T>(s: seq<T>, p: T -> bool): (r: Option<T>)
    ensures r.None? <==> FirstIndex(s, p).None?
    ensures r.Some? ==> r.value == s[FirstIndex(s, p).value]
  {
    if s == [] then None
    else if p(s[0]) then Some(s[0])
    else Find(s[1..], p)
  }

  /** `s.some(p)`. */
  function Any<T>(s: seq<T>, p: T -> bool): (r: bool)
    ensures r <==> exists i :: 0 <= i < |s| && p(s[i])
  {
    if s == [] then false
    else p(s[0]) || (assert forall i :: 0 < i < |s| ==> s[i] == s[1..][i - 1]; Any(s[1..], p))
  }

  /** `s.map(f)`: one result per element, in the same order. */
  function Map<T, U>(s: seq<T>, f: T -> U): (r: seq<U>)
    ensures |r| == |s|
    ensures forall i :: 0 <= i < |s| ==> r[i] == f(s[i])
  {
    if s == [] then [] else [f(s[0])] + Map(s[1..], f)
  }

  /** `s.reduce(f, acc)`: a left fold starting from `acc`. */
  function Reduce<T, A>(s: seq<T>, f: (A, T) -> A, acc: A): A
  {
    if s == [] then acc else Reduce(s[1..], f, f(acc, s[0]))
  }
}
