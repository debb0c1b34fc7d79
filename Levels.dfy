/** The distinct values of a sequence in ascending order, as the heat map
    takes them for its axes, and the fact that a strictly ascending sequence
    is determined by the values it holds. */
module Levels {

  /** `lt` is a strict total order. */
  ghost predicate StrictOrder<T(!new)>(lt: (T, T) -> bool) {
    && (forall x :: !lt(x, x))
    && (forall x, y, z :: lt(x, y) && lt(y, z) ==> lt(x, z))
    && (forall x, y :: lt(x, y) || x == y || lt(y, x))
  }

  ghost predicate StrictlySorted<T>(s: seq<T>, lt: (T, T) -> bool) {
    forall i, j :: 0 <= i < j < |s| ==> lt(s[i], s[j])
  }

  function RealLess(x: real, y: real): bool { x < y }

  function IntLess(x: int, y: int): bool { x < y }

  lemma RealLessIsStrict()
    ensures StrictOrder(RealLess)
  {
  }

  lemma IntLessIsStrict()
    ensures StrictOrder(IntLess)
  {
  }

  /** Adding `x` to a strictly ascending sequence, unless it is there. */
  function Insert<T(==, !new)>(s: seq<T>, x: T, lt: (T, T) -> bool): (r: seq<T>)
    requires StrictOrder(lt) && StrictlySorted(s, lt)
    ensures StrictlySorted(r, lt)
    ensures forall y :: y in r <==> y in s || y == x
  {
    if s == [] then [x]
    else if lt(x, s[0]) then [x] + s
    else if x == s[0] then s
    else
      var t := Insert(s[1..], x, lt);
      HeadBelowTail(s, lt);
      assert forall k :: 0 <= k < |t| ==> t[k] in t;
      [s[0]] + t
  }

  /** The head of a strictly ascending sequence is below every value of its
      tail. */
  lemma HeadBelowTail<T(!new)>(s: seq<T>, lt: (T, T) -> bool)
    requires StrictlySorted(s, lt) && |s| > 0
    ensures forall y :: y in s[1..] ==> lt(s[0], y)
  {
    forall y | y in s[1..]
      ensures lt(s[0], y)
    {
      var k :| 0 <= k < |s| - 1 && s[1..][k] == y;
      assert s[k + 1] == y;
    }
  }

  /** The distinct values of `s`, ascending. */
  function SortedDistinct<T(==, !new)>(s: seq<T>, lt: (T, T) -> bool): (r: seq<T>)
    requires StrictOrder(lt)
    ensures StrictlySorted(r, lt)
    ensures forall y :: y in r <==> y in s
  {
    if s == [] then [] else Insert(SortedDistinct(s[..|s| - 1], lt), s[|s| - 1], lt)
  }

  /** Two strictly ascending sequences holding the same values are equal. */
  lemma {:induction false} SortedUnique<T(!new)>(a: seq<T>, b: seq<T>, lt: (T, T) -> bool)
    requires StrictOrder(lt) && StrictlySorted(a, lt) && StrictlySorted(b, lt)
    requires forall y :: y in a <==> y in b
    ensures a == b
    decreases |a|
  {
    if |a| == 0 || |b| == 0 {
      EmptyWhenNoMembers(a);
      EmptyWhenNoMembers(b);
    } else {
      HeadIsLeast(a, b[0], lt);
      HeadIsLeast(b, a[0], lt);
      assert a[0] == b[0];
      forall y
        ensures y in a[1..] <==> y in b[1..]
      {
        TailMembers(a, y, lt);
        TailMembers(b, y, lt);
      }
      SortedUnique(a[1..], b[1..], lt);
    }
  }

  /** A sequence is empty exactly when nothing is in it. */
  lemma EmptyWhenNoMembers<T>(s: seq<T>)
    ensures s == [] <==> forall y :: y !in s
  {
    if s != [] {
      assert s[0] in s;
    }
  }

  /** No value of a strictly ascending sequence is below its head. */
  lemma HeadIsLeast<T(!new)>(s: seq<T>, y: T, lt: (T, T) -> bool)
    requires StrictOrder(lt) && StrictlySorted(s, lt) && y in s
    ensures !lt(y, s[0])
  {
    var k :| 0 <= k < |s| && s[k] == y;
    if k > 0 {
      assert lt(s[0], s[k]);
    }
  }

  /** The tail of a strictly ascending sequence holds exactly its values
      other than the head. */
  lemma TailMembers<T(!new)>(s: seq<T>, y: T, lt: (T, T) -> bool)
    requires StrictOrder(lt) && StrictlySorted(s, lt) && |s| > 0
    ensures y in s[1..] <==> y in s && y != s[0]
  {
    if y in s[1..] {
      var k :| 0 <= k < |s| - 1 && s[1..][k] == y;
      assert lt(s[0], s[k + 1]);
    }
    if y in s && y != s[0] {
      var k :| 0 <= k < |s| && s[k] == y;
      assert s[1..][k - 1] == y;
    }
  }

  /** The values of a sequence, as a set. */
  function Elements<T>(s: seq<T>): set<T> {
    set x | x in s
  }

  /** A sequence has at most as many distinct values as it has positions. */
  lemma {:induction false} ElementsAtMostLength<T>(s: seq<T>)
    ensures |Elements(s)| <= |s|
  {
    if s != [] {
      assert Elements(s) == Elements(s[1..]) + {s[0]};
      ElementsAtMostLength(s[1..]);
    }
  }

  /** A strictly ascending sequence has as many distinct values as positions. */
  lemma {:induction false} SortedElementsCount<T(!new)>(s: seq<T>, lt: (T, T) -> bool)
    requires StrictOrder(lt) && StrictlySorted(s, lt)
    ensures |Elements(s)| == |s|
  {
    if s != [] {
      assert Elements(s) == Elements(s[1..]) + {s[0]};
      HeadBelowTail(s, lt);
      assert s[0] !in Elements(s[1..]);
      assert StrictlySorted(s[1..], lt);
      SortedElementsCount(s[1..], lt);
    }
  }

  /** A subset has at most as many elements as its superset. */
  lemma {:induction false} SubsetSize<T>(a: set<T>, b: set<T>)
    requires a <= b
    ensures |a| <= |b|
    decreases |a|
  {
    if a != {} {
      var x :| x in a;
      SubsetSize(a - {x}, b - {x});
    }
  }

  /** A strictly ascending sequence whose values all occur in `t` is no longer
      than `t`. */
  lemma SortedNoLongerThan<T(!new)>(s: seq<T>, t: seq<T>, lt: (T, T) -> bool)
    requires StrictOrder(lt) && StrictlySorted(s, lt)
    requires forall y :: y in s ==> y in t
    ensures |s| <= |t|
  {
    SortedElementsCount(s, lt);
    SubsetSize(Elements(s), Elements(t));
    ElementsAtMostLength(t);
  }
}

