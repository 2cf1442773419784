/** Sequences used as keyed collections: distinct elements and the position of an
    element. The element type is left generic so that equality stays that of the
    elements, whatever they are. */
module Seqs {
  import opened Wrappers

  /** Positions `i` and `j` hold different elements. Naming the comparison makes
      `Distinct` speak about one pair of positions at a time, the pair a proof
      mentions, instead of every pair of positions in sight. */
  predicate Apart<T(==)>(s: seq<T>, i: nat, j: nat)
    requires i < |s| && j < |s|
  {
    s[i] != s[j]
  }

  /** No element occurs twice. */
  predicate Distinct<T(==)>(s: seq<T>) {
    forall i, j | 0 <= i < j < |s| :: Apart(s, i, j)
  }

  /** The position of the first occurrence of `x`, if any. */
  function IndexOf<T(==)>(s: seq<T>, x: T): (r: Option<nat>)
    ensures r.Some? ==> r.value < |s| && s[r.value] == x && forall j | 0 <= j < r.value :: s[j] != x
    ensures r.None? <==> x !in s
  {
    if |s| == 0 then None
    else if s[0] == x then Some(0)
    else match IndexOf(s[1..], x)
      case None => None
      case Some(k) => Some(k + 1)
  }

  /** Any two positions of a sequence without repetitions hold different elements. */
  lemma DistinctAt<T>(s: seq<T>, i: nat, j: nat)
    requires Distinct(s) && i < |s| && j < |s| && i != j
    ensures s[i] != s[j]
  {
    if i < j {
      assert Apart(s, i, j);
    } else {
      assert Apart(s, j, i);
    }
  }

  /** Dropping the first element keeps the others distinct. */
  lemma DistinctTail<T>(s: seq<T>)
    requires Distinct(s) && |s| > 0
    ensures Distinct(s[1..])
  {
    var t := s[1..];
    forall i, j | 0 <= i < j < |t| ensures Apart(t, i, j) {
      assert Apart(s, i + 1, j + 1);
    }
  }

  /** Dropping the last element keeps the others distinct, none of them equal to it. */
  lemma DistinctFront<T>(s: seq<T>)
    requires Distinct(s) && |s| > 0
    ensures Distinct(s[..|s| - 1]) && s[|s| - 1] !in s[..|s| - 1]
  {
    var t := s[..|s| - 1];
    forall i, j | 0 <= i < j < |t| ensures Apart(t, i, j) {
      assert Apart(s, i, j);
    }
    forall i | 0 <= i < |t| ensures t[i] != s[|s| - 1] {
      assert Apart(s, i, |s| - 1);
    }
  }

  /** In a sequence without repetitions, the position of an element is its index. */
  lemma IndexOfDistinct<T>(s: seq<T>, i: nat)
    requires Distinct(s) && i < |s|
    ensures IndexOf(s, s[i]) == Some(i)
  {
    forall k | 0 <= k < |s| && k != i ensures s[k] != s[i] {
      DistinctAt(s, k, i);
    }
  }

  /** Appending an element leaves the positions of the others where they were. */
  lemma {:induction false} IndexOfAppend<T>(s: seq<T>, x: T, y: T)
    ensures IndexOf(s + [x], y) == if y in s then IndexOf(s, y) else if y == x then Some(|s|) else None
  {
    if |s| > 0 {
      assert (s + [x])[0] == s[0];
      assert (s + [x])[1..] == s[1..] + [x];
      assert y in s <==> y == s[0] || y in s[1..];
      IndexOfAppend(s[1..], x, y);
    }
  }

  /** Appending a new element keeps the elements distinct. */
  lemma DistinctAppend<T>(s: seq<T>, x: T)
    requires Distinct(s) && x !in s
    ensures Distinct(s + [x])
  {
    var t := s + [x];
    forall i, j | 0 <= i < j < |t| ensures Apart(t, i, j) {
      if j < |s| {
        assert Apart(s, i, j);
      } else {
        assert t[i] == s[i];
      }
    }
  }
}
