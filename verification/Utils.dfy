/** Set differences between ordered lists, after `internal/utils/utils.go`. */
module Utils {

  function Elements<T>(s: seq<T>): set<T> {
    set x | x in s
  }

  /** What is in `left` but not in `right`, in the order of `left`, duplicates kept. */
  function Diff<T(==)>(left: seq<T>, right: seq<T>): seq<T> {
    if left == [] then []
    else (if left[0] in right then [] else [left[0]]) + Diff(left[1..], right)
  }

  lemma {:induction false} DiffAppend<T>(a: seq<T>, b: seq<T>, right: seq<T>)
    ensures Diff(a + b, right) == Diff(a, right) + Diff(b, right)
  {
    if a == [] {
      assert a + b == b;
    } else {
      assert (a + b)[1..] == a[1..] + b;
      DiffAppend(a[1..], b, right);
    }
  }

  lemma {:induction false} DiffElements<T>(left: seq<T>, right: seq<T>)
    ensures Elements(Diff(left, right)) == Elements(left) - Elements(right)
  {
    if left == [] {
    } else {
      DiffElements(left[1..], right);
      var head := if left[0] in right then [] else [left[0]];
      assert Elements(left) == {left[0]} + Elements(left[1..]);
      assert Elements(head + Diff(left[1..], right)) == Elements(head) + Elements(Diff(left[1..], right));
    }
  }

  /** Every element keeps all its copies, or none: multiplicity is that of the filtered list. */
  lemma {:induction false} DiffMultiplicity<T>(left: seq<T>, right: seq<T>, x: T)
    ensures multiset(Diff(left, right))[x] == if x in right then 0 else multiset(left)[x]
  {
    if left == [] {
    } else {
      DiffMultiplicity(left[1..], right, x);
      assert left == [left[0]] + left[1..];
    }
  }

  ghost predicate Subsequence<T>(sub: seq<T>, s: seq<T>, at: seq<nat>) {
    && |at| == |sub|
    && (forall i, j | 0 <= i < j < |at| :: at[i] < at[j])
    && (forall i | 0 <= i < |at| :: at[i] < |s| && sub[i] == s[at[i]])
  }

  lemma SubsequenceSkips<T>(sub: seq<T>, s: seq<T>, at: seq<nat>)
    requires s != [] && Subsequence(sub, s[1..], at)
    ensures Subsequence(sub, s, seq(|at|, i requires 0 <= i < |at| => at[i] + 1))
  {
  }

  lemma SubsequenceTakes<T>(sub: seq<T>, s: seq<T>, at: seq<nat>)
    requires s != [] && Subsequence(sub, s[1..], at)
    ensures Subsequence([s[0]] + sub, s, [0] + seq(|at|, i requires 0 <= i < |at| => at[i] + 1))
  {
    var at' := [0] + seq(|at|, i requires 0 <= i < |at| => at[i] + 1);
    forall i | 0 <= i < |at'|
      ensures at'[i] < |s| && ([s[0]] + sub)[i] == s[at'[i]]
    {
      if i > 0 {
        assert sub[i - 1] == s[1..][at[i - 1]];
      }
    }
  }

  /** The difference is an order-preserving subsequence of `left`; the witness lists the positions kept. */
  lemma {:induction false} DiffIsSubsequence<T>(left: seq<T>, right: seq<T>) returns (at: seq<nat>)
    ensures Subsequence(Diff(left, right), left, at)
  {
    if left == [] {
      at := [];
    } else {
      var rest := DiffIsSubsequence(left[1..], right);
      var shifted := seq(|rest|, i requires 0 <= i < |rest| => rest[i] + 1);
      if left[0] in right {
        SubsequenceSkips(Diff(left[1..], right), left, rest);
        assert Diff(left, right) == Diff(left[1..], right);
        at := shifted;
      } else {
        SubsequenceTakes(Diff(left[1..], right), left, rest);
        at := [0] + shifted;
      }
    }
  }

  lemma {:induction false} DiffOfNothing<T>(left: seq<T>)
    ensures Diff(left, []) == left
  {
    if left == [] {
    } else {
      DiffOfNothing(left[1..]);
    }
  }

  method InLeftButNotInRight<T(==)>(left: seq<T>, right: seq<T>) returns (diff: seq<T>)
    ensures diff == Diff(left, right)
    ensures Elements(diff) == Elements(left) - Elements(right)
  {
    DiffElements(left, right);
    if |left| == 0 {
      return [];
    }
    if |right| == 0 {
      DiffOfNothing(left);
      return left;
    }
    var m: set<T> := {};
    for i := 0 to |right|
      invariant m == Elements(right[..i])
    {
      m := m + {right[i]};
    }
    assert right[..|right|] == right;
    diff := [];
    for i := 0 to |left|
      invariant diff == Diff(left[..i], right)
    {
      DiffAppend(left[..i], [left[i]], right);
      assert left[..i + 1] == left[..i] + [left[i]];
      if left[i] !in m {
        diff := diff + [left[i]];
      }
    }
    assert left[..|left|] == left;
  }
}
