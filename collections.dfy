/**
 * The two operations of the .NET collections that the event view model relies
 * on, stated over sequences:
 *  - `Enumerable.Any` with a predicate, a left-to-right scan that stops at the
 *    first element satisfying it;
 *  - `ICollection<T>.Remove`, which deletes the first occurrence of an element
 *    (if any) and reports whether it found one.
 */
module Collections {

  /** `source.Any(test)`: scans from the front and stops at the first hit. */
  method Any<T>(source: seq<T>, test: T -> bool) returns (found: bool)
    ensures found <==> exists k :: 0 <= k < |source| && test(source[k])
  {
    found := false;
    var i := 0;
    while i < |source| && !found
      invariant 0 <= i <= |source|
      invariant found ==> i >= 1 && test(source[i - 1])
      invariant !found ==> forall k :: 0 <= k < i ==> !test(source[k])
    {
      found := test(source[i]);
      i := i + 1;
    }
  }

  /** The collection after `Remove(x)`: the first occurrence of `x` is deleted. */
  function RemoveFirst<T(==)>(s: seq<T>, x: T): (r: seq<T>)
    ensures x !in s ==> r == s
    ensures x in s ==> |r| == |s| - 1
    ensures multiset(r) == multiset(s) - multiset{x}
  {
    if s == [] then []
    else
      assert s == [s[0]] + s[1..];
      if s[0] == x then s[1..]
      else [s[0]] + RemoveFirst(s[1..], x)
  }

  /** What is deleted is exactly the first occurrence; the rest keeps its order. */
  lemma {:induction false} RemoveFirstDeletesFirstOccurrence<T>(s: seq<T>, x: T, i: nat)
    requires i < |s| && s[i] == x && x !in s[..i]
    ensures RemoveFirst(s, x) == s[..i] + s[i + 1..]
  {
    if i > 0 {
      var t := s[1..];
      assert s[0] in s[..i];
      var prefix, tailPrefix := s[..i], t[..i - 1];
      assert forall k :: 0 <= k < i - 1 ==> tailPrefix[k] == prefix[k + 1];
      assert tailPrefix <= prefix[1..];
      RemoveFirstDeletesFirstOccurrence(t, x, i - 1);
      SplitAfterHead(s, i);
    }
  }

  /** Cutting out position `i > 0` of `s` is keeping the head and cutting `i - 1` out of the tail. */
  lemma SplitAfterHead<T>(s: seq<T>, i: nat)
    requires 0 < i < |s|
    ensures s[..i] + s[i + 1..] == [s[0]] + (s[1..][..i - 1] + s[1..][i..])
  {
  }

  /** Removing an element that was just appended to a sequence lacking it undoes the append. */
  lemma {:induction false} RemoveFirstUndoesAppend<T>(s: seq<T>, x: T)
    requires x !in s
    ensures RemoveFirst(s + [x], x) == s
  {
    RemoveFirstDeletesFirstOccurrence(s + [x], x, |s|);
    assert (s + [x])[..|s|] == s;
  }
}
