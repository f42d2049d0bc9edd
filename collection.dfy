/**
 * The behaviour of the comment collection of a blog post, as a sequence.
 *
 * The post keeps its comments in an insertion-ordered collection that
 * compares elements by identity. Only three of its operations are used:
 * `contains` (membership), appending (`$comments[] = $c`) and
 * `removeElement`, which looks up the FIRST position holding the element,
 * drops that one entry and reports whether it found one. The remaining
 * entries keep their order.
 */
module Collection {

  /** No element occurs twice. */
  predicate NoDuplicates<T(==)>(s: seq<T>)
  {
    forall i, j :: 0 <= i < j < |s| ==> s[i] != s[j]
  }

  /** The first position of `x` in `s` (the search `removeElement` does). */
  function IndexOf<T(==)>(s: seq<T>, x: T): (i: nat)
    requires x in s
    ensures i < |s| && s[i] == x
    ensures forall j :: 0 <= j < i ==> s[j] != x
  {
    if s[0] == x then 0 else 1 + IndexOf(s[1..], x)
  }

  /**
   * The collection after the duplicate-guarded append of `addComment`:
   * `x` is appended only when it is not already there.
   */
  function AddIfAbsent<T(==)>(s: seq<T>, x: T): (r: seq<T>)
    ensures x in r
    ensures |r| == if x in s then |s| else |s| + 1
    ensures r[..|s|] == s
    ensures |r| > |s| ==> r[|s|] == x
    ensures NoDuplicates(s) ==> NoDuplicates(r)
  {
    if x in s then s else s + [x]
  }

  /** Adding the same element again changes nothing. */
  lemma AddIfAbsentIdempotent<T>(s: seq<T>, x: T)
    ensures AddIfAbsent(AddIfAbsent(s, x), x) == AddIfAbsent(s, x)
  {
  }

  /**
   * The collection after `removeElement(x)`: its first occurrence is
   * dropped, everything else stays in place.
   */
  function RemoveFirst<T(==)>(s: seq<T>, x: T): (r: seq<T>)
    ensures x !in s ==> r == s
    ensures x in s ==> |r| == |s| - 1
    ensures multiset(r) == multiset(s) - multiset{x}
  {
    if s == [] then []
    else if s[0] == x then
      assert s == [x] + s[1..];
      s[1..]
    else
      assert s == [s[0]] + s[1..];
      [s[0]] + RemoveFirst(s[1..], x)
  }

  /**
   * `removeElement` searches for the first position holding `x` and unsets
   * it: RemoveFirst is that same collection.
   */
  lemma {:induction false} RemoveFirstAtIndex<T>(s: seq<T>, x: T)
    requires x in s
    ensures RemoveFirst(s, x) == s[..IndexOf(s, x)] + s[IndexOf(s, x) + 1..]
  {
    if s[0] != x {
      var t := s[1..];
      assert x in t;
      RemoveFirstAtIndex(t, x);
      var k := IndexOf(t, x);
      assert IndexOf(s, x) == k + 1;
      DropInTail(s, k);
    }
  }

  /** Dropping position `k + 1` of `s` is dropping position `k` of its tail. */
  lemma DropInTail<T>(s: seq<T>, k: nat)
    requires k + 1 < |s|
    ensures s[..k + 1] + s[k + 2..] == [s[0]] + (s[1..][..k] + s[1..][k + 1..])
  {
  }

  /** Every element left by RemoveFirst was in the collection before. */
  lemma RemoveFirstFrom<T>(s: seq<T>, x: T)
    ensures forall i :: 0 <= i < |RemoveFirst(s, x)| ==> RemoveFirst(s, x)[i] in s
  {
  }

  /** The distinct elements of a collection. */
  ghost function Elements<T>(s: seq<T>): set<T>
  {
    set x | x in s
  }

  /** A collection without duplicates has as many entries as distinct elements. */
  lemma {:induction false} DistinctCount<T>(s: seq<T>)
    requires NoDuplicates(s)
    ensures |Elements(s)| == |s|
  {
    if s != [] {
      TailNoDuplicates(s);
      DistinctCount(s[1..]);
      assert s == [s[0]] + s[1..];
      assert Elements(s) == {s[0]} + Elements(s[1..]);
    }
  }

  /**
   * Every element of `s` other than `x`. The body is the definition: it keeps
   * the survivors in their original order, and the ensures say which elements
   * survive.
   */
  function Without<T(==)>(s: seq<T>, x: T): (r: seq<T>)
    ensures |r| <= |s|
    ensures forall i :: 0 <= i < |r| ==> r[i] != x && r[i] in s
    ensures forall i :: 0 <= i < |s| && s[i] != x ==> s[i] in r
  {
    if s == [] then []
    else if s[0] == x then Without(s[1..], x)
    else [s[0]] + Without(s[1..], x)
  }

  /** Filtering out an element that is not there changes nothing. */
  lemma {:induction false} WithoutAbsent<T>(s: seq<T>, x: T)
    requires x !in s
    ensures Without(s, x) == s
  {
    if s != [] {
      var t := s[1..];
      assert s == [s[0]] + t;
      assert x !in t;
      WithoutAbsent(t, x);
    }
  }

  /** The tail of a collection without duplicates has none, and lacks the head. */
  lemma TailNoDuplicates<T>(s: seq<T>)
    requires s != [] && NoDuplicates(s)
    ensures NoDuplicates(s[1..]) && s[0] !in s[1..]
  {
  }

  /** Putting an element absent from a collection without duplicates in front keeps it without. */
  lemma ConsNoDuplicates<T>(y: T, s: seq<T>)
    requires y !in s && NoDuplicates(s)
    ensures NoDuplicates([y] + s)
  {
  }

  /**
   * On a collection without duplicates, `removeElement(x)` keeps every other
   * element in its original order and leaves no copy of `x` behind.
   */
  lemma {:induction false} RemoveFirstKeepsOrder<T>(s: seq<T>, x: T)
    requires NoDuplicates(s)
    ensures RemoveFirst(s, x) == Without(s, x)
  {
    if s == [] {
    } else if x !in s {
      WithoutAbsent(s, x);
    } else if s[0] == x {
      assert IndexOf(s, x) == 0;
      TailNoDuplicates(s);
      WithoutAbsent(s[1..], x);
    } else {
      TailNoDuplicates(s);
      RemoveFirstKeepsOrder(s[1..], x);
    }
  }

  /** Removing from a collection without duplicates leaves one without duplicates and without `x`. */
  lemma {:induction false} RemoveFirstKeepsNoDuplicates<T>(s: seq<T>, x: T)
    requires NoDuplicates(s)
    ensures x !in RemoveFirst(s, x)
    ensures NoDuplicates(RemoveFirst(s, x))
  {
    if s != [] {
      TailNoDuplicates(s);
      if s[0] != x {
        var t := s[1..];
        RemoveFirstKeepsNoDuplicates(t, x);
        RemoveFirstFrom(t, x);
        ConsNoDuplicates(s[0], RemoveFirst(t, x));
      }
    }
  }

  /** Removing an element right after adding it restores the collection. */
  lemma AddThenRemove<T>(s: seq<T>, x: T)
    requires x !in s
    ensures RemoveFirst(AddIfAbsent(s, x), x) == s
  {
    RemoveAppended(s, x);
  }

  /** Removing an element that occurs only at the end drops that last entry. */
  lemma {:induction false} RemoveAppended<T>(s: seq<T>, x: T)
    requires x !in s
    ensures RemoveFirst(s + [x], x) == s
  {
    if s != [] {
      var t := s + [x];
      assert t[0] == s[0] && t[1..] == s[1..] + [x];
      RemoveAppended(s[1..], x);
      assert s == [s[0]] + s[1..];
    }
  }
}
