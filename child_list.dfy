/**
 * The ordered child list of a Pixi container, as `Container.removeChild`
 * and `Container.addChild` change it.  `removeChild` looks the child up
 * with `indexOf` and splices that one position out (or does nothing);
 * `addChild` first detaches the child from this container if it is
 * already there, then appends it.
 */
module ChildList {

  ghost predicate NoDuplicates<T>(s: seq<T>)
  {
    forall i, j :: 0 <= i < j < |s| ==> s[i] != s[j]
  }

  /** `indexOf`: the position of the first occurrence of `x`. */
  function IndexOf<T(==)>(s: seq<T>, x: T): (i: nat)
    requires x in s
    ensures i < |s| && s[i] == x && x !in s[..i]
    decreases |s|
  {
    if s[0] == x then 0
    else
      var k := IndexOf(s[1..], x);
      assert s[..k + 1] == [s[0]] + s[1..][..k];
      k + 1
  }

  /** `removeChild(x)`: the list with the first occurrence of `x` spliced out. */
  function RemoveChild<T(==)>(s: seq<T>, x: T): seq<T>
  {
    if x in s then s[..IndexOf(s, x)] + s[IndexOf(s, x) + 1..] else s
  }

  /** `addChild(x)`: `x` moves to (or is appended at) the end. */
  function AddChild<T(==)>(s: seq<T>, x: T): seq<T>
  {
    RemoveChild(s, x) + [x]
  }

  /** Removing takes away exactly one occurrence of `x`, if there is one, and nothing else. */
  lemma RemoveChildContents<T>(s: seq<T>, x: T)
    ensures x !in s ==> RemoveChild(s, x) == s
    ensures x in s ==> |RemoveChild(s, x)| == |s| - 1
    ensures multiset(RemoveChild(s, x)) == multiset(s) - multiset{x}
  {
    if x in s {
      var i := IndexOf(s, x);
      assert s == s[..i] + [x] + s[i + 1..];
      assert multiset(s) == multiset(s[..i]) + multiset{x} + multiset(s[i + 1..]);
    } else {
      assert multiset(s)[x] == 0;
    }
  }

  /** On a list without duplicates, removing `x` removes every trace of it and keeps the list duplicate-free. */
  lemma RemoveChildNoDuplicates<T>(s: seq<T>, x: T)
    requires NoDuplicates(s)
    ensures NoDuplicates(RemoveChild(s, x))
    ensures forall y :: y in RemoveChild(s, x) <==> y in s && y != x
  {
    if x in s {
      var i := IndexOf(s, x);
      var r := RemoveChild(s, x);
      forall a, b | 0 <= a < b < |r|
        ensures r[a] != r[b]
      {
        RemoveChildAt(s, x, a);
        RemoveChildAt(s, x, b);
      }
      forall y
        ensures y in r <==> y in s && y != x
      {
        if y in r {
          var k :| 0 <= k < |r| && r[k] == y;
          RemoveChildAt(s, x, k);
        }
        if y in s && y != x {
          var k :| 0 <= k < |s| && s[k] == y;
          assert k != i;
          RemoveChildAt(s, x, if k < i then k else k - 1);
        }
      }
    }
  }

  /** After removing `x`, position `k` holds what was at `k` before `x`'s position, and at `k + 1` after it. */
  lemma RemoveChildAt<T>(s: seq<T>, x: T, k: int)
    requires x in s && 0 <= k < |s| - 1
    ensures |RemoveChild(s, x)| == |s| - 1
    ensures RemoveChild(s, x)[k] == if k < IndexOf(s, x) then s[k] else s[k + 1]
  {
  }

  /** Adding keeps a list duplicate-free; `x` ends up last and the others are kept. */
  lemma AddChildNoDuplicates<T>(s: seq<T>, x: T)
    requires NoDuplicates(s)
    ensures NoDuplicates(AddChild(s, x))
    ensures AddChild(s, x)[|AddChild(s, x)| - 1] == x
    ensures forall y :: y in AddChild(s, x) <==> y in s || y == x
  {
    RemoveChildNoDuplicates(s, x);
  }

  /** Adding never loses a child that was already there. */
  lemma AddChildKeeps<T>(s: seq<T>, x: T, y: T)
    requires y in s
    ensures y in AddChild(s, x)
  {
    if y != x && x in s {
      var i := IndexOf(s, x);
      var k :| 0 <= k < |s| && s[k] == y;
      assert k != i;
      assert y == RemoveChild(s, x)[if k < i then k else k - 1];
    }
  }
}
