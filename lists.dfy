/**
 * The list operations the registry relies on: appending, and removing the
 * first occurrence of an element (.NET's List<T>.Remove, which compares with
 * the element's equality and does nothing when the element is absent).
 */
module Lists {

  /** The position of the first occurrence of x in s. */
  function IndexOf<T(==)>(s: seq<T>, x: T): (k: nat)
    requires x in s
    ensures k < |s| && s[k] == x
    ensures forall j :: 0 <= j < k ==> s[j] != x
  {
    if s[0] == x then 0 else 1 + IndexOf(s[1..], x)
  }

  /**
   * s without its first occurrence of x; s itself when x does not occur.
   * The other elements keep their order: those before the removed one keep
   * their index and those after it move up by one.
   */
  function RemoveFirst<T(==)>(s: seq<T>, x: T): (r: seq<T>)
    ensures x !in s ==> r == s
    ensures x in s ==> |r| == |s| - 1
    ensures x in s ==> forall j :: 0 <= j < IndexOf(s, x) ==> r[j] == s[j]
    ensures x in s ==> forall j :: IndexOf(s, x) <= j < |r| ==> r[j] == s[j + 1]
  {
    if s == [] then []
    else if s[0] == x then s[1..]
    else
      var rest := RemoveFirst(s[1..], x);
      assert x in s ==> x in s[1..] && IndexOf(s, x) == IndexOf(s[1..], x) + 1;
      [s[0]] + rest
  }

  /** Removing drops exactly one copy of x and no other element. */
  lemma {:induction false} RemoveFirstDropsOne<T>(s: seq<T>, x: T)
    requires x in s
    ensures multiset(RemoveFirst(s, x)) == multiset(s) - multiset{x}
  {
    assert s == [s[0]] + s[1..];
    if s[0] != x {
      RemoveFirstDropsOne(s[1..], x);
      assert RemoveFirst(s, x) == [s[0]] + RemoveFirst(s[1..], x);
    }
  }

  /**
   * Register then Unregister of an element that was not registered gives
   * back the original list; when it was already registered, the earlier copy
   * is the one removed and the new copy stays at the end.
   */
  lemma {:induction false} RemoveAfterAppend<T>(s: seq<T>, x: T)
    ensures x !in s ==> RemoveFirst(s + [x], x) == s
    ensures x in s ==> RemoveFirst(s + [x], x) == RemoveFirst(s, x) + [x]
  {
    var t := s + [x];
    if x !in s {
      assert IndexOf(t, x) == |s|;
      assert t[..|s|] == s;
    } else {
      var k := IndexOf(s, x);
      assert t[k] == x;
      assert IndexOf(t, x) == k;
      assert t[..k] == s[..k];
      assert t[k + 1..] == s[k + 1..] + [x];
    }
  }
}
