/**
 * Removing every occurrence of an item from a list, as the script does with the list of
 * containers currently in the viewport.
 */
module ArrayItems {

  /** The list with every occurrence of `item` dropped and the other elements in their order. */
  function Without<T(==)>(s: seq<T>, item: T): (r: seq<T>)
    ensures item !in r
    ensures forall x :: x in r ==> x in s
    ensures |r| <= |s|
    ensures item !in s ==> r == s
  {
    if s == [] then []
    else if s[0] == item then Without(s[1..], item)
    else [s[0]] + Without(s[1..], item)
  }

  /** The first position of `item`, or -1 when it does not occur (`Array.prototype.indexOf`). */
  function IndexOf<T(==)>(s: seq<T>, item: T): (i: int)
    ensures item in s ==> 0 <= i < |s| && s[i] == item && item !in s[..i]
    ensures item !in s ==> i == -1
  {
    if s == [] then -1
    else if s[0] == item then 0
    else
      var j := IndexOf(s[1..], item);
      if j < 0 then -1
      else
        assert s[..j + 1] == [s[0]] + s[1..][..j];
        j + 1
  }

  predicate NoDuplicates<T(==)>(s: seq<T>)
  {
    forall i, j :: 0 <= i < j < |s| ==> s[i] != s[j]
  }

  /** Removal distributes over concatenation. */
  lemma {:induction false} WithoutAppend<T>(a: seq<T>, b: seq<T>, item: T)
    ensures Without(a + b, item) == Without(a, item) + Without(b, item)
  {
    if a == [] {
      assert a + b == b;
    } else {
      assert (a + b)[1..] == a[1..] + b;
      WithoutAppend(a[1..], b, item);
    }
  }

  /** Taking out one occurrence first does not change the outcome. */
  lemma {:induction false} WithoutSplice<T>(s: seq<T>, i: nat, item: T)
    requires i < |s| && s[i] == item
    ensures Without(s[..i] + s[i + 1..], item) == Without(s, item)
  {
    var left, right := s[..i], s[i + 1..];
    assert s == left + ([item] + right);
    WithoutAppend([item], right, item);
    assert Without([item], item) == [];
    WithoutAppend(left, [item] + right, item);
    WithoutAppend(left, right, item);
  }

  /** Exactly the occurrences of `item` go: every other element keeps its multiplicity. */
  lemma {:induction false} WithoutMultiset<T>(s: seq<T>, item: T)
    ensures multiset(Without(s, item)) == multiset(s)[item := 0]
  {
    if s != [] {
      WithoutMultiset(s[1..], item);
      assert s == [s[0]] + s[1..];
    }
  }

  /** A list without duplicates stays so. */
  lemma {:induction false} WithoutNoDuplicates<T>(s: seq<T>, item: T)
    requires NoDuplicates(s)
    ensures NoDuplicates(Without(s, item))
  {
    if s != [] {
      assert NoDuplicates(s[1..]) by {
        forall i, j | 0 <= i < j < |s[1..]| ensures s[1..][i] != s[1..][j] {
          assert s[1..][i] == s[i + 1] && s[1..][j] == s[j + 1];
        }
      }
      WithoutNoDuplicates(s[1..], item);
      if s[0] != item {
        assert s[0] !in s[1..];
        assert s[0] !in Without(s[1..], item);
      }
    }
  }

  /**
   * `arrayRemoveItem`: while the item is still in the list, find its first position and
   * splice it out.
   */
  method RemoveItem<T(==)>(list: seq<T>, item: T) returns (r: seq<T>)
    ensures r == Without(list, item)
  {
    r := list;
    while item in r
      invariant Without(r, item) == Without(list, item)
      decreases |r|
    {
      var index := IndexOf(r, item);
      WithoutSplice(r, index, item);
      r := r[..index] + r[index + 1..];
    }
  }
}
