/** The list transformations the store applies to the favorites and the
    playlist: `includes`, `filter(n => n !== x)`, and the two update rules
    built from them. Lists are JavaScript number arrays, here `seq<int>`. */
module Lists {

  /** `list.includes(x)`: a left-to-right scan. */
  function Includes(s: seq<int>, x: int): (r: bool)
    ensures r <==> x in s
  {
    if s == [] then false else s[0] == x || Includes(s[1..], x)
  }

  /** `list.filter(n => n !== x)`: every occurrence of `x` goes, every other
      element stays, as often as it was there. */
  function Without(s: seq<int>, x: int): (r: seq<int>)
    ensures multiset(r) == multiset(s)[x := 0]
    ensures forall y :: y in r <==> y in s && y != x
    ensures x !in s ==> r == s
  {
    if s == [] then []
    else
      assert s == [s[0]] + s[1..];
      if s[0] == x then Without(s[1..], x)
      else [s[0]] + Without(s[1..], x)
  }

  /** No element occurs twice. */
  predicate NoDuplicates(s: seq<int>)
  {
    forall i, j :: 0 <= i < j < |s| ==> s[i] != s[j]
  }

  /** The favorites update: drop every copy of a present element, or append
      an absent one at the end. */
  function Toggled(s: seq<int>, x: int): (r: seq<int>)
    ensures x in r <==> x !in s
    ensures forall y :: y != x ==> (y in r <==> y in s)
    ensures x !in s ==> r == s + [x]
    ensures x in s ==> multiset(r) == multiset(s)[x := 0]
  {
    if Includes(s, x) then Without(s, x) else s + [x]
  }

  /** The playlist insert: a no-op on a present element, otherwise append. */
  function Added(s: seq<int>, x: int): (r: seq<int>)
    ensures forall y :: y in r <==> y in s || y == x
    ensures |s| <= |r| <= |s| + 1 && r[..|s|] == s
    ensures |r| == |s| + 1 <==> x !in s
  {
    if Includes(s, x) then s else s + [x]
  }

  /** The insert never creates a duplicate. */
  lemma AddedKeepsNoDuplicates(s: seq<int>, x: int)
    requires NoDuplicates(s)
    ensures NoDuplicates(Added(s, x))
  {
  }

  /** A run of successive playlist inserts, oldest first. */
  function AddedAll(s: seq<int>, xs: seq<int>): seq<int>
    decreases |xs|
  {
    if xs == [] then s else AddedAll(Added(s, xs[0]), xs[1..])
  }

  /** Filtering commutes with concatenation, so the survivors keep their
      relative order. */
  lemma {:induction false} WithoutAppend(a: seq<int>, b: seq<int>, x: int)
    ensures Without(a + b, x) == Without(a, x) + Without(b, x)
  {
    if a == [] {
      assert a + b == b;
    } else {
      assert (a + b)[1..] == a[1..] + b;
      WithoutAppend(a[1..], b, x);
    }
  }

  /** Removing from a duplicate-free list leaves it duplicate-free. */
  lemma {:induction false} WithoutKeepsNoDuplicates(s: seq<int>, x: int)
    requires NoDuplicates(s)
    ensures NoDuplicates(Without(s, x))
  {
    if s != [] {
      assert NoDuplicates(s[1..]) by {
        forall i, j | 0 <= i < j < |s[1..]| ensures s[1..][i] != s[1..][j] {
          assert s[1..][i] == s[i + 1] && s[1..][j] == s[j + 1];
        }
      }
      WithoutKeepsNoDuplicates(s[1..], x);
      if s[0] != x {
        var w := Without(s[1..], x);
        assert s[0] !in s[1..];
        assert s[0] !in w;
        forall i, j | 0 <= i < j < |[s[0]] + w| ensures ([s[0]] + w)[i] != ([s[0]] + w)[j] {
          if i == 0 {
            assert ([s[0]] + w)[j] == w[j - 1];
          } else {
            assert ([s[0]] + w)[i] == w[i - 1] && ([s[0]] + w)[j] == w[j - 1];
          }
        }
      }
    }
  }

  /** Toggling an absent element twice restores the exact list. */
  lemma ToggleTwiceAbsent(s: seq<int>, x: int)
    requires x !in s
    ensures Toggled(Toggled(s, x), x) == s
  {
    WithoutAppend(s, [x], x);
  }

  /** Toggling a present element twice restores membership only: the
      element ends up once, at the end, after the other survivors. */
  lemma ToggleTwicePresent(s: seq<int>, x: int)
    requires x in s
    ensures Toggled(Toggled(s, x), x) == Without(s, x) + [x]
    ensures forall y :: y in Toggled(Toggled(s, x), x) <==> y in s
  {
  }

  /** Removing an element that was just inserted gives the list back. */
  lemma AddedThenRemoved(s: seq<int>, x: int)
    requires x !in s
    ensures Without(Added(s, x), x) == s
  {
    WithoutAppend(s, [x], x);
  }

  /** Any run of inserts keeps the playlist duplicate-free. */
  lemma {:induction false} AddedAllNoDuplicates(s: seq<int>, xs: seq<int>)
    requires NoDuplicates(s)
    ensures NoDuplicates(AddedAll(s, xs))
    decreases |xs|
  {
    if xs != [] {
      AddedKeepsNoDuplicates(s, xs[0]);
      AddedAllNoDuplicates(Added(s, xs[0]), xs[1..]);
    }
  }

  /** Any run of inserts keeps the entries already there in place, at the
      front, and ends holding exactly the old and the inserted elements. */
  lemma {:induction false} AddedAllKeepsOrder(s: seq<int>, xs: seq<int>)
    ensures |s| <= |AddedAll(s, xs)| && AddedAll(s, xs)[..|s|] == s
    ensures forall y :: y in AddedAll(s, xs) <==> y in s || y in xs
    decreases |xs|
  {
    if xs != [] {
      var s1, rest := Added(s, xs[0]), xs[1..];
      var r := AddedAll(s1, rest);
      AddedAllKeepsOrder(s1, rest);
      assert AddedAll(s, xs) == r;
      assert r[..|s|] == r[..|s1|][..|s|];
      assert xs == [xs[0]] + rest;
      forall y ensures y in r <==> y in s || y in xs {
        assert y in xs <==> y == xs[0] || y in rest;
      }
    }
  }

  /** Inserting a, b, a, c into an empty playlist gives a, b, c. */
  lemma AddedAllSuppressesRepeats(a: int, b: int, c: int)
    requires a != b && b != c && a != c
    ensures AddedAll([], [a, b, a, c]) == [a, b, c]
  {
    var xs := [a, b, a, c];
    assert xs[1..] == [b, a, c] && xs[1..][1..] == [a, c] && xs[1..][1..][1..] == [c];
    assert [b, a, c][1..] == [a, c] && [a, c][1..] == [c] && [c][1..] == [];
    assert Added([], a) == [a] && Added([a], b) == [a, b];
    assert Added([a, b], a) == [a, b] && Added([a, b], c) == [a, b, c];
    calc {
      AddedAll([], xs);
      AddedAll([a], [b, a, c]);
      AddedAll([a, b], [a, c]);
      AddedAll([a, b], [c]);
      AddedAll([a, b, c], []);
    }
  }
}
