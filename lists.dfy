/** Removing the rows of a list that carry a given id, as both the budget
    table and the milestone tracker do with `filter(x => x.id !== id)`. The
    id is read off an element by `key`. */
module Lists {

  /** The elements whose key differs from `k`, in their original order. */
  function Without<T>(s: seq<T>, key: T -> string, k: string): (r: seq<T>)
    ensures |r| <= |s|
  {
    if s == [] then []
    else (if key(s[0]) == k then [] else [s[0]]) + Without(s[1..], key, k)
  }

  /** The elements left are exactly those whose key differs. */
  lemma {:induction false} WithoutMembers<T>(s: seq<T>, key: T -> string, k: string)
    ensures forall x :: x in Without(s, key, k) <==> x in s && key(x) != k
    decreases |s|
  {
    if s != [] {
      WithoutMembers(s[1..], key, k);
      assert s == [s[0]] + s[1..];
    }
  }

  /** The rest keep their order: the filter of a concatenation is the
      concatenation of the filters. */
  lemma {:induction false} WithoutAppend<T>(a: seq<T>, b: seq<T>, key: T -> string, k: string)
    ensures Without(a + b, key, k) == Without(a, key, k) + Without(b, key, k)
    decreases |a|
  {
    if a == [] {
      assert a + b == b;
    } else {
      assert (a + b)[0] == a[0];
      assert (a + b)[1..] == a[1..] + b;
      WithoutAppend(a[1..], b, key, k);
      var head := if key(a[0]) == k then [] else [a[0]];
      assert Without(a + b, key, k) == head + (Without(a[1..], key, k) + Without(b, key, k));
      assert head + (Without(a[1..], key, k) + Without(b, key, k))
          == (head + Without(a[1..], key, k)) + Without(b, key, k);
    }
  }

  /** A list with no element for the key is left as it is. */
  lemma {:induction false} WithoutAbsent<T>(s: seq<T>, key: T -> string, k: string)
    requires forall i :: 0 <= i < |s| ==> key(s[i]) != k
    ensures Without(s, key, k) == s
    decreases |s|
  {
    if s != [] {
      WithoutAbsent(s[1..], key, k);
    }
  }

  /** Removing an id twice is the same as removing it once. */
  lemma {:induction false} WithoutIdempotent<T>(s: seq<T>, key: T -> string, k: string)
    ensures Without(Without(s, key, k), key, k) == Without(s, key, k)
    decreases |s|
  {
    if s != [] {
      WithoutIdempotent(s[1..], key, k);
      var head := if key(s[0]) == k then [] else [s[0]];
      WithoutAppend(head, Without(s[1..], key, k), key, k);
      assert Without(head, key, k) == head by {
        if head != [] {
          assert head[1..] == [];
        }
      }
    }
  }
}
