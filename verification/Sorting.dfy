/**
  Go's sort.Slice by a string key. The algorithm is not stable, so all a caller may use of the
  result is that it is a sorted permutation; with distinct keys that fixes the result.
 */
module Sorting {
  import opened Text

  ghost predicate SortedBy<T(!new)>(s: seq<T>, key: T -> string)
  {
    forall i, j :: 0 <= i < j < |s| ==> !Less(key(s[j]), key(s[i]))
  }

  ghost predicate StrictBy<T(!new)>(s: seq<T>, key: T -> string)
  {
    forall i, j :: 0 <= i < j < |s| ==> Less(key(s[i]), key(s[j]))
  }

  ghost predicate DistinctKeys<T(!new)>(s: seq<T>, key: T -> string)
  {
    forall i, j :: 0 <= i < j < |s| ==> key(s[i]) != key(s[j])
  }

  method SortSlice<T(!new)>(s: seq<T>, key: T -> string) returns (r: seq<T>)
    ensures SortedBy(r, key)
    ensures multiset(r) == multiset(s) && |r| == |s|
  {
    r := [];
    for n := 0 to |s|
      invariant SortedBy(r, key) && |r| == n && multiset(r) == multiset(s[..n])
    {
      assert s[..n + 1] == s[..n] + [s[n]];
      r := Insert(r, s[n], key);
    }
    assert s[..|s|] == s;
  }

  method Insert<T(!new)>(s: seq<T>, x: T, key: T -> string) returns (r: seq<T>)
    requires SortedBy(s, key)
    ensures SortedBy(r, key) && |r| == |s| + 1
    ensures multiset(r) == multiset(s) + multiset{x}
  {
    var k := |s|;
    while k > 0 && Less(key(x), key(s[k - 1]))
      invariant 0 <= k <= |s|
      invariant forall j :: k <= j < |s| ==> Less(key(x), key(s[j]))
    {
      k := k - 1;
    }
    hide Less;
    forall j | 0 <= j < k ensures !Less(key(x), key(s[j])) {
      if Less(key(x), key(s[j])) { NotLessTrans(key(x), key(s[j]), key(s[k - 1])); }
    }
    forall j | k <= j < |s| ensures !Less(key(s[j]), key(x)) { LessIrreflexive(key(x), key(s[j])); }
    r := s[..k] + [x] + s[k..];
    InsertAt(s, x, k, key);
  }

  lemma InsertAt<T(!new)>(s: seq<T>, x: T, k: nat, key: T -> string)
    requires SortedBy(s, key) && k <= |s|
    requires forall j :: 0 <= j < k ==> !Less(key(x), key(s[j]))
    requires forall j :: k <= j < |s| ==> !Less(key(s[j]), key(x))
    ensures var r := s[..k] + [x] + s[k..]; SortedBy(r, key) && multiset(r) == multiset(s) + multiset{x}
  {
    hide Less;
    var r := s[..k] + [x] + s[k..];
    assert s == s[..k] + s[k..];
    forall i, j | 0 <= i < j < |r| ensures !Less(key(r[j]), key(r[i])) {
      assert r[i] == if i < k then s[i] else if i == k then x else s[i - 1];
      assert r[j] == if j < k then s[j] else if j == k then x else s[j - 1];
    }
  }

  lemma NotLessTrans(a: string, b: string, c: string)
    requires Less(a, b) && !Less(c, b)
    ensures Less(a, c)
  {
    LessTotal(b, c);
    if Less(b, c) { LessTrans(a, b, c); }
  }

  /** Every list has a sorted permutation. */
  lemma {:induction false} SortExists<T(!new)>(s: seq<T>, key: T -> string) returns (r: seq<T>)
    ensures SortedBy(r, key) && multiset(r) == multiset(s)
  {
    if s == [] {
      r := [];
    } else {
      var t := SortExists(s[1..], key);
      r := InsertExists(t, s[0], key);
      assert s == [s[0]] + s[1..];
    }
  }

  lemma InsertExists<T(!new)>(s: seq<T>, x: T, key: T -> string) returns (r: seq<T>)
    requires SortedBy(s, key)
    ensures SortedBy(r, key) && multiset(r) == multiset(s) + multiset{x}
  {
    var k := PlaceExists(s, x, key);
    r := s[..k] + [x] + s[k..];
    InsertAt(s, x, k, key);
  }

  lemma {:induction false} PlaceExists<T(!new)>(s: seq<T>, x: T, key: T -> string) returns (k: nat)
    requires SortedBy(s, key)
    ensures k <= |s| && forall j :: 0 <= j < k ==> !Less(key(x), key(s[j]))
    ensures forall j :: k <= j < |s| ==> !Less(key(s[j]), key(x))
  {
    hide Less;
    k := |s|;
    if s != [] {
      var n := |s| - 1;
      if Less(key(x), key(s[n])) {
        k := PlaceExists(s[..n], x, key);
        LessIrreflexive(key(x), key(s[n]));
      } else {
        forall j | 0 <= j < n ensures !Less(key(x), key(s[j])) {
          if Less(key(x), key(s[j])) { NotLessTrans(key(x), key(s[j]), key(s[n])); }
        }
      }
    }
  }

  lemma SortedIsStrict<T(!new)>(s: seq<T>, key: T -> string)
    requires SortedBy(s, key) && DistinctKeys(s, key)
    ensures StrictBy(s, key)
  {
    forall i, j | 0 <= i < j < |s| ensures Less(key(s[i]), key(s[j])) {
      LessTotal(key(s[i]), key(s[j]));
    }
  }

  lemma StrictIsDistinct<T(!new)>(s: seq<T>, key: T -> string)
    requires StrictBy(s, key)
    ensures SortedBy(s, key) && DistinctKeys(s, key)
  {
    forall i, j | 0 <= i < j < |s| ensures !Less(key(s[j]), key(s[i])) && key(s[i]) != key(s[j]) {
      LessIrreflexive(key(s[i]), key(s[j]));
    }
  }

  /** Two strictly sorted lists with the same elements are equal, however they were produced. */
  lemma {:induction false} StrictUnique<T(!new)>(a: seq<T>, b: seq<T>, key: T -> string)
    requires StrictBy(a, key) && StrictBy(b, key)
    requires forall x :: x in a <==> x in b
    ensures a == b
  {
    assert a != [] ==> a[0] in a;
    assert b != [] ==> b[0] in b;
    if a != [] && b != [] {
      FirstIsLeast(a, b, key);
      var ta, tb := a[1..], b[1..];
      forall x ensures x in ta <==> x in tb {
        NotInTail(a, key);
        NotInTail(b, key);
        assert x in a <==> x == a[0] || x in ta;
        assert x in b <==> x == b[0] || x in tb;
      }
      StrictUnique(ta, tb, key);
      assert a == [a[0]] + ta && b == [b[0]] + tb;
    }
  }

  lemma NotInTail<T(!new)>(a: seq<T>, key: T -> string)
    requires a != [] && StrictBy(a, key)
    ensures a[0] !in a[1..]
  {
    if a[0] in a[1..] {
      var i :| 0 <= i < |a[1..]| && a[1..][i] == a[0];
      LessIrreflexive(key(a[0]), key(a[i + 1]));
    }
  }

  lemma FirstIsLeast<T(!new)>(a: seq<T>, b: seq<T>, key: T -> string)
    requires a != [] && b != [] && StrictBy(a, key) && StrictBy(b, key)
    requires forall x :: x in a <==> x in b
    ensures a[0] == b[0]
  {
    assert a[0] in a && b[0] in b;
    var i :| 0 <= i < |b| && b[i] == a[0];
    var j :| 0 <= j < |a| && a[j] == b[0];
    assert j > 0 ==> Less(key(a[0]), key(a[j]));
    if i > 0 { LessIrreflexive(key(b[0]), key(b[i])); }
  }

  lemma CountTwo<T(!new)>(s: seq<T>, i: nat, j: nat)
    requires i < j < |s| && s[i] == s[j]
    ensures multiset(s)[s[i]] >= 2
  {
    assert s == s[..j] + [s[j]] + s[j + 1..];
    assert s[..j][i] in multiset(s[..j]);
  }

  ghost predicate Distinct<T(!new)>(s: seq<T>)
  {
    forall i, j :: 0 <= i < j < |s| ==> s[i] != s[j]
  }

  lemma {:induction false} CountOne<T(!new)>(s: seq<T>, x: T)
    requires Distinct(s)
    ensures multiset(s)[x] <= 1
  {
    if s != [] {
      CountOne(s[1..], x);
      assert s == [s[0]] + s[1..];
      if x == s[0] {
        forall i | 0 <= i < |s[1..]| ensures s[1..][i] != x { assert s[1..][i] == s[i + 1]; }
        assert x !in multiset(s[1..]);
      }
    }
  }

  /** A permutation of a list without repetitions has none either. */
  lemma PermutationKeepsDistinct<T(!new)>(a: seq<T>, b: seq<T>)
    requires multiset(a) == multiset(b) && Distinct(a)
    ensures Distinct(b)
  {
    forall i, j | 0 <= i < j < |b| ensures b[i] != b[j] {
      if b[i] == b[j] {
        CountTwo(b, i, j);
        CountOne(a, b[i]);
      }
    }
  }

  /** A permutation of a list with distinct keys has distinct keys. */
  lemma PermutationDistinct<T(!new)>(a: seq<T>, b: seq<T>, key: T -> string)
    requires multiset(a) == multiset(b) && DistinctKeys(a, key)
    ensures DistinctKeys(b, key)
  {
    PermutationKeepsDistinct(a, b);
    forall i, j | 0 <= i < j < |b| ensures key(b[i]) != key(b[j]) {
      assert b[i] in multiset(a) && b[j] in multiset(a);
      var i' :| 0 <= i' < |a| && a[i'] == b[i];
      var j' :| 0 <= j' < |a| && a[j'] == b[j];
    }
  }

  lemma SameMembers<T(!new)>(a: seq<T>, b: seq<T>)
    requires multiset(a) == multiset(b)
    ensures forall x :: x in a <==> x in b
  {
    forall x ensures x in a <==> x in b {
      assert x in a <==> x in multiset(a);
      assert x in b <==> x in multiset(b);
    }
  }

  /** Sorting a list with distinct keys: the one possible result. */
  method SortUnique<T(!new)>(s: seq<T>, key: T -> string) returns (r: seq<T>)
    requires DistinctKeys(s, key)
    ensures StrictBy(r, key) && multiset(r) == multiset(s) && forall x :: x in r <==> x in s
  {
    r := SortSlice(s, key);
    PermutationDistinct(s, r, key);
    SortedIsStrict(r, key);
    SameMembers(s, r);
  }

  /** sortedKeys of topology.go: the members of a set in ascending order. */
  method SortedKeys(keys: set<string>) returns (r: seq<string>)
    ensures forall i, j :: 0 <= i < j < |r| ==> Less(r[i], r[j])
    ensures forall k :: k in r <==> k in keys
    ensures |r| == |keys|
  {
    var todo := keys;
    var id := (k: string) => k;
    var out: seq<string> := [];
    while todo != {}
      invariant todo <= keys && forall k :: k in out <==> k in keys - todo
      invariant forall i, j :: 0 <= i < j < |out| ==> out[i] != out[j]
      invariant |out| + |todo| == |keys|
    {
      var k :| k in todo;
      todo := todo - {k};
      assert forall x :: x in out + [k] <==> x in out || x == k;
      out := out + [k];
    }
    r := SortSlice(out, id);
    PermutationDistinct(out, r, id);
    SortedIsStrict(r, id);
    SameMembers(out, r);
  }
}
