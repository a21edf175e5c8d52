// Lexicographic order and sorting by a key, as Python's `sorted` does on distinct keys.
module Ordering {
  predicate Less(a: seq<int>, b: seq<int>) {
    if b == [] then false
    else if a == [] then true
    else a[0] < b[0] || (a[0] == b[0] && Less(a[1..], b[1..]))
  }

  lemma LessTrichotomy(a: seq<int>, b: seq<int>)
    ensures Less(a, b) || Less(b, a) || a == b
    ensures !(Less(a, b) && Less(b, a))
    ensures !Less(a, a)
  {
    if a != [] && b != [] {
      LessTrichotomy(a[1..], b[1..]);
      if a[0] == b[0] && a[1..] == b[1..] {
        assert a == [a[0]] + a[1..] == b;
      }
    }
    if a != [] {
      LessTrichotomy(a[1..], a[1..]);
    }
  }

  // The first position where the two differ decides; a proper beginning comes first.
  lemma {:induction false} LessExactly(a: seq<int>, b: seq<int>, n: nat)
    requires n <= |a| && n <= |b| && a[..n] == b[..n]
    requires n == |a| || n == |b| || a[n] != b[n]
    ensures Less(a, b) <==> (n == |a| && n < |b|) || (n < |a| && n < |b| && a[n] < b[n])
  {
    if n > 0 {
      assert a[0] == a[..n][0] == b[..n][0] == b[0];
      assert a[1..][..n - 1] == a[..n][1..] == b[..n][1..] == b[1..][..n - 1];
      LessExactly(a[1..], b[1..], n - 1);
    }
  }

  lemma {:induction false} LessTransitive(a: seq<int>, b: seq<int>, c: seq<int>)
    requires Less(a, b) && Less(b, c)
    ensures Less(a, c)
  {
    if a != [] && a[0] == b[0] == c[0] {
      LessTransitive(a[1..], b[1..], c[1..]);
    }
  }

  predicate Ascending(keys: seq<seq<int>>) {
    forall i, j | 0 <= i < j < |keys| :: Less(keys[i], keys[j])
  }

  function Keys<T>(key: T -> seq<int>, s: seq<T>): seq<seq<int>> {
    seq(|s|, i requires 0 <= i < |s| => key(s[i]))
  }

  predicate SortedBy<T>(key: T -> seq<int>, s: seq<T>) { Ascending(Keys(key, s)) }

  predicate SameElements<T(==)>(s: seq<T>, t: seq<T>) {
    (forall x | x in s :: x in t) && (forall x | x in t :: x in s)
  }

  // Two ascending listings of the same elements are the same listing.
  lemma {:induction false} SortedUnique<T>(key: T -> seq<int>, s: seq<T>, t: seq<T>)
    requires SortedBy(key, s) && SortedBy(key, t) && SameElements(s, t)
    ensures s == t
  {
    assert t != [] ==> t[0] in s;
    if s == [] {
    } else {
      assert s[0] in t;
      assert t[0] in s;
      var i :| 0 <= i < |t| && t[i] == s[0];
      var j :| 0 <= j < |s| && s[j] == t[0];
      assert Keys(key, t)[i] == key(s[0]) == Keys(key, s)[0];
      assert Keys(key, s)[j] == key(t[0]) == Keys(key, t)[0];
      LessTrichotomy(key(s[0]), key(t[0]));
      assert i == 0 && j == 0;
      TailSorted(key, s);
      TailSorted(key, t);
      assert SameElements(s[1..], t[1..]) by {
        forall x | x in s[1..] ensures x in t[1..] { TailExcludesHead(key, s, x); assert x in t; }
        forall x | x in t[1..] ensures x in s[1..] { TailExcludesHead(key, t, x); assert x in s; }
      }
      SortedUnique(key, s[1..], t[1..]);
      assert s == [s[0]] + s[1..] && t == [t[0]] + t[1..];
    }
  }

  lemma TailSorted<T>(key: T -> seq<int>, s: seq<T>)
    requires s != [] && SortedBy(key, s)
    ensures SortedBy(key, s[1..])
  {
    assert forall i | 0 <= i < |s| - 1 :: Keys(key, s[1..])[i] == Keys(key, s)[i + 1];
  }

  lemma TailExcludesHead<T>(key: T -> seq<int>, s: seq<T>, x: T)
    requires s != [] && SortedBy(key, s) && x in s[1..]
    ensures x != s[0] && x in s
  {
    var i :| 0 <= i < |s[1..]| && s[1..][i] == x;
    assert Less(Keys(key, s)[0], Keys(key, s)[i + 1]);
    LessTrichotomy(key(s[0]), key(s[0]));
  }

  // Insertion into an ascending listing.
  function Insert<T>(key: T -> seq<int>, x: T, s: seq<T>): seq<T> {
    if s == [] || !Less(key(s[0]), key(x)) then [x] + s else [s[0]] + Insert(key, x, s[1..])
  }

  function Sort<T>(key: T -> seq<int>, s: seq<T>): seq<T> {
    if s == [] then [] else Insert(key, s[0], Sort(key, s[1..]))
  }

  lemma {:induction false} InsertContains<T>(key: T -> seq<int>, x: T, s: seq<T>, y: T)
    ensures y in Insert(key, x, s) <==> y == x || y in s
  {
    if s != [] && Less(key(s[0]), key(x)) {
      InsertContains(key, x, s[1..], y);
      assert s == [s[0]] + s[1..];
    }
  }

  lemma {:induction false} InsertSorts<T>(key: T -> seq<int>, x: T, s: seq<T>)
    requires SortedBy(key, s) && forall i | 0 <= i < |s| :: key(s[i]) != key(x)
    ensures SortedBy(key, Insert(key, x, s)) && |Insert(key, x, s)| == |s| + 1
  {
    var r := Insert(key, x, s);
    if s == [] {
    } else if !Less(key(s[0]), key(x)) {
      LessTrichotomy(key(s[0]), key(x));
      forall i, j | 0 <= i < j < |r| ensures Less(Keys(key, r)[i], Keys(key, r)[j]) {
        assert Keys(key, s)[j - 1] == key(s[j - 1]);
        if i > 0 {
          assert Less(Keys(key, s)[i - 1], Keys(key, s)[j - 1]);
        } else if j > 1 {
          assert Less(Keys(key, s)[0], Keys(key, s)[j - 1]);
          LessTransitive(key(x), key(s[0]), key(s[j - 1]));
        }
      }
    } else {
      TailSorted(key, s);
      var rest := Insert(key, x, s[1..]);
      InsertSorts(key, x, s[1..]);
      forall i, j | 0 <= i < j < |r| ensures Less(Keys(key, r)[i], Keys(key, r)[j]) {
        if i > 0 {
          assert Less(Keys(key, rest)[i - 1], Keys(key, rest)[j - 1]);
        } else {
          InsertContains(key, x, s[1..], rest[j - 1]);
          if rest[j - 1] != x {
            var n :| 0 <= n < |s[1..]| && s[1..][n] == rest[j - 1];
            assert Less(Keys(key, s)[0], Keys(key, s)[n + 1]);
          }
        }
      }
    }
  }

  predicate DistinctKeys<T>(key: T -> seq<int>, s: seq<T>) {
    forall i, j | 0 <= i < j < |s| :: key(s[i]) != key(s[j])
  }

  // Sorting distinct keys lists the same elements in ascending order.
  lemma {:induction false} SortSorts<T>(key: T -> seq<int>, s: seq<T>)
    requires DistinctKeys(key, s)
    ensures SortedBy(key, Sort(key, s)) && |Sort(key, s)| == |s|
    ensures SameElements(Sort(key, s), s)
  {
    if s != [] {
      var rest := Sort(key, s[1..]);
      SortSorts(key, s[1..]);
      forall i | 0 <= i < |rest| ensures key(rest[i]) != key(s[0]) {
        assert rest[i] in s[1..];
        var j :| 0 <= j < |s[1..]| && s[1..][j] == rest[i];
      }
      InsertSorts(key, s[0], rest);
      assert s == [s[0]] + s[1..];
      forall y | y in Sort(key, s) ensures y in s {
        InsertContains(key, s[0], rest, y);
      }
      forall y | y in s ensures y in Sort(key, s) {
        InsertContains(key, s[0], rest, y);
      }
    }
  }
}
