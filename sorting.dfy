/**
 * The comparator-driven, stable `Array.prototype.sort` the screens call, with
 * `localeCompare` modelled as lexicographic order on characters.
 */
module Sorting {
  /** Lexicographic order on strings: `a.localeCompare(b) <= 0`. */
  predicate LexLe(a: string, b: string)
    decreases |a|
  {
    |a| == 0 || (|b| > 0 && (a[0] < b[0] || (a[0] == b[0] && LexLe(a[1..], b[1..]))))
  }

  lemma {:induction false} LexLeTotal(a: string, b: string)
    ensures LexLe(a, b) || LexLe(b, a)
    decreases |a|
  {
    if |a| > 0 && |b| > 0 && a[0] == b[0] {
      LexLeTotal(a[1..], b[1..]);
    }
  }

  lemma {:induction false} LexLeTrans(a: string, b: string, c: string)
    requires LexLe(a, b) && LexLe(b, c)
    ensures LexLe(a, c)
    decreases |a|
  {
    if |a| > 0 && a[0] == b[0] && b[0] == c[0] {
      LexLeTrans(a[1..], b[1..], c[1..]);
    }
  }

  lemma {:induction false} LexLeAntisymmetric(a: string, b: string)
    requires LexLe(a, b) && LexLe(b, a)
    ensures a == b
    decreases |a|
  {
    if |a| > 0 {
      LexLeAntisymmetric(a[1..], b[1..]);
      assert a == [a[0]] + a[1..] && b == [b[0]] + b[1..];
    }
  }

  /** Where key `x` may stand relative to key `y` in the chosen direction. */
  predicate Before(x: string, y: string, asc: bool) {
    if asc then LexLe(x, y) else LexLe(y, x)
  }

  lemma BeforeTotal(x: string, y: string, asc: bool)
    ensures Before(x, y, asc) || Before(y, x, asc)
  {
    LexLeTotal(x, y);
  }

  lemma BeforeTrans(x: string, y: string, z: string, asc: bool)
    requires Before(x, y, asc) && Before(y, z, asc)
    ensures Before(x, z, asc)
  {
    if asc { LexLeTrans(x, y, z); } else { LexLeTrans(z, y, x); }
  }

  /** Every element is in order with every later one. */
  ghost predicate SortedBy<T>(s: seq<T>, key: T -> string, asc: bool) {
    forall i, j :: 0 <= i < j < |s| ==> Before(key(s[i]), key(s[j]), asc)
  }

  /** `x` may precede every element of `s`. */
  ghost predicate BeforeAll<T>(x: T, s: seq<T>, key: T -> string, asc: bool) {
    forall j :: 0 <= j < |s| ==> Before(key(x), key(s[j]), asc)
  }

  /** Places `x` in front of the first element it may precede. */
  function Insert<T>(x: T, s: seq<T>, key: T -> string, asc: bool): (r: seq<T>)
    ensures |r| == |s| + 1
    decreases |s|
  {
    if s == [] then [x]
    else if Before(key(x), key(s[0]), asc) then [x] + s
    else [s[0]] + Insert(x, s[1..], key, asc)
  }

  /** Inserting into a sorted sequence adds exactly `x` and keeps it sorted. */
  lemma {:induction false} InsertSpec<T>(x: T, s: seq<T>, key: T -> string, asc: bool)
    requires SortedBy(s, key, asc)
    ensures multiset(Insert(x, s, key, asc)) == multiset(s) + multiset{x}
    ensures SortedBy(Insert(x, s, key, asc), key, asc)
    decreases |s|
  {
    if s == [] {
    } else if Before(key(x), key(s[0]), asc) {
      assert BeforeAll(x, s, key, asc) by {
        forall j | 0 <= j < |s| ensures Before(key(x), key(s[j]), asc) {
          if j > 0 { BeforeTrans(key(x), key(s[0]), key(s[j]), asc); }
        }
      }
      assert Insert(x, s, key, asc) == [x] + s;
    } else {
      var rest := Insert(x, s[1..], key, asc);
      InsertSpec(x, s[1..], key, asc);
      assert s == [s[0]] + s[1..];
      BeforeTotal(key(x), key(s[0]), asc);
      assert BeforeAll(s[0], rest, key, asc) by {
        forall j | 0 <= j < |rest| ensures Before(key(s[0]), key(rest[j]), asc) {
          assert rest[j] in multiset(rest);
          assert rest[j] == x || rest[j] in s[1..];
        }
      }
      assert Insert(x, s, key, asc) == [s[0]] + rest;
    }
  }

  /** Stable insertion sort of `s` by `key` in the chosen direction. */
  function SortBy<T>(s: seq<T>, key: T -> string, asc: bool): (r: seq<T>)
    ensures |r| == |s|
    decreases |s|
  {
    if s == [] then [] else Insert(s[0], SortBy(s[1..], key, asc), key, asc)
  }

  /** The sorted sequence is a permutation of `s` in which every element is in order with every later one. */
  lemma {:induction false} SortBySpec<T>(s: seq<T>, key: T -> string, asc: bool)
    ensures multiset(SortBy(s, key, asc)) == multiset(s)
    ensures SortedBy(SortBy(s, key, asc), key, asc)
    decreases |s|
  {
    if s != [] {
      SortBySpec(s[1..], key, asc);
      InsertSpec(s[0], SortBy(s[1..], key, asc), key, asc);
      assert s == [s[0]] + s[1..];
    }
  }

  /** The elements of `s` whose key is `k`, in their order in `s`. */
  function WithKey<T>(s: seq<T>, key: T -> string, k: string): seq<T>
    decreases |s|
  {
    if s == [] then []
    else (if key(s[0]) == k then [s[0]] else []) + WithKey(s[1..], key, k)
  }

  lemma WithKeyCons<T>(x: T, s: seq<T>, key: T -> string, k: string)
    ensures WithKey([x] + s, key, k) == (if key(x) == k then [x] else []) + WithKey(s, key, k)
  {
    assert ([x] + s)[1..] == s;
  }

  lemma BeforeRefl(x: string, asc: bool)
    ensures Before(x, x, asc)
  {
    LexLeTotal(x, x);
  }

  lemma {:induction false} InsertStable<T>(x: T, s: seq<T>, key: T -> string, asc: bool, k: string)
    ensures WithKey(Insert(x, s, key, asc), key, k)
         == (if key(x) == k then [x] else []) + WithKey(s, key, k)
    decreases |s|
  {
    if s == [] {
      WithKeyCons(x, [], key, k);
    } else if Before(key(x), key(s[0]), asc) {
      WithKeyCons(x, s, key, k);
    } else {
      var rest := Insert(x, s[1..], key, asc);
      assert Insert(x, s, key, asc) == [s[0]] + rest;
      InsertStable(x, s[1..], key, asc, k);
      WithKeyCons(s[0], rest, key, k);
      // x passes s[0], so the two cannot both carry the key k
      BeforeRefl(key(x), asc);
      var mx: seq<T> := if key(x) == k then [x] else [];
      var m0: seq<T> := if key(s[0]) == k then [s[0]] else [];
      assert mx == [] || m0 == [];
      assert WithKey(s, key, k) == m0 + WithKey(s[1..], key, k);
    }
  }

  /**
   * Sorting is stable: the elements that share any one key appear in the result
   * in the same order as in the input.
   */
  lemma {:induction false} SortByStable<T>(s: seq<T>, key: T -> string, asc: bool, k: string)
    ensures WithKey(SortBy(s, key, asc), key, k) == WithKey(s, key, k)
    decreases |s|
  {
    if s != [] {
      SortByStable(s[1..], key, asc, k);
      InsertStable(s[0], SortBy(s[1..], key, asc), key, asc, k);
    }
  }
}
