/**
 * The order `Array.prototype.sort` is asked for by the list routes: the value of one field,
 * compared with JavaScript's `<` and `>`, ascending or descending. The model sorts by stable
 * insertion; the routes' comparator never answers "equal", so the order they give to items
 * with equal keys is left to the JavaScript engine and is not claimed here.
 */
module Ordering {

  /** The value of the sort field: numbers (also dates and booleans) or strings. */
  datatype Key = Num(n: int) | Str(s: string)

  /** JavaScript's `a <= b` on strings: lexicographic by character. */
  predicate StrLe(a: string, b: string)
    decreases |a|
  {
    a == [] || (b != [] && (a[0] < b[0] || (a[0] == b[0] && StrLe(a[1..], b[1..]))))
  }

  /**
   * The total preorder used to sort. A field always gives keys of one kind; numbers are put
   * before strings only so that the order is total.
   */
  predicate KeyLe(a: Key, b: Key) {
    match (a, b)
    case (Num(x), Num(y)) => x <= y
    case (Str(x), Str(y)) => StrLe(x, y)
    case (Num(_), Str(_)) => true
    case (Str(_), Num(_)) => false
  }

  lemma {:induction false} StrLeTotal(a: string, b: string)
    ensures StrLe(a, b) || StrLe(b, a)
  {
    if a != [] && b != [] && a[0] == b[0] {
      StrLeTotal(a[1..], b[1..]);
    }
  }

  lemma {:induction false} StrLeTransitive(a: string, b: string, c: string)
    requires StrLe(a, b) && StrLe(b, c)
    ensures StrLe(a, c)
  {
    if a != [] && b != [] && c != [] && a[0] == b[0] == c[0] {
      StrLeTransitive(a[1..], b[1..], c[1..]);
    }
  }

  lemma {:induction false} StrLeAntisymmetric(a: string, b: string)
    requires StrLe(a, b) && StrLe(b, a)
    ensures a == b
  {
    if a != [] && b != [] {
      StrLeAntisymmetric(a[1..], b[1..]);
      assert a == [a[0]] + a[1..] && b == [b[0]] + b[1..];
    }
  }

  lemma KeyLeTotal(a: Key, b: Key)
    ensures KeyLe(a, b) || KeyLe(b, a)
  {
    if a.Str? && b.Str? {
      StrLeTotal(a.s, b.s);
    }
  }

  lemma KeyLeTransitive(a: Key, b: Key, c: Key)
    requires KeyLe(a, b) && KeyLe(b, c)
    ensures KeyLe(a, c)
  {
    if a.Str? && b.Str? && c.Str? {
      StrLeTransitive(a.s, b.s, c.s);
    }
  }

  /** `a` may stand before `b` in a list sorted in the given direction. */
  predicate Precedes(a: Key, b: Key, ascending: bool) {
    if ascending then KeyLe(a, b) else KeyLe(b, a)
  }

  lemma PrecedesTotal(a: Key, b: Key, ascending: bool)
    ensures Precedes(a, b, ascending) || Precedes(b, a, ascending)
  {
    KeyLeTotal(a, b);
  }

  lemma PrecedesTransitive(a: Key, b: Key, c: Key, ascending: bool)
    requires Precedes(a, b, ascending) && Precedes(b, c, ascending)
    ensures Precedes(a, c, ascending)
  {
    if ascending {
      KeyLeTransitive(a, b, c);
    } else {
      KeyLeTransitive(c, b, a);
    }
  }

  ghost predicate SortedBy<T>(s: seq<T>, key: T -> Key, ascending: bool) {
    forall i, j :: 0 <= i < j < |s| ==> Precedes(key(s[i]), key(s[j]), ascending)
  }

  /** Places `x` before the first element it may precede. */
  function Insert<T>(x: T, s: seq<T>, key: T -> Key, ascending: bool): (r: seq<T>)
    ensures |r| == |s| + 1
    ensures multiset(r) == multiset(s) + multiset{x}
  {
    if s == [] || Precedes(key(x), key(s[0]), ascending) then [x] + s
    else
      assert s == [s[0]] + s[1..];
      [s[0]] + Insert(x, s[1..], key, ascending)
  }

  /** `filteredData.sort(...)` by the key, in the given direction (stable insertion sort). */
  function SortBy<T>(s: seq<T>, key: T -> Key, ascending: bool): (r: seq<T>)
    ensures |r| == |s|
    ensures multiset(r) == multiset(s)
  {
    if s == [] then []
    else
      assert s == [s[0]] + s[1..];
      Insert(s[0], SortBy(s[1..], key, ascending), key, ascending)
  }

  lemma {:induction false} InsertSorted<T>(x: T, s: seq<T>, key: T -> Key, ascending: bool)
    requires SortedBy(s, key, ascending)
    ensures SortedBy(Insert(x, s, key, ascending), key, ascending)
  {
    var r := Insert(x, s, key, ascending);
    if s == [] {
    } else if Precedes(key(x), key(s[0]), ascending) {
      forall j | 0 < j < |r|
        ensures Precedes(key(r[0]), key(r[j]), ascending)
      {
        if j > 1 {
          PrecedesTransitive(key(x), key(s[0]), key(r[j]), ascending);
        }
      }
    } else {
      PrecedesTotal(key(x), key(s[0]), ascending);
      InsertSorted(x, s[1..], key, ascending);
      var tail := Insert(x, s[1..], key, ascending);
      assert r == [s[0]] + tail;
      forall j | 0 <= j < |tail|
        ensures Precedes(key(s[0]), key(tail[j]), ascending)
      {
        assert tail[j] in multiset(tail);
        if tail[j] != x {
          assert tail[j] in multiset(s[1..]);
          var k :| 0 <= k < |s[1..]| && s[1..][k] == tail[j];
          assert s[k + 1] == tail[j];
        }
      }
    }
  }

  lemma {:induction false} SortBySorted<T>(s: seq<T>, key: T -> Key, ascending: bool)
    ensures SortedBy(SortBy(s, key, ascending), key, ascending)
  {
    if s != [] {
      SortBySorted(s[1..], key, ascending);
      InsertSorted(s[0], SortBy(s[1..], key, ascending), key, ascending);
    }
  }

  /**
   * With this model's stable tie-break, sorting a list that is already in order leaves it as it is.
   * The route's comparator gives equal keys no defined order, so this is a property of the model's sort.
   */
  lemma {:induction false} SortBySortedIsIdentity<T>(s: seq<T>, key: T -> Key, ascending: bool)
    requires SortedBy(s, key, ascending)
    ensures SortBy(s, key, ascending) == s
  {
    if s != [] {
      SortBySortedIsIdentity(s[1..], key, ascending);
      assert s == [s[0]] + s[1..];
    }
  }

  /** With this model's stable tie-break, sorting twice is sorting once. */
  lemma SortByIdempotent<T>(s: seq<T>, key: T -> Key, ascending: bool)
    ensures SortBy(SortBy(s, key, ascending), key, ascending) == SortBy(s, key, ascending)
  {
    SortBySorted(s, key, ascending);
    SortBySortedIsIdentity(SortBy(s, key, ascending), key, ascending);
  }

  /** Sorting neither adds nor loses elements. */
  lemma SortByMembers<T>(s: seq<T>, key: T -> Key, ascending: bool)
    ensures forall k :: 0 <= k < |SortBy(s, key, ascending)| ==> SortBy(s, key, ascending)[k] in s
  {
    var r := SortBy(s, key, ascending);
    forall k | 0 <= k < |r|
      ensures r[k] in s
    {
      assert r[k] in multiset(r);
    }
  }

  /** A contiguous piece of a sorted list is sorted. */
  lemma SortedSlice<T>(s: seq<T>, a: nat, b: nat, key: T -> Key, ascending: bool)
    requires a <= b <= |s| && SortedBy(s, key, ascending)
    ensures SortedBy(s[a..b], key, ascending)
  {
    forall i, j | 0 <= i < j < b - a
      ensures Precedes(key(s[a..b][i]), key(s[a..b][j]), ascending)
    {
      assert s[a..b][i] == s[a + i] && s[a..b][j] == s[a + j];
    }
  }
}
