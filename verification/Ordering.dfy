/** Sorting by a time and then an ID, as sort.Slice is used throughout the code base. */
module Ordering {

  /** Go's `<` on strings. */
  predicate TextBefore(a: string, b: string) {
    if b == "" then false
    else if a == "" then true
    else a[0] < b[0] || (a[0] == b[0] && TextBefore(a[1..], b[1..]))
  }

  /** Either a proper prefix comes first, or the smaller character at the first difference. */
  lemma {:induction false} TextBeforeIff(a: string, b: string)
    ensures TextBefore(a, b) <==> exists k :: 0 <= k <= |a| && k < |b| && a[..k] == b[..k] && (k == |a| || a[k] < b[k])
  {
    if a != "" && b != "" && a[0] == b[0] {
      TextBeforeIff(a[1..], b[1..]);
      if k :| 0 <= k <= |a| - 1 && k < |b| - 1 && a[1..][..k] == b[1..][..k] && (k == |a| - 1 || a[1..][k] < b[1..][k]) {
        assert a[..k + 1] == [a[0]] + a[1..][..k] && b[..k + 1] == [b[0]] + b[1..][..k];
        assert k + 1 == |a| || a[k + 1] < b[k + 1];
      }
      if k :| 0 <= k <= |a| && k < |b| && a[..k] == b[..k] && (k == |a| || a[k] < b[k]) {
        assert k > 0;
        assert a[1..][..k - 1] == a[..k][1..] && b[1..][..k - 1] == b[..k][1..];
        assert k - 1 == |a[1..]| || a[1..][k - 1] < b[1..][k - 1];
      }
    } else if b != "" {
      assert a[..0] == b[..0];
    }
  }

  lemma {:induction false} TextTotal(a: string, b: string)
    ensures TextBefore(a, b) || TextBefore(b, a) || a == b
  {
    if a != "" && b != "" && a[0] == b[0] {
      TextTotal(a[1..], b[1..]);
      assert a == [a[0]] + a[1..] && b == [b[0]] + b[1..];
    }
  }

  lemma {:induction false} TextStrict(a: string, b: string)
    ensures !(TextBefore(a, b) && TextBefore(b, a))
    ensures !TextBefore(a, a)
    decreases |a| + |b|
  {
    if a != "" {
      if b != "" {
        TextStrict(a[1..], b[1..]);
      } else {
        TextStrict(a[1..], b);
      }
    }
  }

  lemma {:induction false} TextTransitive(a: string, b: string, c: string)
    requires TextBefore(a, b) && TextBefore(b, c)
    ensures TextBefore(a, c)
  {
    if a != "" && a[0] == b[0] == c[0] {
      TextTransitive(a[1..], b[1..], c[1..]);
    }
  }

  datatype Key = Key(time: int, id: string)

  predicate Before(a: Key, b: Key) {
    a.time < b.time || (a.time == b.time && TextBefore(a.id, b.id))
  }

  lemma BeforeTotal(a: Key, b: Key)
    ensures Before(a, b) || Before(b, a) || a == b
    ensures !(Before(a, b) && Before(b, a)) && !Before(a, a)
  {
    TextTotal(a.id, b.id);
    TextStrict(a.id, b.id);
  }

  lemma BeforeTransitive(a: Key, b: Key, c: Key)
    requires Before(a, b) && Before(b, c)
    ensures Before(a, c)
  {
    if a.time == b.time == c.time {
      TextTransitive(a.id, b.id, c.id);
    }
  }

  datatype Direction = Upward | Downward

  /** The comparison handed to sort.Slice. */
  predicate Precedes(dir: Direction, a: Key, b: Key) {
    if dir == Upward then Before(a, b) else Before(b, a)
  }

  lemma PrecedesTotal(dir: Direction, a: Key, b: Key)
    ensures Precedes(dir, a, b) || Precedes(dir, b, a) || a == b
    ensures !(Precedes(dir, a, b) && Precedes(dir, b, a)) && !Precedes(dir, a, a)
  {
    BeforeTotal(a, b);
    BeforeTotal(a, a);
  }

  lemma PrecedesTransitive(dir: Direction, a: Key, b: Key, c: Key)
    requires Precedes(dir, a, b) && Precedes(dir, b, c)
    ensures Precedes(dir, a, c)
  {
    if dir == Upward {
      BeforeTransitive(a, b, c);
    } else {
      BeforeTransitive(c, b, a);
    }
  }

  ghost predicate DistinctKeys<T>(items: seq<T>, key: T -> Key) {
    forall i, j :: 0 <= i < j < |items| ==> key(items[i]) != key(items[j])
  }

  ghost predicate SortedBy<T>(dir: Direction, sorted: seq<T>, key: T -> Key) {
    forall i, j :: 0 <= i < j < |sorted| ==> Precedes(dir, key(sorted[i]), key(sorted[j]))
  }

  /** One sorted list per collection: the order in which a map was iterated is forgotten. */
  lemma {:induction false} SortedUnique<T>(dir: Direction, s: seq<T>, t: seq<T>, key: T -> Key)
    requires SortedBy(dir, s, key) && SortedBy(dir, t, key) && forall x :: x in s <==> x in t
    ensures s == t
  {
    assert |t| > 0 ==> t[0] in s;
    assert |s| > 0 ==> s[0] in t;
    if s != [] {
      HeadIsFirst(dir, s, key);
      HeadIsFirst(dir, t, key);
      PrecedesTotal(dir, key(s[0]), key(t[0]));
      assert s[0] == t[0];
      assert s == [s[0]] + s[1..] && t == [t[0]] + t[1..];
      forall x ensures x in s[1..] <==> x in t[1..] {
        assert x in s <==> x == s[0] || x in s[1..];
        assert x in t <==> x == t[0] || x in t[1..];
      }
      SortedUnique(dir, s[1..], t[1..], key);
    }
  }

  lemma HeadIsFirst<T>(dir: Direction, s: seq<T>, key: T -> Key)
    requires s != [] && SortedBy(dir, s, key)
    ensures s[0] !in s[1..] && forall x :: x in s ==> x == s[0] || Precedes(dir, key(s[0]), key(x))
  {
    PrecedesTotal(dir, key(s[0]), key(s[0]));
    hide Precedes;
    forall i | 1 <= i < |s| ensures Precedes(dir, key(s[0]), key(s[i])) && s[i] != s[0] {
    }
  }

  /** sort.Slice with a (time, ID) comparison, on items whose keys differ. */
  method Sort<T(==)>(dir: Direction, items: seq<T>, key: T -> Key) returns (sorted: seq<T>)
    requires DistinctKeys(items, key)
    ensures multiset(sorted) == multiset(items) && |sorted| == |items|
    ensures SortedBy(dir, sorted, key)
  {
    hide Precedes, SortedBy;
    sorted := [];
    SortedEmpty(dir, sorted, key);
    var i := 0;
    while i < |items|
      invariant 0 <= i <= |items| && |sorted| == i
      invariant multiset(sorted) == multiset(items[..i])
      invariant SortedBy(dir, sorted, key)
    {
      var x := items[i];
      assert items[..i + 1] == items[..i] + [x];
      forall y | y in sorted ensures key(y) != key(x) {
        assert y in multiset(sorted);
        assert y in items[..i];
      }
      var k := 0;
      while k < |sorted| && Precedes(dir, key(sorted[k]), key(x))
        invariant 0 <= k <= |sorted|
        invariant forall j :: 0 <= j < k ==> Precedes(dir, key(sorted[j]), key(x))
      {
        k := k + 1;
      }
      InsertKeepsOrder(dir, sorted, k, x, key);
      assert sorted == sorted[..k] + sorted[k..];
      sorted := sorted[..k] + [x] + sorted[k..];
      i := i + 1;
    }
    assert items[..i] == items;
  }

  lemma SortedEmpty<T>(dir: Direction, s: seq<T>, key: T -> Key)
    requires s == []
    ensures SortedBy(dir, s, key)
  {
  }

  lemma InsertKeepsOrder<T>(dir: Direction, sorted: seq<T>, k: nat, x: T, key: T -> Key)
    requires k <= |sorted| && SortedBy(dir, sorted, key)
    requires forall j :: 0 <= j < k ==> Precedes(dir, key(sorted[j]), key(x))
    requires k < |sorted| ==> !Precedes(dir, key(sorted[k]), key(x))
    requires forall y :: y in sorted ==> key(y) != key(x)
    ensures SortedBy(dir, sorted[..k] + [x] + sorted[k..], key)
  {
    hide Precedes;
    forall j | k <= j < |sorted| ensures Precedes(dir, key(x), key(sorted[j])) {
      assert sorted[k] in sorted;
      PrecedesTotal(dir, key(x), key(sorted[k]));
      if k < j {
        PrecedesTransitive(dir, key(x), key(sorted[k]), key(sorted[j]));
      }
    }
    var out := sorted[..k] + [x] + sorted[k..];
    forall i, j | 0 <= i < j < |out| ensures Precedes(dir, key(out[i]), key(out[j])) {
      assert out[i] == if i < k then sorted[i] else if i == k then x else sorted[i - 1];
      assert out[j] == if j < k then sorted[j] else if j == k then x else sorted[j - 1];
    }
  }
}
