/** The string operations of Go's `strings` package that the engine relies on. */
module Text {

  /** `sub` occurs in `s` at position `i`. */
  predicate At(s: string, sub: string, i: int) {
    0 <= i <= |s| - |sub| && s[i..i + |sub|] == sub
  }

  /** strings.Index, looking from position `i` on: the first occurrence, or -1. */
  function IndexFrom(s: string, sub: string, i: nat): (k: int)
    ensures k == -1 || (i <= k && At(s, sub, k))
    ensures forall j :: i <= j && At(s, sub, j) ==> 0 <= k <= j
    decreases |s| - i
  {
    if i + |sub| > |s| then -1
    else if At(s, sub, i) then i
    else IndexFrom(s, sub, i + 1)
  }

  function Index(s: string, sub: string): (k: int)
    ensures k == -1 || At(s, sub, k)
    ensures forall j :: At(s, sub, j) ==> 0 <= k <= j
  {
    IndexFrom(s, sub, 0)
  }

  /** An index is determined by being the first occurrence. */
  lemma IndexIsFirst(s: string, sub: string, k: int)
    requires At(s, sub, k)
    requires forall j :: 0 <= j < k ==> !At(s, sub, j)
    ensures Index(s, sub) == k
  {
    var i := Index(s, sub);
    assert 0 <= i <= k;
  }

  predicate Contains(s: string, sub: string) {
    Index(s, sub) >= 0
  }

  predicate HasPrefix(s: string, prefix: string) {
    |prefix| <= |s| && s[..|prefix|] == prefix
  }

  /** unicode.IsSpace. */
  predicate IsSpace(c: char) {
    || '\t' <= c <= '\r' || c == ' ' || c == '\U{0085}' || c == '\U{00A0}' || c == '\U{1680}'
    || '\U{2000}' <= c <= '\U{200A}' || c == '\U{2028}' || c == '\U{2029}' || c == '\U{202F}'
    || c == '\U{205F}' || c == '\U{3000}'
  }

  function TrimLeft(s: string): string {
    if s != "" && IsSpace(s[0]) then TrimLeft(s[1..]) else s
  }

  function TrimRight(s: string): string {
    if s != "" && IsSpace(s[|s| - 1]) then TrimRight(s[..|s| - 1]) else s
  }

  function TrimSpace(s: string): string {
    TrimRight(TrimLeft(s))
  }

  /** strings.Split on a one-character separator: always at least one part. */
  function Split(s: string, sep: char): (parts: seq<string>)
    ensures |parts| >= 1
  {
    var k := Index(s, [sep]);
    if k < 0 then [s] else [s[..k]] + Split(s[k + 1..], sep)
  }

  lemma AtOne(s: string, c: char, i: int)
    ensures At(s, [c], i) <==> 0 <= i < |s| && s[i] == c
  {
    if 0 <= i < |s| {
      assert s[i..i + 1] == [s[i]];
    }
  }

  /** Splitting `a`, the separator and `b`, where `a` has no separator. */
  lemma SplitHead(a: string, sep: char, b: string)
    requires sep !in a
    ensures Split(a + [sep] + b, sep) == [a] + Split(b, sep)
  {
    var s := a + [sep] + b;
    forall j ensures At(s, [sep], j) ==> |a| <= j {
      AtOne(s, sep, j);
    }
    AtOne(s, sep, |a|);
    IndexIsFirst(s, [sep], |a|);
    assert s[..|a|] == a && s[|a| + 1..] == b;
  }

  lemma SplitLast(a: string, sep: char)
    requires sep !in a
    ensures Split(a, sep) == [a]
  {
    AtOne(a, sep, Index(a, [sep]));
  }

  lemma TrimKeeps(s: string)
    requires s != "" && !IsSpace(s[0]) && !IsSpace(s[|s| - 1])
    ensures TrimSpace(s) == s
  {
  }

  predicate AllSpace(s: string) {
    forall i :: 0 <= i < |s| ==> IsSpace(s[i])
  }

  lemma {:induction false} TrimLeftMeans(s: string) returns (front: string)
    ensures s == front + TrimLeft(s) && AllSpace(front)
    ensures TrimLeft(s) == "" || !IsSpace(TrimLeft(s)[0])
  {
    hide IsSpace;
    if s != "" && IsSpace(s[0]) {
      front := TrimLeftMeans(s[1..]);
      front := [s[0]] + front;
    } else {
      front := "";
    }
  }

  lemma {:induction false} TrimRightMeans(s: string) returns (back: string)
    ensures s == TrimRight(s) + back && AllSpace(back)
    ensures TrimRight(s) == "" || !IsSpace(TrimRight(s)[|TrimRight(s)| - 1])
  {
    hide IsSpace;
    if s != "" && IsSpace(s[|s| - 1]) {
      back := TrimRightMeans(s[..|s| - 1]);
      back := back + [s[|s| - 1]];
    } else {
      back := "";
    }
  }

  /** Trimming takes away the space at both ends and nothing else. */
  lemma TrimMeans(s: string) returns (front: string, back: string)
    ensures s == front + TrimSpace(s) + back && AllSpace(front) && AllSpace(back)
    ensures var t := TrimSpace(s); t == "" || (!IsSpace(t[0]) && !IsSpace(t[|t| - 1]))
  {
    hide IsSpace;
    front := TrimLeftMeans(s);
    back := TrimRightMeans(TrimLeft(s));
  }

  /** Occurrences of a character. */
  function Count(s: string, c: char): nat {
    if s == "" then 0 else (if s[0] == c then 1 else 0) + Count(s[1..], c)
  }

  lemma {:induction false} CountConcat(a: string, b: string, c: char)
    ensures Count(a + b, c) == Count(a, c) + Count(b, c)
  {
    if a == "" {
      assert a + b == b;
    } else {
      CountConcat(a[1..], b, c);
      assert (a + b)[1..] == a[1..] + b;
    }
  }
}
