/** Go's functions on strings, and sort.Slice by its contract. */
module Strings {
  import opened Types

  /** The position of the first occurrence, or the length. */
  function IndexOf(s: string, c: char): (n: nat)
    ensures n <= |s| && c !in s[..n] && (n < |s| ==> s[n] == c)
  {
    if s == "" || s[0] == c then 0
    else
      var n := IndexOf(s[1..], c) + 1;
      assert s[..n] == [s[0]] + s[1..][..n - 1];
      n
  }

  lemma {:induction false} IndexOfFirst(a: string, c: char, b: string)
    requires c !in a
    ensures IndexOf(a + [c] + b, c) == |a|
  {
    if a != "" {
      IndexOfFirst(a[1..], c, b);
      assert (a + [c] + b)[1..] == a[1..] + [c] + b;
    }
  }

  /** strconv.ParseBool. */
  function ParseBool(s: string): Option<bool> {
    if s == "1" || s == "t" || s == "T" || s == "true" || s == "TRUE" || s == "True" then Some(true)
    else if s == "0" || s == "f" || s == "F" || s == "false" || s == "FALSE" || s == "False" then Some(false)
    else None
  }

  /** The `<` of Go strings. On valid UTF-8 the order of bytes is the order of code points. */
  predicate Less(a: string, b: string) {
    b != "" && (a == "" || a[0] < b[0] || (a[0] == b[0] && Less(a[1..], b[1..])))
  }

  /** The first difference decides, and a proper prefix comes first. */
  lemma {:induction false} LessIff(a: string, b: string)
    ensures Less(a, b) <==> exists n: nat :: n <= |a| && n < |b| && a[..n] == b[..n] && (n == |a| || a[n] < b[n])
    decreases |a|
  {
    if a != "" && b != "" && a[0] == b[0] {
      LessIff(a[1..], b[1..]);
      if n: nat :| n <= |a| && n < |b| && a[..n] == b[..n] && (n == |a| || a[n] < b[n]) {
        assert a[1..][..n - 1] == a[..n][1..] && b[1..][..n - 1] == b[..n][1..];
      }
      if n: nat :| n < |a| && n + 1 < |b| && a[1..][..n] == b[1..][..n] && (n + 1 == |a| || a[n + 1] < b[n + 1]) {
        assert a[..n + 1] == [a[0]] + a[1..][..n] && b[..n + 1] == [b[0]] + b[1..][..n];
      }
    } else if Less(a, b) {
      assert a[..0] == b[..0];
    }
  }

  lemma LessAsymmetric(a: string, b: string)
    ensures Less(a, b) ==> !Less(b, a)
  {
  }

  lemma LessTotal(a: string, b: string)
    ensures Less(a, b) || Less(b, a) || a == b
  {
    if a != "" && b != "" && a[0] == b[0] {
      LessTotal(a[1..], b[1..]);
      assert a == [a[0]] + a[1..] && b == [b[0]] + b[1..];
    }
  }

  lemma LessTransitive(a: string, b: string, c: string)
    requires Less(a, b) && Less(b, c)
    ensures Less(a, c)
  {
  }

  lemma LessWeak(a: string, b: string, c: string)
    requires !Less(a, b) && !Less(b, c)
    ensures !Less(a, c)
  {
    LessTotal(a, b);
    LessTotal(b, c);
    if b != a && c != b {
      LessTransitive(c, b, a);
    }
    LessAsymmetric(a, c);
    LessAsymmetric(a, b);
  }

  /** What sort.Slice asks of its less function. */
  ghost predicate StrictWeak<T(!new)>(less: (T, T) -> bool) {
    && (forall x, y :: less(x, y) ==> !less(y, x))
    && (forall x, y, z :: !less(x, y) && !less(y, z) ==> !less(x, z))
  }

  ghost predicate Sorted<T>(s: seq<T>, less: (T, T) -> bool) {
    forall i, j | 0 <= i < j < |s| :: !less(s[j], s[i])
  }

  function Inserted<T>(s: seq<T>, x: T, less: (T, T) -> bool): seq<T> {
    if s == [] then [x]
    else if less(x, s[0]) then [x] + s
    else [s[0]] + Inserted(s[1..], x, less)
  }

  lemma ConsIsSorted<T(!new)>(x: T, s: seq<T>, less: (T, T) -> bool)
    requires Sorted(s, less) && forall y | y in s :: !less(y, x)
    ensures Sorted([x] + s, less) && multiset([x] + s) == multiset(s) + multiset{x}
  {
  }

  lemma BelowFirst<T(!new)>(s: seq<T>, x: T, y: T, less: (T, T) -> bool)
    requires StrictWeak(less) && Sorted(s, less) && s != [] && less(x, s[0]) && y in s
    ensures !less(y, x)
  {
    var i :| 0 <= i < |s| && s[i] == y;
    assert i > 0 ==> !less(y, s[0]);
    assert !less(s[0], x);
    assert less(y, x) ==> !less(x, y);
  }

  lemma {:induction false} InsertedIsSorted<T(!new)>(s: seq<T>, x: T, less: (T, T) -> bool)
    requires StrictWeak(less) && Sorted(s, less)
    ensures Sorted(Inserted(s, x, less), less)
    ensures multiset(Inserted(s, x, less)) == multiset(s) + multiset{x}
  {
    if s != [] {
      assert s == [s[0]] + s[1..];
      if !less(x, s[0]) {
        var rest := Inserted(s[1..], x, less);
        InsertedIsSorted(s[1..], x, less);
        forall y | y in rest ensures !less(y, s[0]) {
          assert y in multiset(rest);
          assert y == x || y in s[1..];
        }
        ConsIsSorted(s[0], rest, less);
      } else {
        forall y | y in s ensures !less(y, x) {
          BelowFirst(s, x, y, less);
        }
        ConsIsSorted(x, s, less);
      }
    }
  }

  /** Sorts with the guarantees of sort.Slice: a permutation in order, equal elements in any order. */
  method SortSlice<T(!new)>(s: seq<T>, less: (T, T) -> bool) returns (r: seq<T>)
    requires StrictWeak(less)
    ensures multiset(r) == multiset(s) && Sorted(r, less)
  {
    r := [];
    for n := 0 to |s|
      invariant multiset(r) == multiset(s[..n]) && Sorted(r, less)
    {
      assert s[..n + 1] == s[..n] + [s[n]];
      InsertedIsSorted(r, s[n], less);
      r := Inserted(r, s[n], less);
    }
    assert s[..|s|] == s;
  }
}
