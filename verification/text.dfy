/** Small string and sequence helpers shared by the components. */
module Text {
  import opened Wrappers

  /** JavaScript truthiness of a string that may be undefined or null: present and not empty. */
  predicate Truthy(v: Option<string>)
  {
    v.Some? && v.value != ""
  }

  /** JavaScript's `s.startsWith(prefix)`. */
  predicate StartsWith(s: string, prefix: string)
  {
    |prefix| <= |s| && s[..|prefix|] == prefix
  }

  /** Number of occurrences of `x` in `s`. */
  function CountOf<T(==)>(s: seq<T>, x: T): nat
  {
    if s == [] then 0 else (if s[0] == x then 1 else 0) + CountOf(s[1..], x)
  }

  /** Position of the first occurrence of `x` in `s`, or `|s|` when there is none. */
  function IndexOf<T(==)>(s: seq<T>, x: T): (i: nat)
    ensures i <= |s|
    ensures i < |s| <==> x in s
    ensures i < |s| ==> s[i] == x
    ensures x !in s[..i]
  {
    if s == [] then 0
    else if s[0] == x then 0
    else
      var j := IndexOf(s[1..], x);
      assert s[..j + 1] == [s[0]] + s[1..][..j];
      j + 1
  }

  lemma {:induction false} CountOfAppend<T>(a: seq<T>, b: seq<T>, x: T)
    ensures CountOf(a + b, x) == CountOf(a, x) + CountOf(b, x)
  {
    if a == [] {
      assert a + b == b;
    } else {
      assert (a + b)[1..] == a[1..] + b;
      CountOfAppend(a[1..], b, x);
    }
  }

  lemma {:induction false} CountOfZero<T>(s: seq<T>, x: T)
    ensures CountOf(s, x) == 0 <==> x !in s
  {
    if s != [] {
      CountOfZero(s[1..], x);
      assert s == [s[0]] + s[1..];
    }
  }

  /** Where `x` first occurs in `a + b`. */
  lemma {:induction false} IndexOfAppend<T>(a: seq<T>, b: seq<T>, x: T)
    ensures x in a ==> IndexOf(a + b, x) == IndexOf(a, x)
    ensures x !in a ==> IndexOf(a + b, x) == |a| + IndexOf(b, x)
  {
    if a != [] {
      assert (a + b)[1..] == a[1..] + b;
      IndexOfAppend(a[1..], b, x);
    } else {
      assert a + b == b;
    }
  }
}
