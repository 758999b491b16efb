/** What several parts use. */
module Common {

  datatype Option<T> = None | Some(value: T)

  predicate NoTwice<T(==)>(s: seq<T>) { s == [] || (s[0] !in s[1..] && NoTwice(s[1..])) }

  lemma {:induction false} NoTwiceMiddle<T>(a: seq<T>, r: T, b: seq<T>)
    requires NoTwice(a + b) && r !in a + b
    ensures NoTwice(a + [r] + b)
  {
    if a == [] {
      assert a + [r] + b == [r] + b && a + b == b;
    } else {
      assert (a + b)[1..] == a[1..] + b;
      NoTwiceMiddle(a[1..], r, b);
      assert (a + [r] + b)[1..] == a[1..] + [r] + b;
      assert a[0] in a && a[0] !in a[1..] + b;
    }
  }

  /** `n` consecutive addresses. */
  function Range(a: int, n: nat): seq<int> { seq(n, i => a + i) }

  function Zeros(n: nat): seq<bool> { seq(n, _ => false) }
}
