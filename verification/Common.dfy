/** Small shared vocabulary: optional values and results. */
module Common {

  datatype Option<+T> = None | Some(value: T)

  datatype Result<+T, +E> = Ok(value: T) | Err(error: E)

  function Min(a: int, b: int): int {
    if a < b then a else b
  }

  function Last<T>(s: seq<T>): T
    requires |s| > 0
  {
    s[|s| - 1]
  }

  function Front<T>(s: seq<T>): seq<T>
    requires |s| > 0
  {
    s[..|s| - 1]
  }

  lemma SliceSplits<T>(s: seq<T>, k: nat, m: nat)
    requires k <= m <= |s|
    ensures s[k..] == s[k..m] + s[m..]
  {
  }

  lemma SamePrefix<T>(a: seq<T>, x: seq<T>, y: seq<T>)
    ensures a + x == a + y <==> x == y
  {
    assert (a + x)[|a|..] == x && (a + y)[|a|..] == y;
  }

  lemma PrefixPlus<T>(a: seq<T>, x: seq<T>, y: seq<T>)
    requires x <= y
    ensures a + x <= a + y
  {
    assert a + y == (a + x) + y[|x|..];
  }

  lemma PrefixSlice<T>(a: seq<T>, b: seq<T>, k: nat, m: nat)
    requires a <= b && k < m <= |a|
    ensures a[k..m] == b[k..m] && a[k] == b[k] && a[m - 1] == b[m - 1]
    ensures k > 0 ==> a[k - 1] == b[k - 1]
  {
  }

  lemma SliceTake<T>(s: seq<T>, k: nat, p: seq<T>)
    requires k <= |s| && p <= s[k..]
    ensures k + |p| <= |s| && p == s[k..k + |p|]
  {
  }
}
