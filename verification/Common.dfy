/** What several components need: optional values, sizes of sets, cutting a string
    at a separator, and division with remainder. */
module Common {
  datatype Option<+T> = None | Some(value: T)

  lemma {:induction false} SubsetSize<T>(a: set<T>, b: set<T>)
    requires a <= b
    ensures |a| <= |b|
    decreases a
  {
    if a != {} {
      var x :| x in a;
      SubsetSize(a - {x}, b - {x});
    }
  }

  /** Two cuts at the first separator of the same string are the same cut. */
  lemma FirstBreak(a: string, b: string, x: string, y: string, sep: char)
    requires a + [sep] + x == b + [sep] + y && sep !in a && sep !in b
    ensures a == b && x == y
  {
    var s := a + [sep] + x;
    assert s[|a|] == sep && s[|b|] == sep;
    assert forall i :: 0 <= i < |a| ==> s[i] == a[i];
    assert forall i :: 0 <= i < |b| ==> s[i] == b[i];
    assert a == s[..|a|] && b == s[..|b|];
    assert x == s[|a| + 1..] && y == s[|b| + 1..];
  }

  /** And two cuts at the last separator. */
  lemma LastBreak(a: string, b: string, x: string, y: string, sep: char)
    requires a + ([sep] + x) == b + ([sep] + y) && sep !in x && sep !in y
    ensures a == b && x == y
  {
    var s := a + ([sep] + x);
    assert s[|a|] == sep && s[|b|] == sep;
    assert forall i :: |a| < i < |s| ==> s[i] == x[i - |a| - 1];
    assert forall i :: |b| < i < |s| ==> s[i] == y[i - |b| - 1];
    assert a == s[..|a|] && b == s[..|b|];
    assert x == s[|a| + 1..] && y == s[|b| + 1..];
  }

  lemma NoMultiple(d: int, m: int, difference: int)
    requires m > 0 && d * m == difference && -m < difference < m
    ensures d == 0
  {
  }

  /** Quotient and remainder are unique. */
  lemma Division(k: int, s: int, m: int)
    requires 0 <= s < m
    ensures (k * m + s) / m == k && (k * m + s) % m == s
  {
    var x := k * m + s;
    assert x == (x / m) * m + x % m;
    NoMultiple(x / m - k, m, s - x % m);
  }
}
