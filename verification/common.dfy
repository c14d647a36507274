/** Values shared by every part of the model: optional and fallible results,
    JavaScript truthiness of optional strings, and the substring search that
    `String.prototype.includes` performs. */
module Common {

  /** `None` stands for a JavaScript `undefined` or `null`. */
  datatype Option<+T> = None | Some(value: T)

  /** A value or the error a JavaScript function would have thrown. */
  datatype Result<+T, +E> = Success(value: T) | Failure(error: E)

  /** A loosely typed field that is expected to hold a string is truthy in
      JavaScript exactly when it is present and non-empty. */
  predicate Truthy(o: Option<string>) {
    o.Some? && o.value != ""
  }

  /** The first of two optional strings if it is truthy, else the second:
      JavaScript's `||` on them. */
  function Or(a: Option<string>, b: Option<string>): (r: Option<string>)
    ensures Truthy(r) <==> Truthy(a) || Truthy(b)
    ensures r == a || r == b
  {
    if Truthy(a) then a else b
  }

  /** The optional string if it is truthy, else the default string. */
  function OrDefault(a: Option<string>, d: string): (r: string)
    ensures d != "" ==> r != ""
    ensures Truthy(a) ==> r == a.value
    ensures !Truthy(a) ==> r == d
  {
    if Truthy(a) then a.value else d
  }

  predicate StartsWith(s: string, prefix: string) {
    |prefix| <= |s| && s[..|prefix|] == prefix
  }

  /** `p + s` starts with `p`, and what follows `p` is `s`. */
  lemma StartsWithAppend(p: string, s: string)
    ensures StartsWith(p + s, p) && (p + s)[|p|..] == s
  {
    assert (p + s)[..|p|] == p;
  }

  /** A string that starts with `p` is `p` followed by the rest. */
  lemma SplitAfterPrefix(s: string, p: string)
    requires StartsWith(s, p)
    ensures s == p + s[|p|..]
  {
    assert s == s[..|p|] + s[|p|..];
  }

  /** One differing character rules a prefix out. */
  lemma NotStartsWithAt(s: string, p: string, k: nat)
    requires k < |p| && k < |s| && s[k] != p[k]
    ensures !StartsWith(s, p)
  {
    if |p| <= |s| {
      assert s[..|p|][k] != p[k];
    }
  }

  /** `s.includes(t)`: some suffix of `s` starts with `t`. */
  predicate Contains(s: string, t: string)
    decreases |s|
  {
    StartsWith(s, t) || (|s| > 0 && Contains(s[1..], t))
  }

  lemma PrefixIsContained(s: string, t: string)
    requires StartsWith(s, t)
    ensures Contains(s, t)
  {
  }

  /** No position of `s` holds the character `x` directly followed by `y`. */
  ghost predicate NoPairIn(s: string, x: char, y: char) {
    forall k :: 0 <= k < |s| - 1 ==> !(s[k] == x && s[k + 1] == y)
  }

  /** A string in which the first two characters of `t` never appear next to
      each other cannot contain `t`. */
  lemma {:induction false} NoPairNotContained(s: string, t: string)
    requires |t| >= 2
    requires NoPairIn(s, t[0], t[1])
    ensures !Contains(s, t)
    decreases |s|
  {
    if |s| > 0 {
      assert !StartsWith(s, t) by {
        if |t| <= |s| {
          assert s[..|t|][0] == s[0];
          assert s[..|t|][1] == s[1];
        }
      }
      NoPairNotContained(s[1..], t);
    }
  }

  /** Appending text free of `x` after a text that does not end in `x`
      introduces no `x`-`y` pair. */
  lemma NoPairAppend(a: string, b: string, x: char, y: char)
    requires NoPairIn(a, x, y) && |a| > 0 && a[|a| - 1] != x
    requires forall i :: 0 <= i < |b| ==> b[i] != x
    ensures NoPairIn(a + b, x, y)
  {
    var m := a + b;
    forall k | 0 <= k < |m| - 1
      ensures !(m[k] == x && m[k + 1] == y)
    {
      if k < |a| - 1 {
        assert m[k] == a[k] && m[k + 1] == a[k + 1];
      } else if k == |a| - 1 {
        assert m[k] == a[k];
      } else {
        assert m[k] == b[k - |a|];
      }
    }
  }

  /** `response.ok` of the Fetch API: a status in the 2xx range. */
  predicate IsOkStatus(status: nat) {
    200 <= status <= 299
  }

  predicate IsDigit(c: char) {
    '0' <= c <= '9'
  }

  function DigitValue(c: char): nat
    requires IsDigit(c)
  {
    c as int - '0' as int
  }

  /** The number a string of decimal digits denotes, most significant digit
      first; the reference that `DecimalString` is checked against. */
  function DigitsValue(s: string): nat
    requires forall i :: 0 <= i < |s| ==> IsDigit(s[i])
  {
    if s == [] then 0
    else 10 * DigitsValue(s[..|s| - 1]) + DigitValue(s[|s| - 1])
  }

  /** The decimal text JavaScript produces when it interpolates a
      non-negative integer into a template string: digits only, no leading
      zero, and reading it back gives the number. */
  function DecimalString(n: nat): (r: string)
    ensures |r| > 0
    ensures forall i :: 0 <= i < |r| ==> IsDigit(r[i])
    ensures n < 10 <==> |r| == 1
    ensures r[0] == '0' ==> n == 0
    ensures DigitsValue(r) == n
  {
    if n < 10 then ["0123456789"[n]]
    else DecimalString(n / 10) + ["0123456789"[n % 10]]
  }
}
