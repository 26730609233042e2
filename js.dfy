/**
 * The pieces of JavaScript semantics the engine depends on, written out explicitly:
 * `||` on string fields, the truncating `%`, `parseInt`, `String(n)`, `split` and `join`.
 */
module Js {
  import opened Wrappers

  /** `a || b` on a string-valued field; "" stands for "", `null` and `undefined` alike. */
  function Or(a: string, b: string): string
  {
    if a != "" then a else b
  }

  // ---------------------------------------------------------------- numbers

  /**
   * JavaScript's `a % n` for a positive divisor: the remainder of the division truncated
   * toward zero, so it carries the sign of the dividend (Dafny's own `%` never is negative).
   */
  function Rem(a: int, n: int): (r: int)
    requires n > 0
    ensures -n < r < n
    ensures a >= 0 ==> r >= 0
    ensures a < 0 ==> r <= 0
  {
    if a >= 0 then a % n else -((-a) % n)
  }

  /**
   * Adding `n` to a negative JavaScript remainder yields the mathematical (Euclidean)
   * remainder, which is what the engine's wrap-around code computes.
   */
  lemma {:induction false} RemWrapIsEuclidean(a: int, n: int)
    requires n > 0
    ensures (if Rem(a, n) < 0 then Rem(a, n) + n else Rem(a, n)) == a % n
  {
    if a < 0 {
      var b := -a;
      var q := b / n;
      var m := b % n;
      assert b == q * n + m;
      if m == 0 {
        assert a == (-q) * n + 0;
        ModUnique(a, -q, n, 0);
      } else {
        assert a == (-q - 1) * n + (n - m);
        ModUnique(a, -q - 1, n, n - m);
      }
    }
  }

  lemma MulAtLeast(d: int, n: int)
    requires d >= 1 && n > 0
    ensures d * n >= n
  {
    assert d * n == (d - 1) * n + n;
    assert (d - 1) * n >= 0;
  }

  /** Euclidean division has a unique remainder. */
  lemma ModUnique(a: int, q: int, n: int, r: int)
    requires n > 0 && 0 <= r < n && a == q * n + r
    ensures a % n == r
  {
    var q' := a / n;
    var r' := a % n;
    assert a == q' * n + r';
    var d := q - q';
    assert d * n == q * n - q' * n;
    assert d * n == r' - r;
    if d >= 1 {
      MulAtLeast(d, n);
    } else if d <= -1 {
      MulAtLeast(-d, n);
    }
  }

  /**
   * `parseInt` applied to a number: its integer part, truncated toward zero.
   */
  function Trunc(x: real): (r: int)
    ensures 0.0 <= x ==> r as real <= x < r as real + 1.0
    ensures x < 0.0 ==> r as real - 1.0 < x <= r as real
  {
    if x >= 0.0 then x.Floor else -((-x).Floor)
  }

  // ---------------------------------------------------------------- decimal strings

  predicate IsDigit(c: char)
  {
    '0' <= c <= '9'
  }

  predicate AllDigits(s: string)
  {
    forall i :: 0 <= i < |s| ==> IsDigit(s[i])
  }

  function DigitChar(d: nat): (c: char)
    requires d < 10
    ensures IsDigit(c) && c as int - '0' as int == d
  {
    ('0' as int + d) as char
  }

  /** `String(n)` for a natural number: its decimal digits without leading zeros. */
  function NatToString(n: nat): (s: string)
    ensures 1 <= |s| && AllDigits(s)
    decreases n
  {
    if n < 10 then [DigitChar(n)] else NatToString(n / 10) + [DigitChar(n % 10)]
  }

  /** The number a string of decimal digits denotes. */
  function DigitsValue(s: string): nat
    requires AllDigits(s)
    decreases |s|
  {
    if s == [] then 0 else DigitsValue(s[..|s| - 1]) * 10 + (s[|s| - 1] as int - '0' as int)
  }

  /** The longest run of decimal digits at the start of `s`. */
  function LeadingDigits(s: string): (d: string)
    ensures d <= s && AllDigits(d)
    ensures |d| < |s| ==> !IsDigit(s[|d|])
    decreases |s|
  {
    if s != [] && IsDigit(s[0]) then [s[0]] + LeadingDigits(s[1..]) else []
  }

  /**
   * `parseInt(s)` on the unsigned decimal strings the engine builds: the value of the leading
   * digits, or `None` (NaN) when `s` does not start with a digit.
   */
  function ParseInt(s: string): Option<nat>
  {
    var d := LeadingDigits(s);
    if d == [] then None else Some(DigitsValue(d))
  }

  /**
   * `Number(s)` (the coercion `-`, `>` and `==` apply to a string) on the strings the engine
   * stores: a string of decimal digits denotes its value, "" denotes 0, anything else is NaN.
   */
  function ToNumber(s: string): Option<nat>
  {
    if AllDigits(s) then Some(DigitsValue(s)) else None
  }

  lemma {:induction false} LeadingDigitsOfDigits(s: string)
    requires AllDigits(s)
    ensures LeadingDigits(s) == s
    decreases |s|
  {
    if s != [] {
      LeadingDigitsOfDigits(s[1..]);
      assert [s[0]] + s[1..] == s;
    }
  }

  lemma {:induction false} DigitsValueOfNatToString(n: nat)
    ensures DigitsValue(NatToString(n)) == n
    decreases n
  {
    var s := NatToString(n);
    if n < 10 {
      assert s[..|s| - 1] == [];
    } else {
      DigitsValueOfNatToString(n / 10);
      assert s[..|s| - 1] == NatToString(n / 10);
    }
  }

  /** Reading back what `String(n)` wrote gives `n`. */
  lemma {:induction false} ParseIntNatToString(n: nat)
    ensures ParseInt(NatToString(n)) == Some(n)
  {
    LeadingDigitsOfDigits(NatToString(n));
    DigitsValueOfNatToString(n);
  }

  /** Coercing what `String(n)` wrote gives `n` back. */
  lemma ToNumberNatToString(n: nat)
    ensures ToNumber(NatToString(n)) == Some(n)
  {
    DigitsValueOfNatToString(n);
  }

  /** `String(n)` is injective, so distinct positions never share a decimal rendering. */
  lemma NatToStringInjective(m: nat, n: nat)
    requires NatToString(m) == NatToString(n)
    ensures m == n
  {
    ParseIntNatToString(m);
    ParseIntNatToString(n);
  }

  // ---------------------------------------------------------------- split and join

  /** `xs.join(sep)`. */
  function Join(xs: seq<string>, sep: string): string
    decreases |xs|
  {
    if |xs| == 0 then "" else if |xs| == 1 then xs[0] else xs[0] + sep + Join(xs[1..], sep)
  }

  /** `s.indexOf(sep)` for a non-empty `sep`, with `None` for -1. */
  function IndexOf(s: string, sep: string): (r: Option<nat>)
    requires |sep| > 0
    ensures r.Some? ==> r.value + |sep| <= |s| && s[r.value..r.value + |sep|] == sep
    decreases |s|
  {
    if |s| < |sep| then None
    else if s[..|sep|] == sep then Some(0)
    else match IndexOf(s[1..], sep)
      case None => None
      case Some(i) => Some(i + 1)
  }

  /** `s.split(sep)` for a non-empty separator. */
  function Split(s: string, sep: string): (parts: seq<string>)
    requires |sep| > 0
    ensures |parts| >= 1
    decreases |s|
  {
    match IndexOf(s, sep)
    case None => [s]
    case Some(i) => [s[..i]] + Split(s[i + |sep|..], sep)
  }

  lemma {:induction false} IndexOfAbsent(s: string, sep: string)
    requires |sep| > 0 && sep[0] !in s
    ensures IndexOf(s, sep) == None
    decreases |s|
  {
    if |s| >= |sep| {
      assert s[..|sep|][0] == s[0];
      IndexOfAbsent(s[1..], sep);
    }
  }

  lemma {:induction false} IndexOfAfter(a: string, sep: string, b: string)
    requires |sep| > 0 && sep[0] !in a
    ensures IndexOf(a + sep + b, sep) == Some(|a|)
    decreases |a|
  {
    var s := a + sep + b;
    if a == [] {
      assert s[..|sep|] == sep;
    } else {
      assert s[..|sep|][0] == a[0];
      assert s[1..] == a[1..] + sep + b;
      IndexOfAfter(a[1..], sep, b);
    }
  }

  /** Splitting at a first piece that holds no separator peels that piece off. */
  lemma SplitCons(a: string, sep: string, b: string)
    requires |sep| > 0 && sep[0] !in a
    ensures Split(a + sep + b, sep) == [a] + Split(b, sep)
  {
    IndexOfAfter(a, sep, b);
    var s := a + sep + b;
    assert s[..|a|] == a;
    assert s[|a| + |sep|..] == b;
  }

  lemma {:induction false} IndexOfExtended(a: string, t: string, sep: string)
    requires |sep| > 0 && IndexOf(a, sep).Some?
    ensures IndexOf(a + t, sep) == IndexOf(a, sep)
    decreases |a|
  {
    assert (a + t)[..|sep|] == a[..|sep|];
    if a[..|sep|] != sep {
      assert (a + t)[1..] == a[1..] + t;
      IndexOfExtended(a[1..], t, sep);
    }
  }

  lemma {:induction false} IndexOfNoneChar(s: string, sep: string)
    requires |sep| == 1 && IndexOf(s, sep).None?
    ensures sep[0] !in s
    decreases |s|
  {
    if |s| >= 1 {
      assert s[..1] != sep;
      assert s[..1] == [s[0]];
      IndexOfNoneChar(s[1..], sep);
      assert s == [s[0]] + s[1..];
    }
  }

  /** Splitting at a one-character separator before a last piece that holds none peels that piece off. */
  lemma {:induction false} SplitSnoc(a: string, sep: string, b: string)
    requires |sep| == 1 && sep[0] !in b
    ensures Split(a + sep + b, sep) == Split(a, sep) + [b]
    decreases |a|
  {
    var s := a + sep + b;
    var found := IndexOf(a, sep);
    if found.Some? {
      var i := found.value;
      IndexOfExtended(a, sep + b, sep);
      assert a + sep + b == a + (sep + b);
      assert s[..i] == a[..i];
      assert s[i + 1..] == a[i + 1..] + sep + b;
      SplitSnoc(a[i + 1..], sep, b);
    } else {
      IndexOfNoneChar(a, sep);
      SplitCons(a, sep, b);
      IndexOfAbsent(b, sep);
    }
  }

  /** Joining what `split` produced gives back the original string. */
  lemma {:induction false} JoinSplit(s: string, sep: string)
    requires |sep| > 0
    ensures Join(Split(s, sep), sep) == s
    decreases |s|
  {
    var found := IndexOf(s, sep);
    if found.Some? {
      var i := found.value;
      var rest := s[i + |sep|..];
      var ys := Split(rest, sep);
      assert Split(s, sep) == [s[..i]] + ys;
      JoinSplit(rest, sep);
      JoinCons(s[..i], ys, sep);
      ThreeSlices(s, i, sep);
    }
  }

  lemma ThreeSlices(s: string, i: nat, sep: string)
    requires i + |sep| <= |s| && s[i..i + |sep|] == sep
    ensures s[..i] + sep + s[i + |sep|..] == s
  {
    assert s == s[..i] + s[i..i + |sep|] + s[i + |sep|..];
  }

  lemma JoinCons(x: string, ys: seq<string>, sep: string)
    requires |ys| >= 1
    ensures Join([x] + ys, sep) == x + sep + Join(ys, sep)
  {
    assert ([x] + ys)[1..] == ys;
  }

  /**
   * Splitting a join gives back the pieces, provided none of them contains the separator's
   * first character.
   */
  lemma {:induction false} SplitJoin(xs: seq<string>, sep: string)
    requires |sep| > 0 && |xs| >= 1
    requires forall k :: 0 <= k < |xs| ==> sep[0] !in xs[k]
    ensures Split(Join(xs, sep), sep) == xs
    decreases |xs|
  {
    if |xs| == 1 {
      IndexOfAbsent(xs[0], sep);
    } else {
      var rest := Join(xs[1..], sep);
      IndexOfAfter(xs[0], sep, rest);
      var s := xs[0] + sep + rest;
      assert s[..|xs[0]|] == xs[0];
      assert s[|xs[0]| + |sep|..] == rest;
      SplitJoin(xs[1..], sep);
      assert [xs[0]] + xs[1..] == xs;
    }
  }
}
