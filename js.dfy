/**
 * The JavaScript semantics the modelled TypeScript code relies on: `null`/`undefined` as Option,
 * thrown values, IEEE numbers as far as comparisons and rounding see them, `toFixed`,
 * `Math.round`, whitespace as `\s` and `String.prototype.trim` see it, `startsWith`,
 * `Array.prototype.filter` and `Array.prototype.sort`.
 */
module Js {

  /** `null` or `undefined` (None) versus a present value (Some). */
  datatype Option<+T> = None | Some(value: T)

  /** A thrown JavaScript value: an `Error` (its `name` and `message`) or any other value (its `String(·)`). */
  datatype Thrown = ErrorObject(name: string, message: string) | OtherValue(text: string)

  /** The completion of a call: a returned value or a thrown one (a settled promise, for async calls). */
  datatype Result<+T> = Ok(value: T) | Throw(error: Thrown)

  /** `error instanceof Error ? error.message : fallback`, as the pipeline's catch blocks write it. */
  function MessageOr(e: Thrown, fallback: string): (m: string)
    ensures e.OtherValue? ==> m == fallback
  {
    if e.ErrorObject? then e.message else fallback
  }

  /** `String(err?.message || err)`: the message when it is a non-empty string, else the value as text. */
  function MessageOrText(e: Thrown): (m: string)
    ensures e.ErrorObject? && e.message != "" ==> m == e.message
    ensures e.ErrorObject? && e.message == "" ==> m == e.name
    ensures e.OtherValue? ==> m == e.text
  {
    match e
    case ErrorObject(name, message) => if message != "" then message else name
    case OtherValue(text) => text
  }

  /** A possibly absent string is truthy when it is present and not empty. */
  predicate TruthyString(s: Option<string>) {
    s.Some? && s.value != ""
  }

  // ---------------------------------------------------------------------------------------------
  // Numbers

  /** An IEEE double as the comparisons and `Number.isFinite` see it; finite values are exact reals. */
  datatype JsNumber = Finite(value: real) | PosInfinity | NegInfinity | NaN

  /** `x > c` for a finite constant `c`: false for NaN, true for +Infinity. */
  predicate Gt(x: JsNumber, c: real) {
    match x
    case Finite(v) => v > c
    case PosInfinity => true
    case NegInfinity => false
    case NaN => false
  }

  /** `x <= c` for a finite constant `c`: false for NaN, true for -Infinity. */
  predicate Le(x: JsNumber, c: real) {
    match x
    case Finite(v) => v <= c
    case PosInfinity => false
    case NegInfinity => true
    case NaN => false
  }

  lemma {:induction false} LeIsNotGtExceptNaN(x: JsNumber, c: real)
    ensures x != NaN ==> (Le(x, c) <==> !Gt(x, c))
    ensures x == NaN ==> !Le(x, c) && !Gt(x, c)
  {
  }

  /** A possibly absent number is truthy when it is present, not 0 and not NaN. */
  predicate TruthyNumber(n: Option<JsNumber>) {
    n.Some? && n.value != Finite(0.0) && n.value != NaN
  }

  function Pow10(d: nat): (p: int)
    ensures p >= 1
  {
    if d == 0 then 1 else 10 * Pow10(d - 1)
  }

  /**
   * `Number(x.toFixed(d))` for a finite `x`, over exact reals: the magnitude is rounded to `d`
   * decimals with halves going away from zero, and the sign is put back.
   */
  function ToFixed(x: real, d: nat): (r: real)
    ensures HasDecimals(r, d)
  {
    RoundToScale(x, Pow10(d))
  }

  /** `k` units of `1 / scale`. */
  function Units(k: int, scale: int): real
    requires scale >= 1
  {
    k as real / scale as real
  }

  /** `r` is written with at most `d` decimals: a whole number of units of the d-th decimal. */
  ghost predicate HasDecimals(r: real, d: nat) {
    exists k: int :: r == Units(k, Pow10(d))
  }

  /** Rounds `x` to a multiple of `1 / scale`. */
  function RoundToScale(x: real, scale: int): (r: real)
    requires scale >= 1
    ensures exists k: int :: r == Units(k, scale)
  {
    Units(RoundHalfAway(x * scale as real), scale)
  }

  /**
   * The integer nearest to `y`, a half going away from zero (how `toFixed` rounds a magnitude): for
   * `y >= 0` it is in (y - 0.5, y + 0.5], for a negative `y` in [y - 0.5, y + 0.5).
   */
  function RoundHalfAway(y: real): (n: int)
    ensures y - 0.5 <= n as real <= y + 0.5
    ensures y >= 0.0 ==> y - 0.5 < n as real
    ensures y < 0.0 ==> n as real < y + 0.5
  {
    if y >= 0.0 then (y + 0.5).Floor else -((-y) + 0.5).Floor
  }

  /**
   * Rounding to `d` decimals moves a value by at most half a unit in the last place, and leaves a
   * whole number of units of the last place.
   */
  lemma {:induction false} ToFixedIsClose(x: real, d: nat)
    ensures -0.5 / (Pow10(d) as real) <= ToFixed(x, d) - x <= 0.5 / (Pow10(d) as real)
    ensures HasDecimals(ToFixed(x, d), d)
  {
    RoundToScaleIsClose(x, Pow10(d));
  }

  lemma {:induction false} RoundToScaleIsClose(x: real, scale: int)
    requires scale >= 1
    ensures -0.5 / (scale as real) <= RoundToScale(x, scale) - x <= 0.5 / (scale as real)
  {
    var n := RoundHalfAway(x * scale as real);
    assert RoundToScale(x, scale) == n as real / scale as real;
    DivideBounds(x * scale as real, n as real, scale as real);
    MultiplyDivide(x, scale as real);
  }

  lemma {:induction false} DivideBounds(y: real, n: real, p: real)
    requires p >= 1.0 && y - 0.5 <= n <= y + 0.5
    ensures y / p - 0.5 / p <= n / p <= y / p + 0.5 / p
  {
    assert n / p - y / p == (n - y) / p;
    assert -0.5 / p <= (n - y) / p <= 0.5 / p;
  }

  lemma {:induction false} MultiplyDivide(y: real, p: real)
    requires p >= 1.0
    ensures (y * p) / p == y
  {
  }

  /** `Math.round(x)`: the nearest integer, a half going up. */
  function MathRound(x: real): (r: int)
    ensures x - 0.5 < r as real <= x + 0.5
  {
    (x + 0.5).Floor
  }

  // ---------------------------------------------------------------------------------------------
  // Strings

  /** The code points of ECMAScript's WhiteSpace and LineTerminator, which both `\s` and `trim` use. */
  predicate IsWhitespace(c: char) {
    var n := c as int;
    n == 0x09 || n == 0x0A || n == 0x0B || n == 0x0C || n == 0x0D || n == 0x20 || n == 0xA0
    || n == 0x1680 || (0x2000 <= n <= 0x200A) || n == 0x2028 || n == 0x2029 || n == 0x202F
    || n == 0x205F || n == 0x3000 || n == 0xFEFF
  }

  function TrimStart(s: string): (t: string)
    ensures |t| <= |s| && t == s[|s| - |t|..]
    ensures forall i :: 0 <= i < |s| - |t| ==> IsWhitespace(s[i])
    ensures t != [] ==> !IsWhitespace(t[0])
  {
    if s != [] && IsWhitespace(s[0]) then TrimStart(s[1..]) else s
  }

  function TrimEnd(s: string): (t: string)
    ensures |t| <= |s| && t == s[..|t|]
    ensures forall i :: |t| <= i < |s| ==> IsWhitespace(s[i])
    ensures t != [] ==> !IsWhitespace(t[|t| - 1])
  {
    if s != [] && IsWhitespace(s[|s| - 1]) then TrimEnd(s[..|s| - 1]) else s
  }

  /** `t` is `s` from index `a` on, with only whitespace before `a` and after `t`'s end. */
  ghost predicate StripsTo(s: string, t: string, a: int) {
    && 0 <= a <= a + |t| <= |s| && t == s[a..a + |t|]
    && (forall i :: 0 <= i < a ==> IsWhitespace(s[i]))
    && (forall i :: a + |t| <= i < |s| ==> IsWhitespace(s[i]))
  }

  /** `s.trim()`: `s` without its leading and trailing whitespace. */
  function Trim(s: string): (t: string)
    ensures exists a :: StripsTo(s, t, a)
    ensures t == [] || (!IsWhitespace(t[0]) && !IsWhitespace(t[|t| - 1]))
    ensures t == [] <==> forall i :: 0 <= i < |s| ==> IsWhitespace(s[i])
    ensures |t| <= |s|
  {
    var e := TrimEnd(s);
    var t := TrimStart(e);
    TrimEndThenStart(s, e, t);
    t
  }

  lemma {:induction false} TrimEndThenStart(s: string, e: string, t: string)
    requires e == TrimEnd(s) && t == TrimStart(e)
    ensures StripsTo(s, t, |e| - |t|)
    ensures t == [] <==> forall i :: 0 <= i < |s| ==> IsWhitespace(s[i])
  {
    var a := |e| - |t|;
    assert t == e[a..] == s[a..|e|];
    forall i | 0 <= i < a ensures IsWhitespace(s[i]) {
      assert s[i] == e[i];
    }
    if t != [] {
      assert s[a] == t[0];
    }
  }

  /** The decimal digits of `n`. */
  function Digits(n: nat): (ds: string)
    ensures ds != []
    ensures forall i :: 0 <= i < |ds| ==> '0' <= ds[i] <= '9'
  {
    if n < 10 then [('0' as int + n) as char] else Digits(n / 10) + [('0' as int + n % 10) as char]
  }

  function DigitValue(c: char): int {
    c as int - '0' as int
  }

  /** The number a string of decimal digits denotes. */
  function DigitsValue(ds: string): (n: int)
    decreases |ds|
  {
    if ds == [] then 0 else DigitsValue(ds[..|ds| - 1]) * 10 + DigitValue(ds[|ds| - 1])
  }

  /** The longest prefix of `s` made of decimal digits. */
  function DigitPrefix(s: string): (ds: string)
    ensures |ds| <= |s| && ds == s[..|ds|]
    ensures forall i :: 0 <= i < |ds| ==> '0' <= ds[i] <= '9'
    ensures |ds| < |s| ==> !('0' <= s[|ds|] <= '9')
  {
    if s != [] && '0' <= s[0] <= '9' then [s[0]] + DigitPrefix(s[1..]) else []
  }

  /**
   * `parseInt(s)` for a decimal text: leading whitespace is skipped, one sign is read, then the
   * longest run of digits; no digit at all gives NaN (None).
   */
  function ParseInt(s: string): (n: Option<int>)
  {
    var t := TrimStart(s);
    var negative := t != [] && t[0] == '-';
    var rest := if t != [] && (t[0] == '-' || t[0] == '+') then t[1..] else t;
    var ds := DigitPrefix(rest);
    if ds == [] then None
    else if negative then Some(-DigitsValue(ds))
    else Some(DigitsValue(ds))
  }

  /** `String(n)` for an integer. */
  function IntText(n: int): (s: string)
    ensures s != []
  {
    if n < 0 then "-" + Digits(-n) else Digits(n)
  }

  /** The digits of `n` denote `n`. */
  lemma {:induction false} DigitsValueOfDigits(n: nat)
    ensures DigitsValue(Digits(n)) == n
  {
    if n >= 10 {
      DigitsValueOfDigits(n / 10);
      var ds := Digits(n);
      assert ds[..|ds| - 1] == Digits(n / 10);
    }
  }

  lemma {:induction false} DigitPrefixOfDigits(s: string)
    requires forall i :: 0 <= i < |s| ==> '0' <= s[i] <= '9'
    ensures DigitPrefix(s) == s
    decreases |s|
  {
    if s != [] {
      DigitPrefixOfDigits(s[1..]);
    }
  }

  /** `parseInt(String(n)) === n` for every integer. */
  lemma {:induction false} ParseIntOfIntText(n: int)
    ensures ParseInt(IntText(n)) == Some(n)
  {
    var m: nat := if n < 0 then -n else n;
    DigitsValueOfDigits(m);
    if n < 0 {
      ParseIntOfNegativeDigits(Digits(m));
    } else {
      ParseIntOfDigits(Digits(m));
    }
  }

  /** `parseInt` of digits only. */
  lemma {:induction false} ParseIntOfDigits(ds: string)
    requires ds != [] && forall i :: 0 <= i < |ds| ==> '0' <= ds[i] <= '9'
    ensures ParseInt(ds) == Some(DigitsValue(ds))
  {
    assert !IsWhitespace(ds[0]);
    assert TrimStart(ds) == ds;
    DigitPrefixOfDigits(ds);
  }

  /** `parseInt` of a minus sign followed by digits only. */
  lemma {:induction false} ParseIntOfNegativeDigits(ds: string)
    requires ds != [] && forall i :: 0 <= i < |ds| ==> '0' <= ds[i] <= '9'
    ensures ParseInt("-" + ds) == Some(-DigitsValue(ds))
  {
    DigitPrefixOfDigits(ds);
    ParseIntAfterMinus("-" + ds, ds);
  }

  lemma {:induction false} ParseIntAfterMinus(s: string, ds: string)
    requires s == "-" + ds && ds != [] && DigitPrefix(ds) == ds
    ensures ParseInt(s) == Some(-DigitsValue(ds))
  {
    assert s[0] == '-' && !IsWhitespace(s[0]);
    assert TrimStart(s) == s;
    assert s[1..] == ds;
  }

  /** `parseInt('')` and `parseInt` of a text without digits are NaN. */
  lemma {:induction false} ParseIntWithoutDigits(s: string)
    requires forall i :: 0 <= i < |s| ==> !('0' <= s[i] <= '9')
    ensures ParseInt(s) == None
  {
    var t := TrimStart(s);
    assert t == s[|s| - |t|..];
    if t != [] && (t[0] == '-' || t[0] == '+') && |t| > 1 {
      assert t[1..][0] == t[1] == s[|s| - |t| + 1];
    } else if t != [] && !(t[0] == '-' || t[0] == '+') {
      assert t[0] == s[|s| - |t|];
    }
  }

  /** `s.startsWith(prefix)`. */
  predicate StartsWith(s: string, prefix: string) {
    |prefix| <= |s| && s[..|prefix|] == prefix
  }

  // ---------------------------------------------------------------------------------------------
  // Arrays

  /** `s.filter(p)`: the elements satisfying `p`, in their original order. */
  function Filter<T(==,!new)>(s: seq<T>, p: T -> bool): (r: seq<T>)
    ensures |r| <= |s|
    ensures forall x :: x in r <==> x in s && p(x)
    ensures forall i :: 0 <= i < |r| ==> p(r[i])
  {
    if s == [] then [] else (if p(s[0]) then [s[0]] else []) + Filter(s[1..], p)
  }

  /** Filtering keeps exactly the occurrences of the elements that satisfy `p`. */
  lemma {:induction false} FilterCounts<T(!new)>(s: seq<T>, p: T -> bool, x: T)
    ensures multiset(Filter(s, p))[x] == if p(x) then multiset(s)[x] else 0
  {
    if s != [] {
      var head := if p(s[0]) then [s[0]] else [];
      FilterCounts(s[1..], p, x);
      assert s == [s[0]] + s[1..];
      assert multiset(Filter(s, p)) == multiset(head) + multiset(Filter(s[1..], p));
    }
  }

  lemma {:induction false} FilterAppend<T(!new)>(a: seq<T>, b: seq<T>, p: T -> bool)
    ensures Filter(a + b, p) == Filter(a, p) + Filter(b, p)
  {
    if a != [] {
      assert (a + b)[1..] == a[1..] + b;
      FilterAppend(a[1..], b, p);
    } else {
      assert a + b == b;
    }
  }

  /** `key` does not increase along `s`. */
  ghost predicate SortedDesc<T>(s: seq<T>, key: T -> int) {
    forall i, j :: 0 <= i < j < |s| ==> key(s[i]) >= key(s[j])
  }

  /** Puts `x` in front of the first element whose key is not larger, so equal keys keep their order. */
  function InsertDesc<T(==)>(x: T, s: seq<T>, key: T -> int): (r: seq<T>)
    ensures |r| == |s| + 1
    ensures multiset(r) == multiset(s) + multiset{x}
  {
    if s == [] || key(s[0]) <= key(x) then [x] + s
    else
      assert s == [s[0]] + s[1..];
      [s[0]] + InsertDesc(x, s[1..], key)
  }

  /** Inserting into a sequence sorted by descending key keeps it sorted. */
  lemma {:induction false} InsertDescSorted<T>(x: T, s: seq<T>, key: T -> int)
    requires SortedDesc(s, key)
    ensures SortedDesc(InsertDesc(x, s, key), key)
    decreases |s|
  {
    if s != [] && key(s[0]) > key(x) {
      var rest := InsertDesc(x, s[1..], key);
      InsertDescSorted(x, s[1..], key);
      forall j | 0 <= j < |rest| ensures key(s[0]) >= key(rest[j]) {
        InsertDescMembers(x, s[1..], key, rest[j]);
      }
    }
  }

  lemma {:induction false} InsertDescMembers<T>(x: T, s: seq<T>, key: T -> int, y: T)
    requires y in InsertDesc(x, s, key)
    ensures y == x || y in s
    decreases |s|
  {
    if s != [] && key(s[0]) > key(x) && y != s[0] {
      InsertDescMembers(x, s[1..], key, y);
    }
  }

  /**
   * `s.sort((a, b) => key(b) - key(a))`: a sort by descending key. Insertion keeps ties in
   * their input order, as the ECMAScript 2019 sort does, but only order and permutation are stated.
   */
  function SortDesc<T(==)>(s: seq<T>, key: T -> int): (r: seq<T>)
    ensures SortedDesc(r, key)
    ensures multiset(r) == multiset(s)
    ensures |r| == |s|
  {
    if s == [] then []
    else
      assert s == [s[0]] + s[1..];
      var sorted := SortDesc(s[1..], key);
      InsertDescSorted(s[0], sorted, key);
      InsertDesc(s[0], sorted, key)
  }

  /** `s.slice(0, n)`. */
  function Take<T>(s: seq<T>, n: nat): (r: seq<T>)
    ensures |r| <= n && |r| <= |s|
    ensures |r| == if |s| < n then |s| else n
    ensures forall i :: 0 <= i < |r| ==> r[i] == s[i]
  {
    if |s| <= n then s else s[..n]
  }

  /**
   * Cutting a sequence sorted by descending key keeps its highest elements: what is kept is part
   * of the sequence, and any copy left out has a key no larger than the last one kept.
   */
  lemma {:induction false} TakeKeepsHighest<T>(s: seq<T>, n: nat, key: T -> int)
    requires SortedDesc(s, key)
    ensures multiset(Take(s, n)) <= multiset(s)
    ensures forall x :: multiset(Take(s, n))[x] < multiset(s)[x] && Take(s, n) != [] ==>
      key(x) <= key(Take(s, n)[|Take(s, n)| - 1])
  {
    var t := Take(s, n);
    var rest := s[|t|..];
    assert s == t + rest;
    forall x | multiset(t)[x] < multiset(s)[x] && t != [] ensures key(x) <= key(t[|t| - 1]) {
      assert x in multiset(rest);
      var j :| 0 <= j < |rest| && rest[j] == x;
      assert s[|t| + j] == x;
    }
  }

  /** An element occurs at most once in a sequence without repeats. */
  lemma {:induction false} DistinctCount<T>(s: seq<T>, x: T)
    requires forall i, j :: 0 <= i < j < |s| ==> s[i] != s[j]
    ensures multiset(s)[x] <= 1
    decreases |s|
  {
    if s != [] {
      var init := s[..|s| - 1];
      DistinctCount(init, x);
      assert s == init + [s[|s| - 1]];
      if x == s[|s| - 1] {
        assert x !in init by {
          forall k | 0 <= k < |init| ensures init[k] != x { assert init[k] == s[k]; }
        }
      }
    }
  }

  /** Part of a sequence without repeats has no repeats either. */
  lemma {:induction false} SubMultisetDistinct<T>(s: seq<T>, t: seq<T>)
    requires forall i, j :: 0 <= i < j < |s| ==> s[i] != s[j]
    requires multiset(t) <= multiset(s)
    ensures forall i, j :: 0 <= i < j < |t| ==> t[i] != t[j]
  {
    forall i, j | 0 <= i < j < |t| ensures t[i] != t[j] {
      if t[i] == t[j] {
        RepeatedCount(t, i, j);
        DistinctCount(s, t[i]);
        assert false;
      }
    }
  }

  /** An element found at two positions occurs at least twice. */
  lemma {:induction false} RepeatedCount<T>(s: seq<T>, i: int, j: int)
    requires 0 <= i < j < |s| && s[i] == s[j]
    ensures multiset(s)[s[i]] >= 2
  {
    assert s == s[..j] + s[j..];
    assert s[i] in s[..j];
    assert s[j] == s[j..][0];
  }
}
