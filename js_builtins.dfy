/** The few JavaScript runtime behaviours the transport relies on: truthiness and
    `||`, ASCII `String.prototype.toUpperCase`, the decimal form of a non-negative
    integer in a template literal, and `String.prototype.split` / `Array.prototype.join`
    with a non-empty separator. */
module JsBuiltins {

  /** `undefined` and `null` are both `None`. */
  datatype Option<+T> = None | Some(value: T)

  /** A value, or the error a JavaScript `throw` would have carried. */
  datatype Result<+T, +E> = Success(value: T) | Failure(error: E)

  // ---------------------------------------------------------------------------
  // Truthiness

  /** A string is falsy when it is missing or empty. */
  predicate StringTruthy(x: Option<string>) { x.Some? && x.value != "" }

  /** A boolean is falsy when it is missing or `false`. */
  predicate BoolTruthy(x: Option<bool>) { x.Some? && x.value }

  /** An array is an object, so it is truthy whenever it is present, even when empty. */
  predicate ArrayTruthy<T>(x: Option<seq<T>>) { x.Some? }

  /** `a || b` on strings: `a` when it is truthy, otherwise `b`, whatever `b` is. */
  function OrString(a: Option<string>, b: Option<string>): Option<string> {
    if StringTruthy(a) then a else b
  }

  function OrBool(a: Option<bool>, b: Option<bool>): Option<bool> {
    if BoolTruthy(a) then a else b
  }

  function OrArray<T>(a: Option<seq<T>>, b: Option<seq<T>>): Option<seq<T>> {
    if ArrayTruthy(a) then a else b
  }

  // ---------------------------------------------------------------------------
  // toUpperCase, restricted to ASCII

  predicate IsLower(c: char) { 'a' <= c <= 'z' }

  function UpperChar(c: char): (u: char)
    ensures !IsLower(u)
    ensures !IsLower(c) ==> u == c
  {
    if IsLower(c) then (c as int - 32) as char else c
  }

  /** ASCII upper-casing: every lower-case letter becomes its capital, every other
      character stays where it is. */
  function Upper(s: string): (r: string)
    ensures |r| == |s|
    ensures forall i :: 0 <= i < |s| ==> r[i] == UpperChar(s[i])
  {
    if s == [] then [] else [UpperChar(s[0])] + Upper(s[1..])
  }

  /** Upper-casing an upper-cased string changes nothing. */
  lemma UpperIdempotent(s: string)
    ensures Upper(Upper(s)) == Upper(s)
  {
  }

  // ---------------------------------------------------------------------------
  // Decimal form of a non-negative integer, as `${n}` prints it

  predicate IsDigit(c: char) { '0' <= c <= '9' }

  function DigitChar(d: nat): (c: char)
    requires d < 10
    ensures IsDigit(c)
  {
    ('0' as int + d) as char
  }

  function DigitValue(c: char): (d: nat)
    requires IsDigit(c)
    ensures d < 10
  {
    c as int - '0' as int
  }

  /** The shortest decimal numeral of `n`: no sign, no leading zero. */
  function Decimal(n: nat): (s: string)
    ensures |s| > 0
    ensures forall i :: 0 <= i < |s| ==> IsDigit(s[i])
    ensures s[0] == '0' ==> n == 0
  {
    if n < 10 then [DigitChar(n)] else Decimal(n / 10) + [DigitChar(n % 10)]
  }

  /** The value of a non-empty all-digit string, read most significant digit first. */
  function DigitsValue(s: string): nat
    requires forall i :: 0 <= i < |s| ==> IsDigit(s[i])
  {
    if s == [] then 0 else DigitsValue(s[..|s| - 1]) * 10 + DigitValue(s[|s| - 1])
  }

  /** Reads back a decimal numeral; anything that is not one is `None`. */
  function ParseDecimal(s: string): Option<nat> {
    if |s| > 0 && forall i :: 0 <= i < |s| ==> IsDigit(s[i]) then Some(DigitsValue(s)) else None
  }

  /** Printing a number and reading it back gives the number: the numeral names it. */
  lemma {:induction false} DecimalRoundTrip(n: nat)
    ensures ParseDecimal(Decimal(n)) == Some(n)
  {
    var s := Decimal(n);
    if n < 10 {
      assert DigitsValue(s) == DigitsValue([]) * 10 + DigitValue(s[0]);
    } else {
      DecimalRoundTrip(n / 10);
      assert s[..|s| - 1] == Decimal(n / 10);
      assert DigitValue(s[|s| - 1]) == n % 10;
    }
  }

  /** Distinct numbers print differently. */
  lemma DecimalInjective(m: nat, n: nat)
    requires Decimal(m) == Decimal(n)
    ensures m == n
  {
    DecimalRoundTrip(m);
    DecimalRoundTrip(n);
  }

  // ---------------------------------------------------------------------------
  // split / join with a non-empty separator

  predicate StartsWith(s: string, prefix: string) {
    |prefix| <= |s| && s[..|prefix|] == prefix
  }

  /** `pat` occurs somewhere in `s`. */
  predicate Occurs(s: string, pat: string)
    requires |pat| > 0
    decreases |s|
  {
    StartsWith(s, pat) || (|s| > 0 && Occurs(s[1..], pat))
  }

  /** `s.split(sep)`: scanning left to right, every occurrence of `sep` that does not
      overlap an earlier one cuts the string; the pieces between cuts are returned in
      order, so there is always one more piece than there are cuts. */
  function Split(s: string, sep: string): (parts: seq<string>)
    requires |sep| > 0
    ensures |parts| >= 1
    decreases |s|
  {
    if |s| < |sep| then [s]
    else if StartsWith(s, sep) then [""] + Split(s[|sep|..], sep)
    else
      var rest := Split(s[1..], sep);
      [[s[0]] + rest[0]] + rest[1..]
  }

  /** `parts.join(d)`: the pieces in order with `d` between neighbours. */
  function Join(parts: seq<string>, d: string): string {
    if |parts| == 0 then ""
    else if |parts| == 1 then parts[0]
    else parts[0] + d + Join(parts[1..], d)
  }

  /** Reference definition of "replace every occurrence of `pat`, leftmost first and
      without overlap, by `rep`", written without splitting. */
  function ReplaceAll(s: string, pat: string, rep: string): string
    requires |pat| > 0
    decreases |s|
  {
    if |s| < |pat| then s
    else if StartsWith(s, pat) then rep + ReplaceAll(s[|pat|..], pat, rep)
    else [s[0]] + ReplaceAll(s[1..], pat, rep)
  }

  /** Putting a character in front of the first piece puts it in front of the join. */
  lemma JoinConsFirst(c: char, first: string, rest: seq<string>, d: string)
    ensures Join([[c] + first] + rest, d) == [c] + Join([first] + rest, d)
  {
  }

  /** Splitting on `pat` and joining with `rep` is exactly replacing every occurrence. */
  lemma {:induction false} JoinSplitIsReplaceAll(s: string, pat: string, rep: string)
    requires |pat| > 0
    ensures Join(Split(s, pat), rep) == ReplaceAll(s, pat, rep)
    decreases |s|
  {
    if |s| < |pat| {
    } else if StartsWith(s, pat) {
      var rest := Split(s[|pat|..], pat);
      JoinSplitIsReplaceAll(s[|pat|..], pat, rep);
      assert ([""] + rest)[1..] == rest;
      assert Join([""] + rest, rep) == "" + rep + Join(rest, rep);
    } else {
      var rest := Split(s[1..], pat);
      JoinSplitIsReplaceAll(s[1..], pat, rep);
      JoinConsFirst(s[0], rest[0], rest[1..], rep);
      assert [rest[0]] + rest[1..] == rest;
    }
  }

  /** Replacing every occurrence of a pattern by itself changes nothing. */
  lemma {:induction false} ReplaceAllBySelf(s: string, pat: string)
    requires |pat| > 0
    ensures ReplaceAll(s, pat, pat) == s
    decreases |s|
  {
    if |s| < |pat| {
    } else if StartsWith(s, pat) {
      ReplaceAllBySelf(s[|pat|..], pat);
      assert s == pat + s[|pat|..];
    } else {
      ReplaceAllBySelf(s[1..], pat);
      assert s == [s[0]] + s[1..];
    }
  }

  /** Joining the pieces with the separator they were split on gives the string back. */
  lemma SplitJoinRoundTrip(s: string, sep: string)
    requires |sep| > 0
    ensures Join(Split(s, sep), sep) == s
  {
    JoinSplitIsReplaceAll(s, sep, sep);
    ReplaceAllBySelf(s, sep);
  }

  /** A string in which `pat` does not occur is left as it is. */
  lemma {:induction false} ReplaceAllWithoutOccurrence(s: string, pat: string, rep: string)
    requires |pat| > 0
    requires !Occurs(s, pat)
    ensures ReplaceAll(s, pat, rep) == s
    decreases |s|
  {
    if |s| >= |pat| {
      ReplaceAllWithoutOccurrence(s[1..], pat, rep);
    }
  }

  /** No occurrence in `s` means none in any suffix of it. */
  lemma {:induction false} NoOccurrenceInSuffix(s: string, pat: string, k: nat)
    requires |pat| > 0
    requires k <= |s|
    requires !Occurs(s, pat)
    ensures !Occurs(s[k..], pat)
    decreases k
  {
    if k > 0 {
      NoOccurrenceInSuffix(s[1..], pat, k - 1);
      assert s[1..][k - 1..] == s[k..];
    }
  }
}
