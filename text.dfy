/** String primitives the dashboard relies on: JavaScript's `toLowerCase`,
    `includes`, `trim`, the `\s` and `\d` regular-expression classes,
    `parseInt`/`parseFloat` and the decimal rendering of numbers in
    template literals. */
module Text {

  datatype Option<+T> = None | Some(value: T)

  /** `!v` for a string that may be missing: `undefined`, `null` and "" are falsy. */
  predicate Falsy(v: Option<string>)
  {
    v.None? || v.value == ""
  }

  /** `v || fallback`. */
  function OrElse(v: Option<string>, fallback: string): (r: string)
    ensures Falsy(v) ==> r == fallback
    ensures !Falsy(v) ==> r == v.value
  {
    if Falsy(v) then fallback else v.value
  }

  // ---------------------------------------------------------------------
  // Case mapping

  function LowerChar(c: char): char
  {
    if 'A' <= c <= 'Z' then (c as int + 32) as char else c
  }

  /** `String.prototype.toLowerCase`, restricted to the ASCII letters. */
  function ToLower(s: string): (r: string)
    ensures |r| == |s|
    ensures forall i :: 0 <= i < |s| ==> r[i] == LowerChar(s[i])
    ensures forall i :: 0 <= i < |r| ==> !('A' <= r[i] <= 'Z')
  {
    seq(|s|, i requires 0 <= i < |s| => LowerChar(s[i]))
  }

  lemma ToLowerIdempotent(s: string)
    ensures ToLower(ToLower(s)) == ToLower(s)
  {
    var t := ToLower(s);
    assert forall i :: 0 <= i < |t| ==> LowerChar(t[i]) == t[i];
  }

  // ---------------------------------------------------------------------
  // Substrings: `includes`

  predicate StartsWith(s: string, prefix: string)
  {
    |prefix| <= |s| && s[..|prefix|] == prefix
  }

  /** `sub` occurs in `s` starting at index `i`. */
  predicate OccursAt(s: string, sub: string, i: int)
  {
    0 <= i && i + |sub| <= |s| && s[i..i + |sub|] == sub
  }

  /** `s.includes(sub)`. */
  predicate Contains(s: string, sub: string)
    decreases |s|
  {
    StartsWith(s, sub) || (|s| > 0 && Contains(s[1..], sub))
  }

  /** An occurrence at some index makes `includes` hold. */
  lemma {:induction false} ContainsAt(s: string, sub: string, i: int)
    requires OccursAt(s, sub, i)
    ensures Contains(s, sub)
    decreases i
  {
    if i > 0 {
      assert s[1..][i - 1..i - 1 + |sub|] == s[i..i + |sub|];
      ContainsAt(s[1..], sub, i - 1);
    } else {
      assert StartsWith(s, sub);
    }
  }

  /** When `includes` holds, it says where. */
  lemma {:induction false} ContainsWitness(s: string, sub: string) returns (i: int)
    requires Contains(s, sub)
    ensures OccursAt(s, sub, i)
    decreases |s|
  {
    if StartsWith(s, sub) {
      i := 0;
    } else {
      var j := ContainsWitness(s[1..], sub);
      assert s[1..][j..j + |sub|] == s[j + 1..j + 1 + |sub|];
      i := j + 1;
    }
  }

  /** `includes` holds exactly when the substring occurs at some index. */
  lemma ContainsIff(s: string, sub: string)
    ensures Contains(s, sub) <==> exists i :: OccursAt(s, sub, i)
  {
    if Contains(s, sub) {
      var i := ContainsWitness(s, sub);
    }
    if exists i :: OccursAt(s, sub, i) {
      var i :| OccursAt(s, sub, i);
      ContainsAt(s, sub, i);
    }
  }

  /** Text appended after an occurrence does not remove it. */
  lemma ContainsAppend(a: string, b: string, sub: string)
    requires Contains(a, sub)
    ensures Contains(a + b, sub)
  {
    var i := ContainsWitness(a, sub);
    assert (a + b)[i..i + |sub|] == a[i..i + |sub|];
    ContainsAt(a + b, sub, i);
  }

  /** A string ending in `sub` includes it. */
  lemma ContainsEnd(a: string, sub: string)
    ensures Contains(a + sub, sub)
  {
    assert (a + sub)[|a|..|a| + |sub|] == sub;
    ContainsAt(a + sub, sub, |a|);
  }

  lemma ContainsEmpty(s: string)
    ensures Contains(s, "")
  {
    assert StartsWith(s, "");
  }

  /** An occurrence of `sub` inside `t` is an occurrence inside any string that includes `t`. */
  lemma ContainsTransitive(s: string, t: string, sub: string)
    requires Contains(s, t) && Contains(t, sub)
    ensures Contains(s, sub)
  {
    ContainsIff(s, t);
    ContainsIff(t, sub);
    var i := ContainsWitness(s, t);
    var j := ContainsWitness(t, sub);
    assert forall k :: 0 <= k < |sub| ==> sub[k] == t[j + k] == s[i + j + k];
    assert s[i + j..i + j + |sub|] == sub;
    ContainsAt(s, sub, i + j);
  }

  // ---------------------------------------------------------------------
  // White space: `trim` and the `\s` class

  /** The characters ECMAScript calls WhiteSpace or LineTerminator. */
  predicate IsSpace(c: char)
  {
    || c in {' ', '\t', '\n', '\r', '\U{000B}', '\U{000C}', '\U{00A0}', '\U{1680}',
             '\U{2028}', '\U{2029}', '\U{202F}', '\U{205F}', '\U{3000}', '\U{FEFF}'}
    || '\U{2000}' <= c <= '\U{200A}'
  }

  /** Drops the white space at the front of `s`. */
  function TrimStart(s: string): (r: string)
    ensures |r| <= |s| && r == s[|s| - |r|..]
    ensures forall i :: 0 <= i < |s| - |r| ==> IsSpace(s[i])
    ensures r == [] || !IsSpace(r[0])
  {
    if s != [] && IsSpace(s[0]) then
      var r := TrimStart(s[1..]);
      assert forall i :: 1 <= i < |s| - |r| ==> s[i] == s[1..][i - 1];
      assert s[1..][|s| - 1 - |r|..] == s[|s| - |r|..];
      r
    else s
  }

  /** Drops the white space at the back of `s`. */
  function TrimEnd(s: string): (r: string)
    ensures |r| <= |s| && r == s[..|r|]
    ensures forall i :: |r| <= i < |s| ==> IsSpace(s[i])
    ensures r == [] || !IsSpace(r[|r| - 1])
  {
    if s != [] && IsSpace(s[|s| - 1]) then TrimEnd(s[..|s| - 1]) else s
  }

  predicate AllSpace(s: string)
  {
    forall i :: 0 <= i < |s| ==> IsSpace(s[i])
  }

  /** White space in front of text that does not start with white space is
      exactly what `TrimStart` drops. */
  lemma {:induction false} TrimStartOfSpaces(ws: string, t: string)
    requires AllSpace(ws)
    requires t == [] || !IsSpace(t[0])
    ensures TrimStart(ws + t) == t
  {
    if ws == [] {
      assert ws + t == t;
    } else {
      assert (ws + t)[0] == ws[0];
      assert (ws + t)[1..] == ws[1..] + t;
      TrimStartOfSpaces(ws[1..], t);
    }
  }

  /** `String.prototype.trim`. */
  function Trim(s: string): string
  {
    TrimEnd(TrimStart(s))
  }

  /** `!s.trim()` holds exactly when every character of `s` is white space. */
  lemma TrimEmptyIff(s: string)
    ensures Trim(s) == [] <==> forall i :: 0 <= i < |s| ==> IsSpace(s[i])
  {
    var t := TrimStart(s);
    if Trim(s) == [] {
      assert t == [];
    } else {
      assert t != [] && !IsSpace(t[0]);
      assert s[|s| - |t|] == t[0];
    }
  }

  // ---------------------------------------------------------------------
  // Decimal digits

  predicate IsDigit(c: char)
  {
    '0' <= c <= '9'
  }

  predicate AllDigits(s: string)
  {
    forall i :: 0 <= i < |s| ==> IsDigit(s[i])
  }

  function DigitValue(c: char): nat
    requires IsDigit(c)
  {
    c as int - '0' as int
  }

  function DigitChar(d: nat): (c: char)
    requires d < 10
    ensures IsDigit(c) && DigitValue(c) == d
  {
    ('0' as int + d) as char
  }

  /** The number a string of decimal digits denotes, most significant first. */
  function DigitsValue(ds: string): nat
    requires AllDigits(ds)
  {
    if ds == [] then 0 else DigitsValue(ds[..|ds| - 1]) * 10 + DigitValue(ds[|ds| - 1])
  }

  /** The decimal rendering of a natural number, as `${n}` writes it. */
  function NatToString(n: nat): (r: string)
    ensures r != [] && AllDigits(r)
    ensures |r| > 1 ==> r[0] != '0'
  {
    if n < 10 then [DigitChar(n)] else NatToString(n / 10) + [DigitChar(n % 10)]
  }

  /** Reading back the rendering of `n` gives `n`. */
  lemma {:induction false} NatToStringRoundTrip(n: nat)
    ensures DigitsValue(NatToString(n)) == n
  {
    if n >= 10 {
      var r := NatToString(n);
      assert r[..|r| - 1] == NatToString(n / 10);
      NatToStringRoundTrip(n / 10);
    }
  }

  /** The decimal rendering of an integer, with a leading minus sign when negative. */
  function IntToString(n: int): (r: string)
    ensures r != []
    ensures (r[0] == '-') <==> n < 0
  {
    if n < 0 then "-" + NatToString(-n) else NatToString(n)
  }

  /** The longest prefix of `s` made of decimal digits. */
  function DigitRun(s: string): (r: string)
    ensures |r| <= |s| && r == s[..|r|]
    ensures AllDigits(r)
    ensures |r| < |s| ==> !IsDigit(s[|r|])
  {
    if s != [] && IsDigit(s[0]) then [s[0]] + DigitRun(s[1..]) else []
  }

  lemma {:induction false} DigitRunOfDigits(ds: string, rest: string)
    requires AllDigits(ds)
    requires rest == [] || !IsDigit(rest[0])
    ensures DigitRun(ds + rest) == ds
    ensures (ds + rest)[|ds|..] == rest
  {
    if ds != [] {
      assert (ds + rest)[1..] == ds[1..] + rest;
      DigitRunOfDigits(ds[1..], rest);
    } else {
      assert ds + rest == rest;
    }
  }

  // ---------------------------------------------------------------------
  // parseInt and parseFloat

  /** `s` with its leading white space removed, as both parsers do first. */
  function SkipSpaces(s: string): string
  {
    TrimStart(s)
  }

  /** `parseInt(s)` with the default radix: leading white space, an optional
      sign, then decimal digits; `None` stands for `NaN`. */
  function ParseInt(s: string): Option<int>
  {
    var t := SkipSpaces(s);
    var negative := t != [] && t[0] == '-';
    var u := if t != [] && (t[0] == '+' || t[0] == '-') then t[1..] else t;
    var ds := DigitRun(u);
    var magnitude: int := if ds == [] then 0 else DigitsValue(ds);
    if ds == [] then None else Some(if negative then -magnitude else magnitude)
  }

  /** The value of the digits after a decimal point, as an exact fraction. */
  function FractionValue(ds: string): (r: real)
    requires AllDigits(ds)
    ensures 0.0 <= r <= 1.0
  {
    if ds == [] then 0.0 else (DigitValue(ds[0]) as real + FractionValue(ds[1..])) / 10.0
  }

  /** Digits with an optional fractional part, at least one digit in all,
      read from the front of `u`. */
  function UnsignedDecimal(u: string): Option<real>
  {
    var whole := DigitRun(u);
    var after := u[|whole|..];
    var frac := if after != [] && after[0] == '.' then DigitRun(after[1..]) else [];
    if whole == [] && frac == [] then None
    else Some(DigitsValue(whole) as real + FractionValue(frac))
  }

  /** `parseFloat(s)` without exponents or `Infinity`: leading white space, an
      optional sign, then digits with an optional fractional part. `None`
      stands for `NaN`. */
  function ParseFloat(s: string): Option<real>
  {
    var t := SkipSpaces(s);
    if t != [] && (t[0] == '+' || t[0] == '-') then
      match UnsignedDecimal(t[1..])
      case Some(v) => Some(if t[0] == '-' then -v else v)
      case None => None
    else UnsignedDecimal(t)
  }

  /** A string that starts with a digit is read by `parseFloat` without sign or spaces. */
  lemma ParseFloatOfDigitStart(s: string)
    requires s != [] && IsDigit(s[0])
    ensures ParseFloat(s) == UnsignedDecimal(s)
  {
    assert SkipSpaces(s) == s;
  }

  /** Digits, a decimal point and more digits read back as their decimal value. */
  lemma ParseDecimal(s: string, whole: string, frac: string, rest: string)
    requires whole != [] && AllDigits(whole) && AllDigits(frac)
    requires rest == [] || !IsDigit(rest[0])
    requires s == whole + "." + frac + rest
    ensures ParseFloat(s) == Some(DigitsValue(whole) as real + FractionValue(frac))
  {
    DecimalParts(s, whole, frac, rest);
    UnsignedDecimalOfParts(whole, frac, rest);
    assert s[0] == whole[0];
    ParseFloatOfDigitStart(s);
  }

  /** The unsigned reading of digits, a point, digits and a non-digit rest. */
  lemma UnsignedDecimalOfParts(whole: string, frac: string, rest: string)
    requires whole != [] && AllDigits(whole) && AllDigits(frac)
    requires rest == [] || !IsDigit(rest[0])
    ensures UnsignedDecimal(whole + (['.'] + (frac + rest))) ==
      Some(DigitsValue(whole) as real + FractionValue(frac))
  {
    FractionAfterPoint(frac, rest);
    UnsignedDecimalWithFraction(whole, ['.'] + (frac + rest), frac);
  }

  /** The same text, grouped as the digit run and what follows it. */
  lemma DecimalParts(s: string, whole: string, frac: string, rest: string)
    requires s == whole + "." + frac + rest
    ensures s == whole + (['.'] + (frac + rest))
  {
  }

  /** After the point, the fraction's digits are read up to `rest`. */
  lemma FractionAfterPoint(frac: string, rest: string)
    requires AllDigits(frac)
    requires rest == [] || !IsDigit(rest[0])
    ensures var after := ['.'] + (frac + rest);
      after != [] && after[0] == '.' && DigitRun(after[1..]) == frac
  {
    var after := ['.'] + (frac + rest);
    assert after[1..] == frac + rest;
    DigitRunOfDigits(frac, rest);
  }

  /** The unsigned reading of a digit run followed by a point and a fraction. */
  lemma UnsignedDecimalWithFraction(whole: string, after: string, frac: string)
    requires whole != [] && AllDigits(whole) && AllDigits(frac)
    requires after != [] && after[0] == '.' && DigitRun(after[1..]) == frac
    ensures UnsignedDecimal(whole + after) == Some(DigitsValue(whole) as real + FractionValue(frac))
  {
    DigitRunOfDigits(whole, after);
    UnsignedDecimalOfSplit(whole + after, whole, after, frac);
  }

  /** The reading of `u` once its digit run, the text after it and the
      fraction's digits are known. */
  lemma UnsignedDecimalOfSplit(u: string, whole: string, after: string, frac: string)
    requires whole != [] && AllDigits(frac)
    requires DigitRun(u) == whole && u[|whole|..] == after
    requires after != [] && after[0] == '.' && DigitRun(after[1..]) == frac
    ensures UnsignedDecimal(u) == Some(DigitsValue(whole) as real + FractionValue(frac))
  {
  }

  /** A rendered count followed by a unit parses back to the count. */
  lemma ParseIntOfRendered(n: nat, rest: string)
    requires rest == [] || !IsDigit(rest[0])
    ensures ParseInt(NatToString(n) + rest) == Some(n)
  {
    var ds := NatToString(n);
    var s := ds + rest;
    assert s[0] == ds[0];
    DigitRunOfDigits(ds, rest);
    ParseIntOfDigitStart(s, ds);
    NatToStringRoundTrip(n);
  }

  /** The rendering of any integer, followed by text that does not start with
      a digit, parses back to that integer: the sign and every digit of the
      magnitude are rendered. */
  lemma IntToStringRoundTrip(n: int, rest: string)
    requires rest == [] || !IsDigit(rest[0])
    ensures ParseInt(IntToString(n) + rest) == Some(n)
  {
    if n >= 0 {
      ParseIntOfRendered(n, rest);
    } else {
      ParseIntOfNegative(-n, IntToString(n) + rest, rest);
    }
  }

  /** A minus sign, the rendering of m and a unit parse back to -m. */
  lemma ParseIntOfNegative(m: nat, s: string, rest: string)
    requires rest == [] || !IsDigit(rest[0])
    requires s == "-" + NatToString(m) + rest
    ensures ParseInt(s) == Some(-(m as int))
  {
    var ds := NatToString(m);
    assert s[1..] == ds + rest;
    DigitRunOfDigits(ds, rest);
    ParseIntOfMinus(s, ds);
    NatToStringRoundTrip(m);
  }

  /** A minus sign followed by a digit run is read by `parseInt` as the
      negated value of the run. */
  lemma ParseIntOfMinus(s: string, ds: string)
    requires s != [] && s[0] == '-'
    requires DigitRun(s[1..]) == ds && ds != []
    ensures ParseInt(s).Some? && ParseInt(s).value == -(DigitsValue(ds) as int)
  {
    assert SkipSpaces(s) == s;
  }

  /** A string starting with a digit is read by `parseInt` as its digit run. */
  lemma ParseIntOfDigitStart(s: string, ds: string)
    requires s != [] && IsDigit(s[0])
    requires DigitRun(s) == ds
    ensures ParseInt(s).Some? && ParseInt(s).value == DigitsValue(ds)
  {
    assert SkipSpaces(s) == s;
  }
}
