/**
 * The few JavaScript string operations the extension relies on, over
 * `string` (a sequence of Unicode scalar values): `includes`, `trim`,
 * `substring(0, n)`, decimal rendering of a number and `parseInt(s, 10)`.
 */
module Strings {
  import opened Wrappers

  // ---------------------------------------------------------------------
  // Optional strings and JavaScript truthiness: a missing value and the
  // empty string are both falsy.
  // ---------------------------------------------------------------------

  /** The string is present and non-empty, i.e. truthy. */
  predicate Given(v: Option<string>) {
    v.Some? && v.value != ""
  }

  /** JavaScript's `v || fallback` on a possibly missing string. */
  function OrDefault(v: Option<string>, fallback: string): (r: string)
    ensures Given(v) ==> r == v.value
    ensures !Given(v) ==> r == fallback
  {
    if Given(v) then v.value else fallback
  }

  // ---------------------------------------------------------------------
  // Substring search: `s.includes(sub)`, and `/lit/.test(s)` for a
  // regular expression made of literal characters only.
  // ---------------------------------------------------------------------

  predicate StartsWith(s: string, prefix: string) {
    |prefix| <= |s| && s[..|prefix|] == prefix
  }

  /** `sub` occurs in `s` starting at index `i`. */
  predicate OccursAt(s: string, sub: string, i: int) {
    0 <= i && i + |sub| <= |s| && s[i..i + |sub|] == sub
  }

  predicate Contains(s: string, sub: string)
    decreases |s|
  {
    StartsWith(s, sub) || (|s| > 0 && Contains(s[1..], sub))
  }

  /** `Contains` finds exactly the positions where `sub` occurs. */
  lemma {:induction false} ContainsIff(s: string, sub: string)
    ensures Contains(s, sub) <==> exists i :: OccursAt(s, sub, i)
    decreases |s|
  {
    if StartsWith(s, sub) {
      assert OccursAt(s, sub, 0);
    } else if |s| == 0 {
      assert |sub| > 0;
    } else {
      ContainsIff(s[1..], sub);
      if Contains(s[1..], sub) {
        var i :| OccursAt(s[1..], sub, i);
        assert s[1..][i..i + |sub|] == s[i + 1..i + 1 + |sub|];
        assert OccursAt(s, sub, i + 1);
      }
      assert !OccursAt(s, sub, 0);
      forall i | OccursAt(s, sub, i) && i > 0 ensures OccursAt(s[1..], sub, i - 1) {
        assert s[1..][i - 1..i - 1 + |sub|] == s[i..i + |sub|];
        assert OccursAt(s[1..], sub, i - 1);
      }
    }
  }

  /** An occurrence at a known position is found. */
  lemma ContainsAt(s: string, sub: string, i: int)
    requires OccursAt(s, sub, i)
    ensures Contains(s, sub)
  {
    ContainsIff(s, sub);
  }

  /** A character of `sub` that `s` lacks rules out every occurrence. */
  lemma AbsentChar(s: string, sub: string, j: int)
    requires 0 <= j < |sub| && sub[j] !in s
    ensures !Contains(s, sub)
  {
    forall i | 0 <= i && i + |sub| <= |s| ensures !OccursAt(s, sub, i) {
      assert s[i..i + |sub|][j] == s[i + j];
    }
    ContainsIff(s, sub);
  }

  /**
   * No occurrence in `a + b` when `a` lacks the first character of `sub`
   * and `b` lacks its last one.
   */
  lemma AbsentAcross(a: string, b: string, sub: string)
    requires |sub| > 0 && sub[0] !in a && sub[|sub| - 1] !in b
    ensures !Contains(a + b, sub)
  {
    var s := a + b;
    forall i | 0 <= i && i + |sub| <= |s| ensures !OccursAt(s, sub, i) {
      var last := i + |sub| - 1;
      assert s[i..i + |sub|][0] == s[i];
      assert s[i..i + |sub|][|sub| - 1] == s[last];
      if i < |a| {
        assert s[i] == a[i];
      } else {
        assert s[last] == b[last - |a|];
      }
    }
    ContainsIff(s, sub);
  }

  // ---------------------------------------------------------------------
  // `String.prototype.trim`: strips ECMAScript WhiteSpace and
  // LineTerminator code points from both ends.
  // ---------------------------------------------------------------------

  predicate IsWhite(c: char) {
    || c == '\t' || c == '\n' || c == '\U{B}' || c == '\U{C}' || c == '\r'
    || c == ' ' || c == '\U{A0}' || c == '\U{1680}'
    || ('\U{2000}' <= c <= '\U{200A}')
    || c == '\U{2028}' || c == '\U{2029}' || c == '\U{202F}' || c == '\U{205F}'
    || c == '\U{3000}' || c == '\U{FEFF}'
  }

  predicate AllWhite(s: string) {
    forall k :: 0 <= k < |s| ==> IsWhite(s[k])
  }

  /** Neither end of `s` is white space. */
  predicate IsTrimmed(s: string) {
    s == [] || (!IsWhite(s[0]) && !IsWhite(s[|s| - 1]))
  }

  function TrimStart(s: string): string
    decreases |s|
  {
    if |s| > 0 && IsWhite(s[0]) then TrimStart(s[1..]) else s
  }

  function TrimEnd(s: string): string
    decreases |s|
  {
    if |s| > 0 && IsWhite(s[|s| - 1]) then TrimEnd(s[..|s| - 1]) else s
  }

  function Trim(s: string): string {
    TrimEnd(TrimStart(s))
  }

  lemma {:induction false} TrimStartShape(s: string)
    ensures exists i :: 0 <= i <= |s| && TrimStart(s) == s[i..] && AllWhite(s[..i])
    ensures TrimStart(s) == [] || !IsWhite(TrimStart(s)[0])
    decreases |s|
  {
    if |s| > 0 && IsWhite(s[0]) {
      TrimStartShape(s[1..]);
      var i :| 0 <= i <= |s[1..]| && TrimStart(s[1..]) == s[1..][i..] && AllWhite(s[1..][..i]);
      assert s[1..][i..] == s[i + 1..];
      var w := s[..i + 1];
      forall k | 0 <= k < |w| ensures IsWhite(w[k]) {
        if k > 0 {
          assert w[k] == s[1..][..i][k - 1];
        }
      }
    } else {
      assert s == s[0..] && AllWhite(s[..0]);
    }
  }

  lemma {:induction false} TrimEndShape(s: string)
    ensures exists j :: 0 <= j <= |s| && TrimEnd(s) == s[..j] && AllWhite(s[j..])
    ensures TrimEnd(s) == [] || !IsWhite(TrimEnd(s)[|TrimEnd(s)| - 1])
    decreases |s|
  {
    if |s| > 0 && IsWhite(s[|s| - 1]) {
      var p := s[..|s| - 1];
      TrimEndShape(p);
      var j :| 0 <= j <= |p| && TrimEnd(p) == p[..j] && AllWhite(p[j..]);
      assert p[..j] == s[..j];
      assert forall k :: 0 <= k < |s| - j ==> s[j..][k] == (if k < |p| - j then p[j..][k] else s[|s| - 1]);
      assert AllWhite(s[j..]);
    } else {
      assert s == s[..|s|] && AllWhite(s[|s|..]);
    }
  }

  /** TrimEnd of a string that does not start with white space does not either. */
  lemma {:induction false} TrimEndKeepsFront(s: string)
    requires |s| > 0 && !IsWhite(s[0])
    ensures |TrimEnd(s)| > 0 && TrimEnd(s)[0] == s[0]
    decreases |s|
  {
    if IsWhite(s[|s| - 1]) {
      assert |s| > 1;
      TrimEndKeepsFront(s[..|s| - 1]);
    }
  }

  /** White space at the end of `b` is all `TrimEnd` removes when `b` holds a non-white character. */
  lemma {:induction false} TrimEndAppend(a: string, b: string, k: int)
    requires 0 <= k < |b| && !IsWhite(b[k])
    ensures TrimEnd(a + b) == a + TrimEnd(b)
    decreases |b|
  {
    var s := a + b;
    if IsWhite(b[|b| - 1]) {
      assert k < |b| - 1;
      var b' := b[..|b| - 1];
      assert s[..|s| - 1] == a + b';
      TrimEndAppend(a, b', k);
    }
  }

  /** Appending white space does not change what `TrimEnd` leaves. */
  lemma {:induction false} TrimEndDropsWhite(t: string, w: string)
    requires AllWhite(w)
    ensures TrimEnd(t + w) == TrimEnd(t)
    decreases |w|
  {
    if |w| > 0 {
      var w' := w[..|w| - 1];
      assert (t + w)[..|t + w| - 1] == t + w';
      TrimEndDropsWhite(t, w');
    } else {
      assert t + w == t;
    }
  }

  /** The result of `trim` has no white space at either end. */
  lemma TrimIsTrimmed(s: string)
    ensures IsTrimmed(Trim(s))
  {
    var t := TrimStart(s);
    TrimStartShape(s);
    TrimEndShape(t);
    if |t| > 0 && !IsWhite(t[0]) {
      TrimEndKeepsFront(t);
    }
  }

  /** The slices that `TrimStart` and then `TrimEnd` leave, as one slice of the input. */
  lemma TrimSlice(s: string, i: int, j: int)
    requires 0 <= i <= |s| && TrimStart(s) == s[i..]
    requires 0 <= j <= |s| - i && TrimEnd(s[i..]) == s[i..][..j] && AllWhite(s[i..][j..])
    ensures Trim(s) == s[i..i + j] && AllWhite(s[i + j..])
  {
    assert s[i..][..j] == s[i..i + j];
    assert s[i..][j..] == s[i + j..];
  }

  /**
   * `trim` removes exactly the white space at both ends: the result is a
   * slice of the input with nothing but white space around it.
   */
  lemma TrimShape(s: string)
    ensures exists i, j :: 0 <= i <= j <= |s| && Trim(s) == s[i..j]
                           && AllWhite(s[..i]) && AllWhite(s[j..])
  {
    TrimStartShape(s);
    var i :| 0 <= i <= |s| && TrimStart(s) == s[i..] && AllWhite(s[..i]);
    TrimEndShape(s[i..]);
    var j :| 0 <= j <= |s[i..]| && TrimEnd(s[i..]) == s[i..][..j] && AllWhite(s[i..][j..]);
    TrimSlice(s, i, j);
    assert 0 <= i <= i + j <= |s|;
  }

  /**
   * A fixed head that does not start with white space survives trimming,
   * as long as something non-white follows it.
   */
  lemma {:induction false} TrimKeepsHead(head: string, rest: string, k: int)
    requires |head| > 0 && !IsWhite(head[0])
    requires 0 <= k < |rest| && !IsWhite(rest[k])
    ensures StartsWith(Trim(head + rest), head)
    decreases |rest|
  {
    var s := head + rest;
    assert TrimStart(s) == s;
    if IsWhite(s[|s| - 1]) {
      assert k < |rest| - 1;
      var r' := rest[..|rest| - 1];
      assert s[..|s| - 1] == head + r';
      TrimKeepsHead(head, r', k);
    } else {
      assert s[..|head|] == head;
    }
  }

  // ---------------------------------------------------------------------
  // Splitting at a separator character.
  // ---------------------------------------------------------------------

  /** The text before the first `c` in `s`, or all of `s` when there is none. */
  function TakeUntil(s: string, c: char): (r: string)
    ensures StartsWith(s, r) && c !in r
    ensures |r| < |s| ==> s[|r|] == c
    decreases |s|
  {
    if |s| == 0 || s[0] == c then [] else [s[0]] + TakeUntil(s[1..], c)
  }

  lemma {:induction false} TakeUntilWhole(s: string, c: char)
    requires c !in s
    ensures TakeUntil(s, c) == s
    decreases |s|
  {
    if |s| > 0 {
      TakeUntilWhole(s[1..], c);
      assert s == [s[0]] + s[1..];
    }
  }

  lemma {:induction false} TakeUntilSeparator(a: string, c: char, b: string)
    requires c !in a
    ensures TakeUntil(a + [c] + b, c) == a
    decreases |a|
  {
    if |a| > 0 {
      assert (a + [c] + b)[1..] == a[1..] + [c] + b;
      TakeUntilSeparator(a[1..], c, b);
      assert a == [a[0]] + a[1..];
    }
  }

  // ---------------------------------------------------------------------
  // Concatenation, regrouped (the verifier does not regroup on its own
  // at a reasonable cost).
  // ---------------------------------------------------------------------

  lemma AppendAssoc<T>(a: seq<T>, b: seq<T>, c: seq<T>)
    ensures (a + b) + c == a + (b + c)
  {
  }

  // ---------------------------------------------------------------------
  // `s.substring(0, n)` for n >= 0.
  // ---------------------------------------------------------------------

  function Truncate(s: string, n: nat): (r: string)
    ensures |r| == if |s| < n then |s| else n
    ensures StartsWith(s, r)
  {
    if |s| <= n then s else s[..n]
  }

  // ---------------------------------------------------------------------
  // Decimal numerals: a template literal `${n}` for a natural number `n`,
  // and `parseInt(s, 10)`.
  // ---------------------------------------------------------------------

  predicate IsDigit(c: char) {
    '0' <= c <= '9'
  }

  function DigitValue(c: char): nat
    requires IsDigit(c)
  {
    c as int - '0' as int
  }

  function DigitChar(d: nat): (c: char)
    requires d < 10
    ensures IsDigit(c) && DigitValue(c) == d
  {
    ('0' as int + d) as char
  }

  /** `${n}` for a natural number (no sign, no leading zeros). */
  function NatToString(n: nat): (r: string)
    ensures |r| > 0 && forall k :: 0 <= k < |r| ==> IsDigit(r[k])
    decreases n
  {
    if n < 10 then [DigitChar(n)] else NatToString(n / 10) + [DigitChar(n % 10)]
  }

  /** The value of a string of decimal digits, most significant first. */
  function DigitsValue(ds: string): nat
    requires forall k :: 0 <= k < |ds| ==> IsDigit(ds[k])
    decreases |ds|
  {
    if ds == [] then 0 else DigitsValue(ds[..|ds| - 1]) * 10 + DigitValue(ds[|ds| - 1])
  }

  /** The longest prefix of `s` made of decimal digits. */
  function LeadingDigits(s: string): (r: string)
    ensures StartsWith(s, r)
    ensures forall k :: 0 <= k < |r| ==> IsDigit(r[k])
    ensures |r| < |s| ==> !IsDigit(s[|r|])
    decreases |s|
  {
    if |s| > 0 && IsDigit(s[0]) then [s[0]] + LeadingDigits(s[1..]) else []
  }

  /**
   * `parseInt(s, 10)`: leading white space is skipped, one optional sign is
   * read, then the longest run of decimal digits; `None` stands for `NaN`
   * (no digit there). Negative zero is the integer 0.
   */
  function ParseInt(s: string): (r: Option<int>)
    ensures r.None? <==> LeadingDigits(UnsignedPart(TrimStart(s))) == []
  {
    var t := TrimStart(s);
    var u := UnsignedPart(t);
    var ds := LeadingDigits(u);
    if ds == [] then None
    else if |t| > 0 && t[0] == '-' then Some(-(DigitsValue(ds) as int))
    else Some(DigitsValue(ds))
  }

  /** What follows an optional leading `+` or `-`. */
  function UnsignedPart(t: string): string {
    if |t| > 0 && (t[0] == '-' || t[0] == '+') then t[1..] else t
  }

  lemma {:induction false} DigitsValueOfNatToString(n: nat)
    ensures DigitsValue(NatToString(n)) == n
    decreases n
  {
    var r := NatToString(n);
    if n >= 10 {
      DigitsValueOfNatToString(n / 10);
      assert r[..|r| - 1] == NatToString(n / 10);
    }
  }

  /** The digits in front of a non-digit are the leading digits. */
  lemma {:induction false} LeadingDigitsStop(ds: string, rest: string)
    requires forall k :: 0 <= k < |ds| ==> IsDigit(ds[k])
    requires rest == [] || !IsDigit(rest[0])
    ensures LeadingDigits(ds + rest) == ds
    decreases |ds|
  {
    if |ds| > 0 {
      assert (ds + rest)[1..] == ds[1..] + rest;
      LeadingDigitsStop(ds[1..], rest);
      assert ds == [ds[0]] + ds[1..];
    } else {
      assert ds + rest == rest;
    }
  }

  /** Leading white space in front of a non-white start is all `TrimStart` removes. */
  lemma {:induction false} TrimStartSkipsWhite(w: string, t: string)
    requires AllWhite(w)
    requires t == [] || !IsWhite(t[0])
    ensures TrimStart(w + t) == t
    decreases |w|
  {
    if |w| > 0 {
      assert (w + t)[1..] == w[1..] + t;
      TrimStartSkipsWhite(w[1..], t);
    } else {
      assert w + t == t;
    }
  }

  /** `parseInt` reads back every rendered natural number. */
  lemma ParseIntOfNatToString(n: nat)
    ensures ParseInt(NatToString(n)) == Some(n)
  {
    var r := NatToString(n);
    assert !IsWhite(r[0]) && r[0] != '-' && r[0] != '+';
    assert TrimStart(r) == r && UnsignedPart(r) == r;
    LeadingDigitsStop(r, []);
    assert r + [] == r;
    DigitsValueOfNatToString(n);
  }

  /** The sign of a trimmed text and the digits after it decide what `parseInt` gives. */
  lemma ParseIntOfParts(s: string, t: string, digits: string, negative: bool)
    requires TrimStart(s) == t
    requires |t| > 0 && (t[0] == '-' <==> negative)
    requires forall k :: 0 <= k < |digits| ==> IsDigit(digits[k])
    requires LeadingDigits(UnsignedPart(t)) == digits && digits != []
    ensures ParseInt(s) == Some(if negative then -(DigitsValue(digits) as int) else DigitsValue(digits) as int)
  {
  }

  /** A text that starts with an optional sign and then a digit. */
  lemma SignedNumeral(sign: string, unsigned: string)
    requires sign == "" || sign == "+" || sign == "-"
    requires |unsigned| > 0 && IsDigit(unsigned[0])
    ensures var t := sign + unsigned;
            && |t| > 0 && !IsWhite(t[0]) && (t[0] == '-' <==> sign == "-") && UnsignedPart(t) == unsigned
  {
    var t := sign + unsigned;
    if sign == "" {
      assert t == unsigned;
    } else {
      assert t[0] == sign[0] && t[1..] == unsigned;
    }
  }

  /**
   * `parseInt` skips leading white space, reads one optional sign and the
   * numeral after it, and ignores whatever follows the last digit, as in
   * `" -12px"`, which gives -12.
   */
  lemma ParseIntOfNumeral(ws: string, sign: string, n: nat, rest: string)
    requires AllWhite(ws)
    requires sign == "" || sign == "+" || sign == "-"
    requires rest == [] || !IsDigit(rest[0])
    ensures ParseInt(ws + sign + NatToString(n) + rest) == Some(if sign == "-" then -(n as int) else n as int)
  {
    var digits := NatToString(n);
    var unsigned := digits + rest;
    var t := sign + unsigned;
    assert ws + sign + digits + rest == ws + t by {
      AppendAssoc(ws + sign, digits, rest);
      AppendAssoc(ws, sign, unsigned);
    }
    assert unsigned[0] == digits[0];
    SignedNumeral(sign, unsigned);
    TrimStartSkipsWhite(ws, t);
    LeadingDigitsStop(digits, rest);
    DigitsValueOfNatToString(n);
    ParseIntOfParts(ws + t, t, digits, sign == "-");
  }
}
