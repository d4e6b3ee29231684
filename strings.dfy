/**
 * The handful of JavaScript string and number primitives the bookmarklet
 * relies on: `trim`, `includes`, `toLowerCase` (only as far as the letters
 * it is used with), the `\d`, `\w` and `\s` regular-expression classes,
 * `parseInt` on a run of decimal digits, `String(n)` on a whole number and
 * `padStart`.
 */
module Strings {

  import opened Wrappers

  // ---------------------------------------------------------------------
  // Character classes
  // ---------------------------------------------------------------------

  /** `\s` of an ECMAScript regular expression, which is also the set of
      characters `String.prototype.trim` removes: WhiteSpace and
      LineTerminator. */
  predicate IsSpace(c: char)
  {
    c == '\t' || c == '\n' || c == '\U{000B}' || c == '\U{000C}' || c == '\r' ||
    c == ' ' || c == '\U{00A0}' || c == '\U{1680}' ||
    ('\U{2000}' <= c <= '\U{200A}') ||
    c == '\U{2028}' || c == '\U{2029}' || c == '\U{202F}' || c == '\U{205F}' ||
    c == '\U{3000}' || c == '\U{FEFF}'
  }

  /** `\d` (without the `u` flag): the ASCII digits only. */
  predicate IsDigit(c: char)
  {
    '0' <= c <= '9'
  }

  /** `\w` (without the `u` flag): `[A-Za-z0-9_]`. */
  predicate IsWordChar(c: char)
  {
    ('A' <= c <= 'Z') || ('a' <= c <= 'z') || IsDigit(c) || c == '_'
  }

  /** `[A-Z0-9]`, the character class of the lead-number token. */
  predicate IsUpperAlnum(c: char)
  {
    ('A' <= c <= 'Z') || IsDigit(c)
  }

  predicate AllDigits(s: string)
  {
    forall i :: 0 <= i < |s| ==> IsDigit(s[i])
  }

  // ---------------------------------------------------------------------
  // trim
  // ---------------------------------------------------------------------

  function TrimStart(s: string): (r: string)
    ensures |r| <= |s| && r == s[|s| - |r|..]
    ensures r == [] || !IsSpace(r[0])
  {
    if s == [] || !IsSpace(s[0]) then s else TrimStart(s[1..])
  }

  function TrimEnd(s: string): (r: string)
    ensures |r| <= |s| && r == s[..|r|]
    ensures r == [] || !IsSpace(r[|r| - 1])
  {
    if s == [] || !IsSpace(s[|s| - 1]) then s else TrimEnd(s[..|s| - 1])
  }

  /** `String.prototype.trim`. */
  function Trim(s: string): (r: string)
  {
    TrimEnd(TrimStart(s))
  }

  /** `TrimStart` removes white space only. */
  lemma {:induction false} TrimStartDropsSpace(s: string)
    ensures forall i :: 0 <= i < |s| - |TrimStart(s)| ==> IsSpace(s[i])
  {
    if s != [] && IsSpace(s[0]) {
      TrimStartDropsSpace(s[1..]);
      forall i | 1 <= i < |s| - |TrimStart(s)| ensures IsSpace(s[i]) {
        assert s[i] == s[1..][i - 1];
      }
    }
  }

  /** `TrimEnd` removes white space only. */
  lemma {:induction false} TrimEndDropsSpace(s: string)
    ensures forall i :: |TrimEnd(s)| <= i < |s| ==> IsSpace(s[i])
  {
    if s != [] && IsSpace(s[|s| - 1]) {
      TrimEndDropsSpace(s[..|s| - 1]);
      forall i | |TrimEnd(s)| <= i < |s| - 1 ensures IsSpace(s[i]) {
        assert s[i] == s[..|s| - 1][i];
      }
    }
  }

  /** What `trim` promises: the result is the part of `s` between a run of
      leading and a run of trailing white space. */
  lemma TrimIsMiddle(s: string)
    ensures var i := |s| - |TrimStart(s)|;
      && i + |Trim(s)| <= |s| && Trim(s) == s[i..i + |Trim(s)|]
      && (forall k :: 0 <= k < i ==> IsSpace(s[k]))
      && (forall k :: i + |Trim(s)| <= k < |s| ==> IsSpace(s[k]))
  {
    var t := TrimStart(s);
    var i := |s| - |t|;
    var n := |TrimEnd(t)|;
    SliceOfSlice(s, i, n);
    TrimStartDropsSpace(s);
    TrimEndDropsSpace(t);
    SpaceInSuffix(s, i, n);
  }

  lemma SliceOfSlice(s: string, i: nat, n: nat)
    requires i + n <= |s|
    ensures s[i..][..n] == s[i..i + n]
  {
  }

  lemma SpaceInSuffix(s: string, i: nat, n: nat)
    requires i + n <= |s|
    requires forall k :: n <= k < |s[i..]| ==> IsSpace(s[i..][k])
    ensures forall k :: i + n <= k < |s| ==> IsSpace(s[k])
  {
    forall k | i + n <= k < |s| ensures IsSpace(s[k]) {
      assert s[k] == s[i..][k - i];
    }
  }

  /** ... and the result neither starts nor ends with white space. */
  lemma TrimmedEnds(s: string)
    ensures Trim(s) == [] || (!IsSpace(Trim(s)[0]) && !IsSpace(Trim(s)[|Trim(s)| - 1]))
  {
    TrimEndKeepsStart(TrimStart(s));
  }

  lemma {:induction false} TrimStartOfTrimmed(s: string)
    requires s == [] || !IsSpace(s[0])
    ensures TrimStart(s) == s
  {
  }

  lemma {:induction false} TrimEndKeepsStart(s: string)
    requires s == [] || !IsSpace(s[0])
    ensures TrimEnd(s) == [] || !IsSpace(TrimEnd(s)[0])
  {
    if s != [] && IsSpace(s[|s| - 1]) {
      if |s| > 1 {
        assert s[..|s| - 1][0] == s[0];
        TrimEndKeepsStart(s[..|s| - 1]);
      }
    }
  }

  /** Trimming twice is trimming once. */
  lemma TrimIdempotent(s: string)
    ensures Trim(Trim(s)) == Trim(s)
  {
    TrimEndKeepsStart(TrimStart(s));
    TrimStartOfTrimmed(Trim(s));
  }

  // ---------------------------------------------------------------------
  // includes
  // ---------------------------------------------------------------------

  predicate OccursAt(s: string, sub: string, i: nat)
  {
    i + |sub| <= |s| && s[i..i + |sub|] == sub
  }

  /** The first position at or after `from` where `sub` occurs. */
  function IndexFrom(s: string, sub: string, from: nat): (r: Option<nat>)
    decreases |s| - from
    ensures r.Some? ==> from <= r.value && OccursAt(s, sub, r.value)
    ensures r.Some? ==> forall k :: from <= k < r.value ==> !OccursAt(s, sub, k)
    ensures r.None? ==> forall k :: from <= k ==> !OccursAt(s, sub, k)
  {
    if from + |sub| > |s| then None
    else if s[from..from + |sub|] == sub then Some(from)
    else IndexFrom(s, sub, from + 1)
  }

  /** `String.prototype.includes`. */
  predicate Includes(s: string, sub: string)
  {
    IndexFrom(s, sub, 0).Some?
  }

  lemma IncludesIff(s: string, sub: string)
    ensures Includes(s, sub) <==> exists i :: OccursAt(s, sub, i)
  {
    if Includes(s, sub) {
      assert OccursAt(s, sub, IndexFrom(s, sub, 0).value);
    }
  }

  // ---------------------------------------------------------------------
  // Lower case, for the letters the bookmarklet compares against
  // ---------------------------------------------------------------------

  function LowerChar(c: char): char
  {
    if 'A' <= c <= 'Z' then (c as int + 32) as char else c
  }

  function Lower(s: string): (r: string)
    ensures |r| == |s|
    ensures forall i :: 0 <= i < |s| ==> r[i] == LowerChar(s[i])
  {
    seq(|s|, i requires 0 <= i < |s| => LowerChar(s[i]))
  }

  // ---------------------------------------------------------------------
  // Digits, parseInt and String(n)
  // ---------------------------------------------------------------------

  /** `s.replace(/\D/g, '')`: the digits of `s`, in order. */
  function Digits(s: string): (d: string)
    ensures AllDigits(d) && |d| <= |s|
  {
    if s == [] then []
    else if IsDigit(s[0]) then [s[0]] + Digits(s[1..])
    else Digits(s[1..])
  }

  lemma {:induction false} DigitsAppend(a: string, b: string)
    ensures Digits(a + b) == Digits(a) + Digits(b)
  {
    if a != [] {
      assert (a + b)[1..] == a[1..] + b;
      DigitsAppend(a[1..], b);
    } else {
      assert a + b == b;
    }
  }

  /** Removing non-digits from a string of digits changes nothing. */
  lemma {:induction false} DigitsOfDigits(s: string)
    requires AllDigits(s)
    ensures Digits(s) == s
  {
    if s != [] {
      DigitsOfDigits(s[1..]);
    }
  }

  function DigitValue(c: char): nat
    requires IsDigit(c)
  {
    c as int - '0' as int
  }

  function DigitChar(n: nat): (c: char)
    requires n < 10
    ensures IsDigit(c) && DigitValue(c) == n
  {
    ('0' as int + n) as char
  }

  /** `parseInt` applied to a non-empty run of decimal digits. */
  function DecimalValue(ds: string): nat
    requires AllDigits(ds)
  {
    if ds == [] then 0
    else 10 * DecimalValue(ds[..|ds| - 1]) + DigitValue(ds[|ds| - 1])
  }

  /** `String(n)` for a whole number: its decimal digits, no leading zero. */
  function NatToString(n: nat): (s: string)
    ensures |s| >= 1 && AllDigits(s)
    ensures |s| > 1 ==> s[0] != '0'
  {
    if n < 10 then [DigitChar(n)]
    else NatToString(n / 10) + [DigitChar(n % 10)]
  }

  /** `String` and `parseInt` are inverse on whole numbers. */
  lemma {:induction false} DecimalValueOfNatToString(n: nat)
    ensures DecimalValue(NatToString(n)) == n
  {
    var s := NatToString(n);
    if n >= 10 {
      DecimalValueOfNatToString(n / 10);
      assert s[..|s| - 1] == NatToString(n / 10);
    }
  }

  lemma NatToStringInjective(m: nat, n: nat)
    requires NatToString(m) == NatToString(n)
    ensures m == n
  {
    DecimalValueOfNatToString(m);
    DecimalValueOfNatToString(n);
  }

  function Repeat(c: char, n: nat): (r: string)
    ensures |r| == n && forall i :: 0 <= i < n ==> r[i] == c
  {
    if n == 0 then [] else [c] + Repeat(c, n - 1)
  }

  /** `s.padStart(len, fill)` with a one-character fill. */
  function PadStart(s: string, len: nat, fill: char): (r: string)
    ensures |r| == if |s| >= len then |s| else len
    ensures r[|r| - |s|..] == s
    ensures forall i :: 0 <= i < |r| - |s| ==> r[i] == fill
  {
    if |s| >= len then s else Repeat(fill, len - |s|) + s
  }

  // ---------------------------------------------------------------------
  // Regular-expression building blocks
  // ---------------------------------------------------------------------

  /** The character classes the bookmarklet's patterns use. */
  datatype CharClass = Word | Digit | Space | UpperAlnum

  predicate InClass(c: char, k: CharClass)
  {
    match k
    case Word => IsWordChar(c)
    case Digit => IsDigit(c)
    case Space => IsSpace(c)
    case UpperAlnum => IsUpperAlnum(c)
  }

  /** Length of the longest run of class `k` at the start of `t`. */
  function Span(t: string, k: CharClass): (n: nat)
    ensures n <= |t|
    ensures forall p :: 0 <= p < n ==> InClass(t[p], k)
    ensures n == |t| || !InClass(t[n], k)
  {
    if t == [] || !InClass(t[0], k) then 0 else 1 + Span(t[1..], k)
  }

  /** A non-empty run of class `k` at the start of a string, and what
      follows it. */
  datatype Scan = Scan(token: string, rest: string)

  /** `k+`, matched greedily at the start of `t`. */
  function Take(t: string, k: CharClass): (r: Option<Scan>)
    ensures r.Some? ==> r.value.token != [] && r.value.token + r.value.rest == t
    ensures r.Some? ==> forall p :: 0 <= p < |r.value.token| ==> InClass(r.value.token[p], k)
    ensures r.Some? ==> r.value.rest == [] || !InClass(r.value.rest[0], k)
    ensures r.None? <==> t == [] || !InClass(t[0], k)
  {
    var n := Span(t, k);
    if n == 0 then None else Some(Scan(t[..n], t[n..]))
  }

  /** A literal character at the start of `t`. */
  function Literal(t: string, c: char): Option<string>
  {
    if t != [] && t[0] == c then Some(t[1..]) else None
  }

  lemma {:induction false} SpanOfConcat(x: string, y: string, k: CharClass)
    requires forall p :: 0 <= p < |x| ==> InClass(x[p], k)
    requires y == [] || !InClass(y[0], k)
    ensures Span(x + y, k) == |x|
  {
    if x != [] {
      assert (x + y)[1..] == x[1..] + y;
      SpanOfConcat(x[1..], y, k);
    } else {
      assert x + y == y;
    }
  }

  lemma TakeOfConcat(x: string, y: string, k: CharClass)
    requires x != [] && forall p :: 0 <= p < |x| ==> InClass(x[p], k)
    requires y == [] || !InClass(y[0], k)
    ensures Take(x + y, k) == Some(Scan(x, y))
  {
    SpanOfConcat(x, y, k);
    assert (x + y)[..|x|] == x && (x + y)[|x|..] == y;
  }

}
