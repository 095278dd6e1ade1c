/**
 * The parts of the JavaScript runtime the application relies on, stated on
 * Dafny values: `String.prototype.trim`, `toLowerCase`, the decimal form of a
 * non-negative integer, `parseInt`, and plain objects used as dictionaries
 * (with the key order `Object.keys` reports).
 */
module Js {
  import opened Base

  // ---------------------------------------------------------------- whitespace and trim

  /**
   * WhiteSpace and LineTerminator code points of ECMAScript (sections 12.2 and
   * 12.3): the characters `trim` removes and `parseInt` skips.
   */
  predicate IsWhiteSpace(c: char) {
    || c == '\t' || c == '\n' || c == '\U{0B}' || c == '\U{0C}' || c == '\r' || c == ' '
    || c == '\U{A0}' || c == '\U{1680}' || ('\U{2000}' <= c <= '\U{200A}')
    || c == '\U{2028}' || c == '\U{2029}' || c == '\U{202F}' || c == '\U{205F}'
    || c == '\U{3000}' || c == '\U{FEFF}'
  }

  /** `s` without its leading whitespace. */
  function TrimStart(s: string): (r: string)
    ensures |r| <= |s| && r == s[|s| - |r|..]
    ensures forall i :: 0 <= i < |s| - |r| ==> IsWhiteSpace(s[i])
    ensures r == [] || !IsWhiteSpace(r[0])
  {
    if s != [] && IsWhiteSpace(s[0]) then TrimStart(s[1..]) else s
  }

  /** `s` without its trailing whitespace. */
  function TrimEnd(s: string): (r: string)
    ensures |r| <= |s| && r == s[..|r|]
    ensures forall i :: |r| <= i < |s| ==> IsWhiteSpace(s[i])
    ensures r == [] || !IsWhiteSpace(r[|r| - 1])
  {
    if s != [] && IsWhiteSpace(s[|s| - 1]) then TrimEnd(s[..|s| - 1]) else s
  }

  /** `String.prototype.trim`: a contiguous part of `s` with the surrounding whitespace removed. */
  function Trim(s: string): (r: string)
    ensures |r| <= |s|
    ensures r == [] || (!IsWhiteSpace(r[0]) && !IsWhiteSpace(r[|r| - 1]))
    ensures r == [] <==> forall i :: 0 <= i < |s| ==> IsWhiteSpace(s[i])
  {
    TrimFacts(s);
    TrimEnd(TrimStart(s))
  }

  lemma TrimFacts(s: string)
    ensures var r := TrimEnd(TrimStart(s));
      && (r == [] || !IsWhiteSpace(r[0]))
      && (r == [] <==> forall i :: 0 <= i < |s| ==> IsWhiteSpace(s[i]))
  {
    var t := TrimStart(s);
    var r := TrimEnd(t);
    if r != [] {
      assert r[0] == t[0];
    }
  }

  /** A string with no surrounding whitespace is left as it is. */
  lemma TrimKeepsTrimmed(s: string)
    requires s == [] || (!IsWhiteSpace(s[0]) && !IsWhiteSpace(s[|s| - 1]))
    ensures Trim(s) == s
  {
  }

  /** Trimming twice is trimming once. */
  lemma TrimIdempotent(s: string)
    ensures Trim(Trim(s)) == Trim(s)
  {
    TrimKeepsTrimmed(Trim(s));
  }

  // ---------------------------------------------------------------- toLowerCase

  function LowerChar(c: char): char {
    if 'A' <= c <= 'Z' then (c as int + 32) as char else c
  }

  /** `String.prototype.toLowerCase`, on the ASCII letters. */
  function ToLower(s: string): (r: string)
    ensures |r| == |s|
    ensures forall i :: 0 <= i < |s| ==> r[i] == LowerChar(s[i])
    ensures forall i :: 0 <= i < |r| ==> !('A' <= r[i] <= 'Z')
  {
    seq(|s|, i requires 0 <= i < |s| => LowerChar(s[i]))
  }

  /** A string holding an upper-case letter is never the result of `ToLower`. */
  lemma {:induction false} LowerHasNoCapital(s: string, t: string, i: nat)
    requires i < |t| && 'A' <= t[i] <= 'Z'
    ensures ToLower(s) != t
  {
    if |ToLower(s)| == |t| {
      assert !('A' <= ToLower(s)[i] <= 'Z');
    }
  }

  // ---------------------------------------------------------------- digits and numerals

  /** The value of a digit in bases up to 16, or -1 for any other character. */
  function DigitValue(c: char): int {
    if '0' <= c <= '9' then c as int - '0' as int
    else if 'a' <= c <= 'f' then c as int - 'a' as int + 10
    else if 'A' <= c <= 'F' then c as int - 'A' as int + 10
    else -1
  }

  predicate IsRadixDigit(c: char, radix: nat) {
    0 <= DigitValue(c) < radix
  }

  predicate IsDigit(c: char) {
    '0' <= c <= '9'
  }

  predicate AllDigits(s: string, radix: nat) {
    forall i :: 0 <= i < |s| ==> IsRadixDigit(s[i], radix)
  }

  /** The value of a numeral in base `radix`, most significant digit first. */
  function NumeralValue(s: string, radix: nat): nat
    requires AllDigits(s, radix)
  {
    if s == [] then 0
    else NumeralValue(s[..|s| - 1], radix) * radix + DigitValue(s[|s| - 1])
  }

  function DigitChar(d: nat): (c: char)
    requires d < 10
    ensures IsRadixDigit(c, 10) && DigitValue(c) == d
  {
    ('0' as int + d) as char
  }

  /** The decimal numeral JavaScript prints for a non-negative integer. */
  function NatToString(n: nat): (s: string)
    ensures s != [] && AllDigits(s, 10)
    ensures s[0] != '0' || n == 0
  {
    if n < 10 then [DigitChar(n)] else NatToString(n / 10) + [DigitChar(n % 10)]
  }

  /** Reading back a printed number gives the number. */
  lemma {:induction false} NatToStringRoundTrip(n: nat)
    ensures NumeralValue(NatToString(n), 10) == n
  {
    var s := NatToString(n);
    if n >= 10 {
      NatToStringRoundTrip(n / 10);
      assert s[..|s| - 1] == NatToString(n / 10);
    }
  }

  /** A decimal numeral without a leading zero is the printed form of its value. */
  lemma {:induction false} CanonicalNumeral(s: string)
    requires s != [] && AllDigits(s, 10) && (s[0] != '0' || |s| == 1)
    ensures NatToString(NumeralValue(s, 10)) == s
  {
    if |s| > 1 {
      var p := s[..|s| - 1];
      CanonicalNumeral(p);
      PositiveNumeral(p);
      var v := NumeralValue(s, 10);
      assert v / 10 == NumeralValue(p, 10) && v % 10 == DigitValue(s[|s| - 1]);
      assert [DigitChar(v % 10)] == [s[|s| - 1]];
      assert s == p + [s[|s| - 1]];
    }
  }

  lemma {:induction false} PositiveNumeral(s: string)
    requires s != [] && AllDigits(s, 10) && s[0] != '0'
    ensures NumeralValue(s, 10) > 0
  {
    if |s| > 1 {
      PositiveNumeral(s[..|s| - 1]);
    }
  }

  // ---------------------------------------------------------------- parseInt

  /** The length of the longest prefix of `s` made of digits of base `radix`. */
  function DigitRun(s: string, radix: nat): (n: nat)
    ensures n <= |s| && AllDigits(s[..n], radix)
    ensures n < |s| ==> !IsRadixDigit(s[n], radix)
  {
    if s != [] && IsRadixDigit(s[0], radix) then
      var n := DigitRun(s[1..], radix) + 1;
      assert s[..n] == [s[0]] + s[1..][..n - 1];
      n
    else 0
  }

  /**
   * `parseInt(s)` with no radix (ECMAScript section 19.2.5): skip leading
   * whitespace, read an optional sign, read base 16 after `0x` or `0X` and base
   * 10 otherwise, and stop at the first character that is not a digit. `None`
   * stands for NaN, which `JSON.stringify` sends as `null`.
   */
  function ParseInt(s: string): (r: Option<int>)
    ensures r.None? <==> DigitRun(Unsigned(TrimStart(s)).1, Unsigned(TrimStart(s)).0) == 0
  {
    var t := TrimStart(s);
    var negative := t != [] && t[0] == '-';
    var (radix, body) := Unsigned(t);
    var n := DigitRun(body, radix);
    if n == 0 then None
    else
      var m: int := NumeralValue(body[..n], radix);
      Some(if negative then -m else m)
  }

  /** The base and the digits that follow the sign and the optional `0x` prefix. */
  function Unsigned(t: string): (nat, string) {
    var u := if t != [] && (t[0] == '-' || t[0] == '+') then t[1..] else t;
    if |u| >= 2 && u[0] == '0' && (u[1] == 'x' || u[1] == 'X') then (16, u[2..]) else (10, u)
  }

  /** `parseInt` reads back the decimal form of a non-negative integer. */
  lemma ParseIntOfNumeral(n: nat)
    ensures ParseInt(NatToString(n)) == Some(n)
  {
    var s := NatToString(n);
    assert TrimStart(s) == s by {
      assert !IsWhiteSpace(s[0]);
    }
    assert !(|s| >= 2 && s[1] == 'x');
    assert Unsigned(s) == (10, s);
    DigitRunOfDigits(s, 10);
    assert s[..|s|] == s;
    NatToStringRoundTrip(n);
  }

  lemma {:induction false} DigitRunOfDigits(s: string, radix: nat)
    requires AllDigits(s, radix)
    ensures DigitRun(s, radix) == |s|
  {
    if s != [] {
      DigitRunOfDigits(s[1..], radix);
    }
  }

  // ---------------------------------------------------------------- plain objects as dictionaries

  /**
   * An array index (ECMAScript section 6.1.7): a canonical decimal numeral whose
   * value is below 2^32 - 1. `Object.keys` lists these keys before all others.
   */
  predicate IsArrayIndex(k: string) {
    && k != [] && AllDigits(k, 10) && (k[0] != '0' || |k| == 1)
    && NumeralValue(k, 10) < 0xFFFF_FFFF
  }

  /** Two array indices with the same value are the same string. */
  lemma ArrayIndexInjective(a: string, b: string)
    requires IsArrayIndex(a) && IsArrayIndex(b) && NumeralValue(a, 10) == NumeralValue(b, 10)
    ensures a == b
  {
    CanonicalNumeral(a);
    CanonicalNumeral(b);
  }

  /**
   * A plain JavaScript object whose own properties are strings mapped to
   * numbers: the values, and the keys in the order they were first assigned.
   */
  datatype Dict = Dict(insertion: seq<string>, vals: map<string, int>)

  predicate DictValid(d: Dict) {
    && NoDup(d.insertion)
    && (forall k :: k in d.vals ==> k in d.insertion)
    && (forall k :: k in d.insertion ==> k in d.vals)
  }

  const EmptyDict := Dict([], map[])

  /** `obj[k] = v`: a new key goes to the end of the insertion order; an existing key keeps its place. */
  function Put(d: Dict, k: string, v: int): (r: Dict)
    ensures r.vals == d.vals[k := v]
    ensures r.insertion == if k in d.vals then d.insertion else d.insertion + [k]
  {
    if k in d.vals then Dict(d.insertion, d.vals[k := v]) else Dict(d.insertion + [k], d.vals[k := v])
  }

  /** Assignment keeps the object well formed. */
  lemma PutValid(d: Dict, k: string, v: int)
    requires DictValid(d)
    ensures DictValid(Put(d, k, v))
  {
  }

  /** The numeric value of an array-index key, the key `Object.keys` sorts those keys by. */
  function IndexValue(k: string): int {
    if IsArrayIndex(k) then NumeralValue(k, 10) else 0
  }

  /**
   * `Object.keys(obj)` (ECMAScript section 10.1.11.1, OrdinaryOwnPropertyKeys):
   * the array-index keys in ascending numeric order, then every other key in
   * the order it was first assigned.
   */
  function OwnKeys(d: Dict): (ks: seq<string>)
    requires DictValid(d)
    ensures NoDup(ks) && |ks| == |d.insertion|
    ensures forall k :: k in ks <==> k in d.vals
    ensures forall i, j :: 0 <= i < j < |ks| && IsArrayIndex(ks[j]) ==>
              IsArrayIndex(ks[i]) && NumeralValue(ks[i], 10) < NumeralValue(ks[j], 10)
    ensures Filter(ks, Not(IsArrayIndex)) == Filter(d.insertion, Not(IsArrayIndex))
    ensures (forall i :: 0 <= i < |d.insertion| ==> !IsArrayIndex(d.insertion[i])) ==> ks == d.insertion
  {
    OwnKeysPermutes(d);
    OwnKeysAscending(d);
    OwnKeysOthers(d);
    PartitionBy(d.insertion, IsArrayIndex, IndexValue)
  }

  /** The listed keys are the object's keys, once each. */
  lemma OwnKeysPermutes(d: Dict)
    requires DictValid(d)
    ensures var ks := PartitionBy(d.insertion, IsArrayIndex, IndexValue);
      && NoDup(ks) && |ks| == |d.insertion|
      && (forall k :: k in ks <==> k in d.vals)
  {
    var ks := PartitionBy(d.insertion, IsArrayIndex, IndexValue);
    PartitionByPermutes(d.insertion, IsArrayIndex, IndexValue);
    forall k ensures k in ks <==> k in d.vals {
      if k in d.vals {
        var i :| 0 <= i < |d.insertion| && d.insertion[i] == k;
      }
      if k in ks {
        var i :| 0 <= i < |ks| && ks[i] == k;
      }
    }
  }

  /** Array indices come first, in strictly ascending numeric order. */
  lemma OwnKeysAscending(d: Dict)
    requires DictValid(d)
    ensures var ks := PartitionBy(d.insertion, IsArrayIndex, IndexValue);
      forall i, j :: 0 <= i < j < |ks| && IsArrayIndex(ks[j]) ==>
        IsArrayIndex(ks[i]) && NumeralValue(ks[i], 10) < NumeralValue(ks[j], 10)
  {
    forall a, b | IsArrayIndex(a) && IsArrayIndex(b) && IndexValue(a) == IndexValue(b) ensures a == b {
      ArrayIndexInjective(a, b);
    }
    PartitionByOrder(d.insertion, IsArrayIndex, IndexValue);
  }

  /** The other keys keep their insertion order. */
  lemma OwnKeysOthers(d: Dict)
    requires DictValid(d)
    ensures var ks := PartitionBy(d.insertion, IsArrayIndex, IndexValue);
      && Filter(ks, Not(IsArrayIndex)) == Filter(d.insertion, Not(IsArrayIndex))
      && ((forall i :: 0 <= i < |d.insertion| ==> !IsArrayIndex(d.insertion[i])) ==> ks == d.insertion)
  {
    PartitionByKeepsOthers(d.insertion, IsArrayIndex, IndexValue);
  }
}
