/**
 * Request identifiers. `_nextID` hands out `String(this._idCounter++)`: the
 * decimal text of a positive counter. This module defines that text, its
 * inverse, and proves that distinct counters give distinct identifiers.
 */
module Ids {

  import opened Wrappers

  predicate IsDigit(c: char) {
    '0' <= c <= '9'
  }

  predicate AllDigits(s: string) {
    forall i :: 0 <= i < |s| ==> IsDigit(s[i])
  }

  function DigitChar(d: nat): (c: char)
    requires d < 10
    ensures IsDigit(c) && c as int - '0' as int == d
  {
    ('0' as int + d) as char
  }

  /** The decimal text of `n`, as JavaScript's `String(n)` writes a non-negative integer. */
  function Decimal(n: nat): string
    decreases n
  {
    if n < 10 then [DigitChar(n)] else Decimal(n / 10) + [DigitChar(n % 10)]
  }

  /** The value of a string of decimal digits, most significant first. */
  function DigitsValue(s: string): nat
    requires AllDigits(s)
  {
    if s == [] then 0 else DigitsValue(s[..|s| - 1]) * 10 + (s[|s| - 1] as int - '0' as int)
  }

  /** Canonical decimal text: non-empty, only digits, no leading zero unless it is "0". */
  predicate Canonical(s: string) {
    |s| > 0 && AllDigits(s) && (s[0] == '0' ==> |s| == 1)
  }

  /** Reads back an identifier; `None` for text `Decimal` never produces. */
  function ParseId(s: string): (r: Option<nat>)
    ensures r.Some? <==> Canonical(s)
  {
    if Canonical(s) then Some(DigitsValue(s)) else None
  }

  /** `Decimal` writes only digits, and never a leading zero. */
  lemma {:induction false} DecimalCanonical(n: nat)
    ensures Canonical(Decimal(n))
    ensures Decimal(n)[0] == '0' ==> n == 0
    decreases n
  {
    if n >= 10 {
      DecimalCanonical(n / 10);
    }
  }

  lemma {:induction false} DigitsValueOfDecimal(n: nat)
    ensures AllDigits(Decimal(n)) && DigitsValue(Decimal(n)) == n
    decreases n
  {
    DecimalCanonical(n);
    var s := Decimal(n);
    if n >= 10 {
      assert s[..|s| - 1] == Decimal(n / 10);
      DigitsValueOfDecimal(n / 10);
    }
  }

  lemma {:induction false} LeadingDigitPositive(s: string)
    requires |s| > 0 && AllDigits(s) && s[0] != '0'
    ensures DigitsValue(s) >= 1
    decreases |s|
  {
    if |s| > 1 {
      LeadingDigitPositive(s[..|s| - 1]);
    }
  }

  lemma {:induction false} DecimalOfDigitsValue(s: string)
    requires Canonical(s)
    ensures Decimal(DigitsValue(s)) == s
    decreases |s|
  {
    if |s| == 1 {
      assert DigitChar(s[0] as int - '0' as int) == s[0];
    } else {
      var p := s[..|s| - 1];
      LeadingDigitPositive(p);
      DecimalOfDigitsValue(p);
      var d := s[|s| - 1] as int - '0' as int;
      assert DigitChar(d) == s[|s| - 1];
      assert s == p + [s[|s| - 1]];
    }
  }

  /** `ParseId` inverts `Decimal`. */
  lemma ParseIdOfDecimal(n: nat)
    ensures ParseId(Decimal(n)) == Some(n)
  {
    DecimalCanonical(n);
    DigitsValueOfDecimal(n);
  }

  /** `Decimal` inverts `ParseId` on every identifier text it accepts. */
  lemma DecimalOfParseId(s: string)
    requires ParseId(s).Some?
    ensures Decimal(ParseId(s).value) == s
  {
    DecimalOfDigitsValue(s);
  }

  /** Distinct counters never yield the same identifier. */
  lemma DecimalInjective(a: nat, b: nat)
    requires Decimal(a) == Decimal(b)
    ensures a == b
  {
    DigitsValueOfDecimal(a);
    DigitsValueOfDecimal(b);
  }

  /** The identifiers handed out from a counter that starts at 1: "1", "2", "3", ... */
  function IssuedIds(count: nat): seq<string> {
    seq(count, i requires 0 <= i => Decimal(i + 1))
  }

  /** No identifier is issued twice. */
  lemma IssuedIdsDistinct(count: nat, i: nat, j: nat)
    requires i < j < count
    ensures IssuedIds(count)[i] != IssuedIds(count)[j]
  {
    if IssuedIds(count)[i] == IssuedIds(count)[j] {
      DecimalInjective(i + 1, j + 1);
    }
  }

  /** Issuing one more identifier appends the next one, which was not issued before. */
  lemma IssuedIdsNext(count: nat)
    ensures IssuedIds(count + 1) == IssuedIds(count) + [Decimal(count + 1)]
    ensures Decimal(count + 1) !in IssuedIds(count)
  {
    if Decimal(count + 1) in IssuedIds(count) {
      var i :| 0 <= i < count && IssuedIds(count)[i] == Decimal(count + 1);
      DecimalInjective(i + 1, count + 1);
    }
  }

  lemma FirstIds()
    ensures IssuedIds(3) == ["1", "2", "3"]
    ensures Decimal(10) == "10"
  {
  }
}
