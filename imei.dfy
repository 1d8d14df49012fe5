/**
 * The IMEI check digit of js/imei-logic.js: the Luhn mod-10 "double-add-double"
 * scheme of ISO/IEC 7812-1 Annex B, as 3GPP TS 23.003 Annex B applies it to the
 * 14 leading digits of an IMEI.
 *
 * `luhnCheck` and `calculateCheckDigit` are `for` loops that accumulate a sum
 * digit by digit; they are methods here, each proved against a recursive sum.
 * The two loops decide which positions to double with different tests,
 * `(i + 1) % 2 == 0` and `i % 2 != 0`; each sum keeps its own test and
 * `SamePositions` proves that they agree.
 */
module Imei {
  import opened Wrappers

  const ImeiLength := 15
  const PrefixLength := 14

  predicate IsDigit(c: char) {
    '0' <= c <= '9'
  }

  /** Every character is an ASCII digit (true of the empty string). */
  predicate Digits(s: string) {
    forall i :: 0 <= i < |s| ==> IsDigit(s[i])
  }

  /** The test `/^\d+$/`: at least one character, all of them digits. */
  predicate DigitString(s: string) {
    |s| > 0 && Digits(s)
  }

  function DigitValue(c: char): (d: int)
    requires IsDigit(c)
    ensures 0 <= d <= 9
  {
    c as int - '0' as int
  }

  /** `String(d)` for a single digit d. */
  function DigitChar(d: int): (c: char)
    requires 0 <= d <= 9
    ensures IsDigit(c) && DigitValue(c) == d
  {
    ('0' as int + d) as char
  }

  /** `parseInt` of one character: `None` stands for `NaN`. */
  function ParseDigit(c: char): (r: Option<int>)
    ensures r.Some? <==> IsDigit(c)
    ensures r.Some? ==> r.value == DigitValue(c)
  {
    if IsDigit(c) then Some(DigitValue(c)) else None
  }

  /** The doubling step: 2d, less 9 when that exceeds 9 (the digit sum of 2d). */
  function Doubled(d: int): (r: int)
    ensures 0 <= d <= 9 ==> 0 <= r <= 9
    ensures 0 <= d <= 9 ==> r % 9 == (2 * d) % 9
  {
    if 2 * d > 9 then 2 * d - 9 else 2 * d
  }

  /** Doubling is a permutation of the digits, so a doubled position still tells digits apart. */
  lemma DoubledInjective(d: int, e: int)
    requires 0 <= d <= 9 && 0 <= e <= 9
    ensures Doubled(d) == Doubled(e) ==> d == e
  {
  }

  /** luhnCheck's contribution of digit d at 0-based position i. */
  function LuhnTerm(i: nat, d: int): int {
    if (i + 1) % 2 == 0 then Doubled(d) else d
  }

  /** calculateCheckDigit's contribution of digit d at 0-based position i. */
  function PrefixTerm(i: nat, d: int): int {
    if i % 2 != 0 then Doubled(d) else d
  }

  /** The sum luhnCheck accumulates over the digits of s. */
  function LuhnSum(s: string): (sum: int)
    requires Digits(s)
    ensures 0 <= sum <= 9 * |s|
  {
    if |s| == 0 then 0
    else
      assert Digits(s[..|s| - 1]);
      LuhnSum(s[..|s| - 1]) + LuhnTerm(|s| - 1, DigitValue(s[|s| - 1]))
  }

  /** The sum calculateCheckDigit accumulates over the digits of s. */
  function PrefixSum(s: string): (sum: int)
    requires Digits(s)
    ensures 0 <= sum <= 9 * |s|
  {
    if |s| == 0 then 0
    else
      assert Digits(s[..|s| - 1]);
      PrefixSum(s[..|s| - 1]) + PrefixTerm(|s| - 1, DigitValue(s[|s| - 1]))
  }

  /** `(10 - sum % 10) % 10`: the one digit that brings the sum to a multiple of 10. */
  function CheckDigitFor(sum: int): (c: int)
    requires sum >= 0
    ensures 0 <= c <= 9
    ensures (sum + c) % 10 == 0
  {
    (10 - sum % 10) % 10
  }

  /** No other digit brings the sum to a multiple of 10, so the check digit is unique. */
  lemma CheckDigitUnique(sum: int, c: int)
    requires sum >= 0 && 0 <= c <= 9 && (sum + c) % 10 == 0
    ensures c == CheckDigitFor(sum)
  {
  }

  /** Moving a multiple of 10 by a nonzero amount under 10 leaves the multiples of 10. */
  lemma ShiftLeavesMultiple(a: int, delta: int)
    requires a % 10 == 0 && delta != 0 && -9 <= delta <= 9
    ensures (a + delta) % 10 != 0
  {
  }

  /** What luhnCheck accepts: 15 digits whose last is the check digit of the first 14. */
  predicate LuhnValid(s: string) {
    && |s| == ImeiLength
    && Digits(s)
    && CheckDigitFor(LuhnSum(s[..PrefixLength])) == DigitValue(s[PrefixLength])
  }

  /** js/imei-logic.js `luhnCheck`. */
  method LuhnCheck(imei: string) returns (ok: bool)
    ensures ok <==> LuhnValid(imei)
  {
    if !DigitString(imei) || |imei| != ImeiLength {
      return false;
    }
    var sum := 0;
    for i := 0 to PrefixLength
      invariant sum == LuhnSum(imei[..i])
    {
      var digit := DigitValue(imei[i]);
      if (i + 1) % 2 == 0 {
        digit := digit * 2;
        if digit > 9 {
          digit := digit - 9;
        }
      }
      sum := sum + digit;
      assert imei[..i + 1][..i] == imei[..i];
    }
    var checkDigit := (10 - sum % 10) % 10;
    ok := checkDigit == DigitValue(imei[PrefixLength]);
  }

  /**
   * js/imei-logic.js `calculateCheckDigit`. Any input is accepted: a
   * non-digit makes `parseInt` give NaN, which then poisons the whole sum
   * (`None`); the empty string gives 0.
   */
  method CalculateCheckDigit(partialImei: string) returns (r: Option<int>)
    ensures Digits(partialImei) ==> r == Some(CheckDigitFor(PrefixSum(partialImei)))
    ensures !Digits(partialImei) ==> r == None
  {
    var sum: Option<int> := Some(0);
    for i := 0 to |partialImei|
      invariant Digits(partialImei[..i]) ==> sum == Some(PrefixSum(partialImei[..i]))
      invariant !Digits(partialImei[..i]) ==> sum == None
    {
      assert partialImei[..i + 1][..i] == partialImei[..i];
      var digit := ParseDigit(partialImei[i]);
      if i % 2 != 0 && digit.Some? {
        var d := digit.value * 2;
        if d > 9 {
          d := d - 9;
        }
        digit := Some(d);
      }
      sum := if sum.Some? && digit.Some? then Some(sum.value + digit.value) else None;
      if !Digits(partialImei[..i]) {
        assert !Digits(partialImei[..i + 1]) by {
          var j :| 0 <= j < i && !IsDigit(partialImei[j]);
          assert partialImei[..i + 1][j] == partialImei[j];
        }
      }
    }
    assert partialImei[..|partialImei|] == partialImei;
    r := if sum.Some? then Some((10 - sum.value % 10) % 10) else None;
  }

  /** Both loops double the same positions (the 0-based odd ones), so they compute the same sum. */
  lemma {:induction false} SamePositions(s: string)
    requires Digits(s)
    ensures LuhnSum(s) == PrefixSum(s)
  {
    if |s| > 0 {
      assert Digits(s[..|s| - 1]);
      SamePositions(s[..|s| - 1]);
    }
  }

  /** For a 15-digit string, luhnCheck holds iff the last digit is calculateCheckDigit of the first 14. */
  lemma ExactlyOneCheckDigit(s: string)
    requires |s| == ImeiLength && Digits(s)
    ensures LuhnValid(s) <==> DigitValue(s[PrefixLength]) == CheckDigitFor(PrefixSum(s[..PrefixLength]))
  {
    assert Digits(s[..PrefixLength]);
    SamePositions(s[..PrefixLength]);
  }

  /** Round trip: appending calculateCheckDigit's digit to any 14 digits gives a string luhnCheck accepts. */
  lemma RoundTrip(prefix: string)
    requires |prefix| == PrefixLength && Digits(prefix)
    ensures LuhnValid(prefix + [DigitChar(CheckDigitFor(PrefixSum(prefix)))])
  {
    var full := prefix + [DigitChar(CheckDigitFor(PrefixSum(prefix)))];
    assert full[..PrefixLength] == prefix;
    SamePositions(prefix);
  }

  /** Changing the digit at position i changes the sum by exactly the difference of the two terms. */
  lemma {:induction false} LuhnSumChangeOne(s: string, t: string, i: nat)
    requires |s| == |t| && Digits(s) && Digits(t) && i < |s|
    requires forall j :: 0 <= j < |s| && j != i ==> s[j] == t[j]
    ensures LuhnSum(t) == LuhnSum(s) - LuhnTerm(i, DigitValue(s[i])) + LuhnTerm(i, DigitValue(t[i]))
  {
    var n := |s| - 1;
    assert Digits(s[..n]) && Digits(t[..n]);
    if i == n {
      assert s[..n] == t[..n];
    } else {
      LuhnSumChangeOne(s[..n], t[..n], i);
    }
  }

  /** A valid IMEI with any one digit replaced by a different digit is no longer valid. */
  lemma SingleDigitErrorDetected(s: string, t: string, i: nat)
    requires LuhnValid(s)
    requires |t| == ImeiLength && Digits(t) && i < ImeiLength && t[i] != s[i]
    requires forall j :: 0 <= j < ImeiLength && j != i ==> s[j] == t[j]
    ensures !LuhnValid(t)
  {
    var ps, pt := s[..PrefixLength], t[..PrefixLength];
    assert Digits(ps) && Digits(pt);
    if i == PrefixLength {
      assert ps == pt;
    } else {
      LuhnSumChangeOne(ps, pt, i);
      var ds, dt := DigitValue(s[i]), DigitValue(t[i]);
      DoubledInjective(ds, dt);
      var delta := LuhnTerm(i, dt) - LuhnTerm(i, ds);
      assert delta != 0 && -9 <= delta <= 9;
      var c := DigitValue(s[PrefixLength]);
      assert t[PrefixLength] == s[PrefixLength];
      assert LuhnSum(pt) + c == LuhnSum(ps) + c + delta;
      ShiftLeavesMultiple(LuhnSum(ps) + c, delta);
    }
  }

  /** Outcome of analyzeImei, shown to the user. */
  datatype ImeiStatus = BadFormat | Valid | LuhnFailed

  /** js/imei-logic.js `analyzeImei` on the already trimmed input. */
  method AnalyzeImei(input: string) returns (status: ImeiStatus)
    ensures status == BadFormat <==> !(|input| == ImeiLength && Digits(input))
    ensures status == Valid <==> LuhnValid(input)
  {
    if !DigitString(input) || |input| != ImeiLength {
      return BadFormat;
    }
    var isValid := LuhnCheck(input);
    status := if isValid then Valid else LuhnFailed;
  }

  /** Outcome of calculateAndShowChecksum. */
  datatype ChecksumOutcome = Rejected | Computed(fullImei: string, checkDigit: int)

  /** js/imei-logic.js `calculateAndShowChecksum` on the already trimmed input. */
  method CalculateAndShowChecksum(prefix: string) returns (out: ChecksumOutcome)
    ensures out.Rejected? <==> !(|prefix| == PrefixLength && Digits(prefix))
    ensures out.Computed? ==> 0 <= out.checkDigit <= 9
    ensures out.Computed? ==> out.fullImei == prefix + [DigitChar(out.checkDigit)]
    ensures out.Computed? ==> LuhnValid(out.fullImei)
  {
    if !DigitString(prefix) || |prefix| != PrefixLength {
      return Rejected;
    }
    var checkDigit := CalculateCheckDigit(prefix);
    RoundTrip(prefix);
    out := Computed(prefix + [DigitChar(checkDigit.value)], checkDigit.value);
  }
}
