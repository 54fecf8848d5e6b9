/** The price text field: Kotlin's `toDoubleOrNull` restricted to what the
    field can hold (ASCII digits and '.'), read as an exact decimal. */
module Price {
  import opened Common
  import opened Text

  predicate IsPriceChar(c: char) {
    IsDigit(c) || c == '.'
  }

  /** Every character is a digit or a dot. */
  predicate AllPriceChars(s: string) {
    forall i :: 0 <= i < |s| ==> IsPriceChar(s[i])
  }

  predicate AllDigits(s: string) {
    forall i :: 0 <= i < |s| ==> IsDigit(s[i])
  }

  /** Kotlin's `count { it == c }`. */
  function Count(s: string, c: char): (n: nat)
    ensures n <= |s|
    ensures n == 0 <==> c !in s
  {
    if |s| == 0 then 0 else (if s[0] == c then 1 else 0) + Count(s[1..], c)
  }

  predicate HasDigit(s: string) {
    exists i :: 0 <= i < |s| && IsDigit(s[i])
  }

  predicate HasNonZeroDigit(s: string) {
    exists i :: 0 <= i < |s| && IsDigit(s[i]) && s[i] != '0'
  }

  /** The strings `toDoubleOrNull` accepts among strings of digits and dots:
      at most one dot and at least one digit ("1", "1.", ".5", "1.5"). */
  predicate IsDecimal(s: string) {
    AllPriceChars(s) && Count(s, '.') <= 1 && HasDigit(s)
  }

  function DigitValue(c: char): nat
    requires IsDigit(c)
  {
    c as int - '0' as int
  }

  /** The value of a string of decimal digits. */
  function DigitsValue(s: string): nat
    requires AllDigits(s)
  {
    if |s| == 0 then 0 else 10 * DigitsValue(s[..|s| - 1]) + DigitValue(s[|s| - 1])
  }

  function Pow10(n: nat): (r: nat)
    ensures r >= 1
  {
    if n == 0 then 1 else 10 * Pow10(n - 1)
  }

  /** A string of digits denotes a positive number exactly when one of its digits is not '0'. */
  lemma {:induction false} DigitsValuePositive(s: string)
    requires AllDigits(s)
    ensures DigitsValue(s) > 0 <==> HasNonZeroDigit(s)
  {
    if |s| > 0 {
      var init := s[..|s| - 1];
      DigitsValuePositive(init);
      if HasNonZeroDigit(init) {
        var i :| 0 <= i < |init| && IsDigit(init[i]) && init[i] != '0';
        assert s[i] == init[i];
      }
      if HasNonZeroDigit(s) {
        var i :| 0 <= i < |s| && IsDigit(s[i]) && s[i] != '0';
        if i < |s| - 1 {
          assert init[i] == s[i];
        }
      }
    }
  }

  lemma CountSplit(s: string, k: nat, c: char)
    requires k < |s| && s[k] == c
    ensures Count(s, c) == Count(s[..k], c) + 1 + Count(s[k + 1..], c)
  {
    if k > 0 {
      CountSplit(s[1..], k - 1, c);
      assert s[1..][..k - 1] == s[..k][1..];
      assert s[1..][k..] == s[k + 1..];
    }
  }

  /** Around its only dot, a decimal text is two runs of digits, and it has a
      non-zero digit exactly when one of the runs has. */
  lemma DotSplit(s: string, k: nat)
    requires AllPriceChars(s) && Count(s, '.') <= 1 && k < |s| && s[k] == '.'
    ensures AllDigits(s[..k]) && AllDigits(s[k + 1..])
    ensures HasNonZeroDigit(s) <==> HasNonZeroDigit(s[..k]) || HasNonZeroDigit(s[k + 1..])
  {
    var whole, frac := s[..k], s[k + 1..];
    CountSplit(s, k, '.');
    forall i | 0 <= i < |whole| ensures IsDigit(whole[i]) { assert s[i] == whole[i]; }
    forall i | 0 <= i < |frac| ensures IsDigit(frac[i]) { assert s[k + 1 + i] == frac[i]; }
    if HasNonZeroDigit(s) {
      var i :| 0 <= i < |s| && IsDigit(s[i]) && s[i] != '0';
      if i < k { assert whole[i] == s[i]; } else { assert frac[i - k - 1] == s[i]; }
    }
    if HasNonZeroDigit(whole) {
      var i :| 0 <= i < |whole| && IsDigit(whole[i]) && whole[i] != '0';
      assert s[i] == whole[i];
    }
    if HasNonZeroDigit(frac) {
      var i :| 0 <= i < |frac| && IsDigit(frac[i]) && frac[i] != '0';
      assert s[k + 1 + i] == frac[i];
    }
  }

  /** A whole part plus a fraction over a positive power of ten is never
      negative, and it is positive exactly when one of the two parts is. */
  lemma FractionSign(whole: nat, frac: nat, scale: nat)
    requires scale >= 1
    ensures var v := whole as real + frac as real / scale as real;
      v >= 0.0 && (v > 0.0 <==> whole > 0 || frac > 0)
  {
    var q := frac as real / scale as real;
    assert q * scale as real == frac as real;
    assert q >= 0.0;
    assert frac > 0 ==> q > 0.0;
  }

  /** `price.toDoubleOrNull()` for a price-field string; None for everything
      `toDoubleOrNull` rejects, and also for strings outside digits and dots. */
  function ParseDecimal(s: string): (r: Option<real>)
    ensures r.Some? <==> IsDecimal(s)
    ensures r.Some? ==> r.value >= 0.0
    ensures r.Some? ==> (r.value > 0.0 <==> HasNonZeroDigit(s))
  {
    if !IsDecimal(s) then None
    else if '.' in s then
      var k := IndexOf(s, '.');
      DotSplit(s, k);
      var whole, frac := s[..k], s[k + 1..];
      DigitsValuePositive(whole);
      DigitsValuePositive(frac);
      FractionSign(DigitsValue(whole), DigitsValue(frac), Pow10(|frac|));
      Some(DigitsValue(whole) as real + DigitsValue(frac) as real / Pow10(|frac|) as real)
    else
      assert AllDigits(s);
      DigitsValuePositive(s);
      Some(DigitsValue(s) as real)
  }

  /** No string of digits and dots is blank. */
  lemma PriceTextNotBlank(s: string)
    requires AllPriceChars(s) && |s| > 0
    ensures !IsBlank(s)
  {
    assert IsPriceChar(s[0]);
  }

  /** Among strings of digits and at most one dot, exactly "" and "." fail to parse. */
  lemma {:induction false} SingleDotParses(s: string)
    requires AllPriceChars(s) && Count(s, '.') <= 1
    ensures ParseDecimal(s).None? <==> s == "" || s == "."
  {
    if s != "" && s != "." {
      assert HasDigit(s) by {
        if s[0] == '.' {
          CountSplit(s, 0, '.');
          assert '.' !in s[1..];
          assert IsDigit(s[1..][0]);
        } else {
          assert IsDigit(s[0]);
        }
      }
    } else if s == "." {
      assert !HasDigit(s);
    }
  }
}
