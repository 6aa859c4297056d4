/**
 * The few Kotlin `Char` and `String` operations that the validators use.
 * Character classes are ASCII approximations of Kotlin's Unicode ones.
 */
module Text {
  import opened Wrappers

  predicate IsDigit(c: char) { '0' <= c <= '9' }
  predicate IsUpperCase(c: char) { 'A' <= c <= 'Z' }
  predicate IsLowerCase(c: char) { 'a' <= c <= 'z' }
  predicate IsLetterOrDigit(c: char) { IsUpperCase(c) || IsLowerCase(c) || IsDigit(c) }

  /** `s.all { it.isDigit() }` */
  predicate AllDigits(s: string) { forall i :: 0 <= i < |s| ==> IsDigit(s[i]) }

  /** `c.lowercaseChar()` */
  function LowercaseChar(c: char): char {
    if IsUpperCase(c) then (c as int - 'A' as int + 'a' as int) as char else c
  }

  /**
   * Kotlin's `String.length`: the number of UTF-16 code units, so a character outside the
   * Basic Multilingual Plane (above U+FFFF) counts twice.
   */
  function Utf16Length(s: string): (n: nat)
    ensures |s| <= n <= 2 * |s|
  {
    if s == [] then 0
    else Utf16Length(s[..|s| - 1]) + (if s[|s| - 1] as int > 0xFFFF then 2 else 1)
  }

  /** Every character lies in the Basic Multilingual Plane. */
  predicate InBmp(s: string) { forall i :: 0 <= i < |s| ==> s[i] as int <= 0xFFFF }

  /** Within the Basic Multilingual Plane the UTF-16 length is the number of characters. */
  lemma {:induction false} BmpLength(s: string)
    requires InBmp(s)
    ensures Utf16Length(s) == |s|
  {
    if s != [] {
      BmpLength(s[..|s| - 1]);
    }
  }

  /** A string of decimal digits is as long in UTF-16 as in characters. */
  lemma DigitsLength(s: string)
    requires AllDigits(s)
    ensures Utf16Length(s) == |s|
  {
    BmpLength(s);
  }

  /** "Ab1!" followed by U+1F600 has five characters but a Kotlin length of six. */
  lemma SupplementaryCountsTwice()
    ensures |"Ab1!\U{1F600}"| == 5 && Utf16Length("Ab1!\U{1F600}") == 6
  {
    var s := "Ab1!\U{1F600}";
    assert s[..4] == "Ab1!";
    BmpLength(s[..4]);
  }

  /** `s.lowercase()` */
  function Lowercase(s: string): (r: string)
    ensures |r| == |s|
  {
    seq(|s|, i requires 0 <= i < |s| => LowercaseChar(s[i]))
  }

  /** Number of decimal digits of a non-negative integer. */
  function DigitCount(n: nat): (r: nat)
    ensures r >= 1
  {
    if n < 10 then 1 else 1 + DigitCount(n / 10)
  }

  /** `n.toString().length` for a Kotlin `Int`: a negative number has a leading `-`. */
  function DecimalLength(n: int): nat {
    if n < 0 then 1 + DigitCount(-n) else DigitCount(n)
  }

  function Pow10(k: nat): (r: nat)
    ensures r >= 1
  {
    if k == 0 then 1 else 10 * Pow10(k - 1)
  }

  /** A number has exactly `k` digits iff it lies in `[10^(k-1), 10^k)` (or `[0, 10)` for one digit). */
  lemma {:induction false} DigitCountIs(n: nat, k: nat)
    requires k >= 1
    ensures DigitCount(n) == k <==> (if k == 1 then n < 10 else Pow10(k - 1) <= n < Pow10(k))
  {
    if n >= 10 && k > 1 {
      DigitCountIs(n / 10, k - 1);
      if k > 2 {
        assert Pow10(k - 1) == 10 * Pow10(k - 2);
      }
    } else if n < 10 && k > 1 {
      assert Pow10(k - 1) >= 10 by { Pow10Monotone(1, k - 1); }
    }
  }

  lemma {:induction false} Pow10Monotone(i: nat, j: nat)
    requires i <= j
    ensures Pow10(i) <= Pow10(j)
  {
    if i < j {
      Pow10Monotone(i, j - 1);
    }
  }

  /**
   * `n.toString().length == 6` holds for the six-digit numbers and, because of the
   * sign, for the negative five-digit ones such as -12345.
   */
  lemma SixCharacterNumbers(n: int)
    ensures DecimalLength(n) == 6 <==> (100000 <= n <= 999999 || -99999 <= n <= -10000)
  {
    if n < 0 {
      DigitCountIs(-n, 5);
      assert Pow10(4) == 10000;
      assert Pow10(5) == 100000;
    } else {
      DigitCountIs(n, 6);
      assert Pow10(5) == 100000;
      assert Pow10(6) == 1000000;
    }
  }

  function DigitValue(c: char): nat
    requires IsDigit(c)
  {
    c as int - '0' as int
  }

  /** The value of a string of decimal digits (empty string: 0). */
  function DigitsValue(s: string): nat
    requires AllDigits(s)
  {
    if s == [] then 0 else 10 * DigitsValue(s[..|s| - 1]) + DigitValue(s[|s| - 1])
  }

  /** `Int.MAX_VALUE`: the largest value `toIntOrNull` returns. */
  const INT_MAX := 2147483647

  /**
   * `s.toIntOrNull()` on a string of decimal digits: `null` for the empty string and for a
   * value that does not fit a Kotlin `Int`, the value otherwise.
   */
  function DigitsToIntOrNull(s: string): (r: Option<int>)
    requires AllDigits(s)
    ensures r.None? <==> s == [] || DigitsValue(s) > INT_MAX
    ensures r.Some? ==> r.value == DigitsValue(s) && 0 <= r.value <= INT_MAX
  {
    if s == [] || DigitsValue(s) > INT_MAX then None else Some(DigitsValue(s))
  }

  /** Strings of up to nine digits always parse to their value. */
  lemma ShortDigitsParse(s: string)
    requires AllDigits(s) && 0 < |s| <= 9
    ensures DigitsToIntOrNull(s) == Some(DigitsValue(s))
  {
    DigitsValueBelow(s);
    Pow10Monotone(|s|, 9);
    assert Pow10(9) == 1000000000;
  }

  /** Eleven or more digits without a leading zero never fit: the result is `null`. */
  lemma LongDigitsOverflow(s: string)
    requires AllDigits(s) && |s| >= 11 && s[0] != '0'
    ensures DigitsToIntOrNull(s).None?
  {
    LeadingDigitBound(s);
    Pow10Monotone(10, |s| - 1);
    assert Pow10(10) == 10000000000;
  }

  /** A digit string of length k denotes a number below 10^k. */
  lemma {:induction false} DigitsValueBelow(s: string)
    requires AllDigits(s)
    ensures DigitsValue(s) < Pow10(|s|)
  {
    if s != [] {
      DigitsValueBelow(s[..|s| - 1]);
    }
  }

  /** A leading '0' keeps the value below 10^(k-1); any other leading digit puts it at or above. */
  lemma {:induction false} LeadingDigitBound(s: string)
    requires AllDigits(s) && s != []
    ensures s[0] == '0' <==> DigitsValue(s) < Pow10(|s| - 1)
  {
    var init := s[..|s| - 1];
    if |s| == 1 {
      assert DigitsValue(s) == DigitValue(s[0]);
    } else {
      assert init[0] == s[0];
      LeadingDigitBound(init);
      assert Pow10(|s| - 1) == 10 * Pow10(|init| - 1);
    }
  }
}
