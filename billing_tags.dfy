/**
 * The template filters of billing/templatetags/billing_tags.py.
 */
module BillingTags {
  import opened Text
  import opened Decimals

  /** replace_underscore: underscores become spaces, then each word is title-cased. */
  function ReplaceUnderscore(value: string): string {
    Title(ReplaceChar(value, '_', ' '))
  }

  /** The output holds no underscore and has the input's length. */
  lemma ReplaceUnderscoreShape(value: string)
    ensures '_' !in ReplaceUnderscore(value)
    ensures |ReplaceUnderscore(value)| == |value|
  {
    var s := ReplaceChar(value, '_', ' ');
    assert '_' !in s;
    TitleKeepsNonLetters(s, '_');
  }

  /**
   * Position by position: a letter starting a run of letters is upper-case, a
   * letter inside a run lower-case, an underscore a space, and any other
   * character as it was.
   */
  lemma ReplaceUnderscoreAt(value: string, k: nat)
    requires k < |value|
    ensures var r := ReplaceUnderscore(value);
      && (value[k] == '_' ==> r[k] == ' ')
      && (!IsLetter(value[k]) && value[k] != '_' ==> r[k] == value[k])
      && (IsLetter(value[k]) && (k == 0 || !IsLetter(value[k - 1])) ==> IsUpper(r[k]))
      && (IsLetter(value[k]) && k > 0 && IsLetter(value[k - 1]) ==> IsLower(r[k]))
  {
    var s := ReplaceChar(value, '_', ' ');
    TitleAt(s, k);
    if k > 0 {
      assert IsLetter(s[k - 1]) <==> IsLetter(value[k - 1]);
    }
  }

  /** Replacing a character that does not occur changes nothing. */
  lemma {:induction false} ReplaceAbsent(s: string, from: char, to: char)
    requires from !in s
    ensures ReplaceChar(s, from, to) == s
    decreases |s|
  {
    if s != [] {
      ReplaceAbsent(s[1..], from, to);
      assert s == [s[0]] + s[1..];
    }
  }

  /** Applying the filter twice is applying it once. */
  lemma ReplaceUnderscoreIdempotent(value: string)
    ensures ReplaceUnderscore(ReplaceUnderscore(value)) == ReplaceUnderscore(value)
  {
    var r := ReplaceUnderscore(value);
    ReplaceUnderscoreShape(value);
    ReplaceAbsent(r, '_', ' ');
    TitleIdempotent(ReplaceChar(value, '_', ' '));
  }

  /**
   * percentage: value / max_value as a whole percentage, truncated toward zero
   * by int(); a zero max_value gives 0.
   */
  function Percentage(value: int, maxValue: int): int {
    if maxValue == 0 then 0
    else if maxValue > 0 then TruncDiv(100 * value, maxValue)
    else TruncDiv(-100 * value, -maxValue)
  }

  /** A zero maximum gives 0; a zero value gives 0; a value equal to the maximum gives 100. */
  lemma PercentageCorners(value: int, maxValue: int)
    ensures Percentage(value, 0) == 0
    ensures maxValue != 0 ==> Percentage(0, maxValue) == 0
    ensures value != 0 ==> Percentage(value, value) == 100
  {
    if maxValue > 0 {
      TruncDivUnique(0, maxValue, 0);
    } else if maxValue < 0 {
      TruncDivUnique(0, -maxValue, 0);
    }
    if value > 0 {
      TruncDivUnique(100 * value, value, 100);
    } else if value < 0 {
      TruncDivUnique(-100 * value, -value, 100);
    }
  }

  /** A value between 0 and a positive maximum gives a percentage in [0, 100], and a larger value never a smaller one. */
  lemma PercentageInRange(value: int, larger: int, maxValue: int)
    requires 0 <= value <= larger && maxValue > 0
    ensures 0 <= Percentage(value, maxValue) <= Percentage(larger, maxValue)
    ensures larger <= maxValue ==> Percentage(larger, maxValue) <= 100
  {
    TruncDivUnique(0, maxValue, 0);
    TruncDivMonotone(0, 100 * value, maxValue);
    TruncDivMonotone(100 * value, 100 * larger, maxValue);
    if larger <= maxValue {
      TruncDivMonotone(100 * larger, 100 * maxValue, maxValue);
      TruncDivUnique(100 * maxValue, maxValue, 100);
    }
  }
}
