/** The field constraints the Pydantic request schemas share: the regular
    expressions for currency codes, phone numbers and recurrence schedules,
    and the length bounds. A pattern must match the whole value. */
module Fields {

  predicate IsAsciiDigit(c: char) {
    '0' <= c <= '9'
  }

  predicate IsAsciiUpper(c: char) {
    'A' <= c <= 'Z'
  }

  predicate AllDigits(s: string) {
    forall i :: 0 <= i < |s| ==> IsAsciiDigit(s[i])
  }

  /** `min_length=lo, max_length=hi`. */
  predicate LengthBetween(s: string, lo: nat, hi: nat) {
    lo <= |s| <= hi
  }

  /** `^[A-Z]{3}$`. */
  predicate IsCurrencyCode(s: string) {
    |s| == 3 && forall i :: 0 <= i < 3 ==> IsAsciiUpper(s[i])
  }

  /** `\d{9,15}` over the whole of `s`. */
  predicate NineToFifteenDigits(s: string) {
    9 <= |s| <= 15 && AllDigits(s)
  }

  /** `^\+?1?\d{9,15}$`, read as the regex reads: an optional '+', then
      either 9 to 15 digits, or a '1' followed by 9 to 15 digits. */
  predicate IsPhoneNumber(s: string) {
    var rest := if |s| > 0 && s[0] == '+' then s[1..] else s;
    NineToFifteenDigits(rest) || (|rest| > 0 && rest[0] == '1' && NineToFifteenDigits(rest[1..]))
  }

  /** `^(daily|weekly|monthly|yearly)$`. */
  predicate IsSchedule(s: string) {
    s == "daily" || s == "weekly" || s == "monthly" || s == "yearly"
  }

  /** The phone pattern counted out: after an optional '+', only digits,
      9 to 15 of them, or 16 when the first is a '1'. */
  lemma PhoneDigitCount(s: string)
    ensures IsPhoneNumber(s) <==>
      (var rest := if |s| > 0 && s[0] == '+' then s[1..] else s;
       AllDigits(rest) && (9 <= |rest| <= 15 || (|rest| == 16 && rest[0] == '1')))
  {
    var rest := if |s| > 0 && s[0] == '+' then s[1..] else s;
    if AllDigits(rest) && 10 <= |rest| <= 16 && rest[0] == '1' {
      assert forall i :: 0 <= i < |rest| - 1 ==> rest[1..][i] == rest[i + 1];
      assert NineToFifteenDigits(rest[1..]);
    }
    if |rest| > 0 && rest[0] == '1' && NineToFifteenDigits(rest[1..]) {
      assert forall i :: 1 <= i < |rest| ==> rest[i] == rest[1..][i - 1];
      assert AllDigits(rest);
    }
  }

  /** A phone number that passes the pattern fits the users.phone column,
      String(20). */
  lemma PhoneFitsColumn(s: string)
    requires IsPhoneNumber(s)
    ensures 9 <= |s| <= 17
  {
  }
}
