/** The phone-number format accepted by customer creation: the anchored
    pattern `^(\+\d{9,15}|\d{3}-\d{3}-\d{4})$` over ASCII digits. */
module Phone {
  import opened Text
  import opened Records

  /** The first alternative as a left-to-right match: a `+`, then a greedy
      run of digits of length 9 to 15 that reaches the end of the string. */
  predicate MatchesInternational(s: string) {
    |s| >= 1 && s[0] == '+' && 9 <= DigitRun(s, 1) <= 15 && 1 + DigitRun(s, 1) == |s|
  }

  /** The second alternative as a left-to-right match: three digits, `-`,
      three digits, `-`, four digits, then the end of the string. */
  predicate MatchesDashed(s: string) {
    && DigitRun(s, 0) == 3 && |s| > 3 && s[3] == '-'
    && DigitRun(s, 4) == 3 && |s| > 7 && s[7] == '-'
    && DigitRun(s, 8) == 4 && |s| == 12
  }

  predicate MatchesPhonePattern(s: string) {
    MatchesInternational(s) || MatchesDashed(s)
  }

  /** The formats stated directly, position by position. */
  predicate IsInternationalPhone(s: string) {
    10 <= |s| <= 16 && s[0] == '+' && forall j :: 1 <= j < |s| ==> IsDigit(s[j])
  }

  predicate IsDashedPhone(s: string) {
    |s| == 12 && forall j :: 0 <= j < 12 ==> if j == 3 || j == 7 then s[j] == '-' else IsDigit(s[j])
  }

  /** The scanner accepts exactly the strings of the two stated formats. */
  lemma PhonePatternExact(s: string)
    ensures MatchesPhonePattern(s) <==> IsInternationalPhone(s) || IsDashedPhone(s)
  {
    if IsDashedPhone(s) {
      assert !IsDigit(s[3]) && !IsDigit(s[7]);
    }
    if MatchesDashed(s) {
      forall j | 0 <= j < 12
        ensures if j == 3 || j == 7 then s[j] == '-' else IsDigit(s[j])
      {
        if j < 3 {
        } else if 3 < j < 7 {
          assert 4 <= j < 4 + DigitRun(s, 4);
        } else if 7 < j {
          assert 8 <= j < 8 + DigitRun(s, 8);
        }
      }
    }
  }

  /** A phone passes the check when it is absent or empty (the source's
      `if phone and ...` skips those) or when it matches the pattern. */
  predicate PhoneAccepted(phone: Option<string>) {
    phone.None? || phone.value == "" || MatchesPhonePattern(phone.value)
  }

  /** The check in terms of the stated formats. */
  lemma PhoneAcceptedExact(phone: Option<string>)
    ensures PhoneAccepted(phone) <==>
      phone.None? || phone.value == "" || IsInternationalPhone(phone.value) || IsDashedPhone(phone.value)
  {
    if phone.Some? {
      PhonePatternExact(phone.value);
    }
  }

  /** A dashed number passes. */
  lemma DashedPhoneAccepted()
    ensures PhoneAccepted(Some("123-456-7890"))
  {
    var s := "123-456-7890";
    forall j | 0 <= j < 12
      ensures if j == 3 || j == 7 then s[j] == '-' else IsDigit(s[j])
    {
    }
    PhonePatternExact(s);
  }

  /** The `+` form admits 9 and 15 digits. */
  lemma InternationalPhoneAccepted()
    ensures PhoneAccepted(Some("+123456789"))
    ensures PhoneAccepted(Some("+123456789012345"))
  {
    var s := "+123456789012345";
    forall j | 1 <= j < |s| ensures IsDigit(s[j]) { }
    var t := "+123456789";
    forall j | 1 <= j < |t| ensures IsDigit(t[j]) { }
    PhonePatternExact(s);
    PhonePatternExact(t);
  }

  /** A short digit string, a `+` form with 8 or 16 digits and a misplaced
      dash are all refused. */
  lemma PhoneRejectedExamples()
    ensures !PhoneAccepted(Some("12345"))
    ensures !PhoneAccepted(Some("+12345678"))
    ensures !PhoneAccepted(Some("+1234567890123456"))
    ensures !PhoneAccepted(Some("123-4567-890"))
  {
    PhonePatternExact("12345");
    PhonePatternExact("+12345678");
    PhonePatternExact("+1234567890123456");
    PhonePatternExact("123-4567-890");
    assert "123-4567-890"[7] != '-';
  }
}
