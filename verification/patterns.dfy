/** The fixed Brazilian formats the address schemas test with regular
    expressions, one predicate per pattern, and how the three phone patterns
    (create action, client form, update action) relate. */
module Patterns {
  import opened Text

  /** CEP, `^\d{5}-\d{3}$`. */
  predicate ZipOk(s: string) {
    |s| == 9 && AllDigits(s[..5]) && s[5] == '-' && AllDigits(s[6..])
  }

  /** UF, `^[A-Za-z]{2}$`. */
  predicate StateOk(s: string) {
    |s| == 2 && IsAsciiLetter(s[0]) && IsAsciiLetter(s[1])
  }

  /** `\(\d{2}\)`. */
  predicate AreaCode(s: string) {
    |s| == 4 && s[0] == '(' && IsDigit(s[1]) && IsDigit(s[2]) && s[3] == ')'
  }

  /** `\d{k}-\d{4}`. */
  predicate LocalNumber(s: string, k: nat) {
    |s| == k + 5 && AllDigits(s[..k]) && s[k] == '-' && AllDigits(s[k + 1..])
  }

  /** `\d{4,5}-\d{4}`. */
  predicate ShortOrLongLocalNumber(s: string) {
    LocalNumber(s, 4) || LocalNumber(s, 5)
  }

  /** Create action, `^\(\d{2}\) \d{5}-\d{4}$`: exactly one ASCII space. */
  predicate CreatePhoneOk(s: string) {
    |s| == 15 && AreaCode(s[..4]) && s[4] == ' ' && LocalNumber(s[5..], 5)
  }

  /** Client form, `^\(\d{2}\)\s?\d{5}-\d{4}$`: any one whitespace character,
      or none, after the area code. */
  predicate ClientPhoneOk(s: string) {
    && |s| >= 4 && AreaCode(s[..4])
    && (LocalNumber(s[4..], 5) || (|s| > 4 && IsWhitespace(s[4]) && LocalNumber(s[5..], 5)))
  }

  /** Update action's `isValidPhone`, `^\(\d{2}\)\s?\d{4,5}-\d{4}$`: as the
      client form, and the local part may also have four digits before the dash. */
  predicate UpdatePhoneOk(s: string) {
    && |s| >= 4 && AreaCode(s[..4])
    && (ShortOrLongLocalNumber(s[4..])
        || (|s| > 4 && IsWhitespace(s[4]) && ShortOrLongLocalNumber(s[5..])))
  }

  /** The display mask `(AA) PPPPP-LLLL` the create action expects. */
  function PhoneMask(area: string, prefix: string, line: string): string {
    "(" + area + ") " + prefix + "-" + line
  }

  /** Every string the mask produces from digit groups of the right sizes is a
      create-schema phone ... */
  lemma MaskedPhoneAccepted(area: string, prefix: string, line: string)
    requires |area| == 2 && AllDigits(area)
    requires |prefix| == 5 && AllDigits(prefix)
    requires |line| == 4 && AllDigits(line)
    ensures CreatePhoneOk(PhoneMask(area, prefix, line))
  {
    var s := PhoneMask(area, prefix, line);
    assert s[..4] == ['(', area[0], area[1], ')'];
    assert s[5..] == prefix + "-" + line;
    assert s[5..][..5] == prefix;
    assert s[5..][6..] == line;
  }

  /** ... and every create-schema phone is the mask applied to its own digit groups. */
  lemma AcceptedPhoneIsMasked(s: string)
    requires CreatePhoneOk(s)
    ensures AllDigits(s[1..3]) && AllDigits(s[5..10]) && AllDigits(s[11..])
    ensures s == PhoneMask(s[1..3], s[5..10], s[11..])
  {
    assert s[5..][..5] == s[5..10];
    assert s[5..][6..] == s[11..];
    assert s[1..3] == [s[..4][1], s[..4][2]];
  }

  /** Every phone the create action accepts passes the client form. */
  lemma CreatePhoneIsClientPhone(s: string)
    requires CreatePhoneOk(s)
    ensures ClientPhoneOk(s)
  {
    assert IsWhitespace(s[4]);
  }

  /** Every phone the client form accepts passes the update action. */
  lemma ClientPhoneIsUpdatePhone(s: string)
    requires ClientPhoneOk(s)
    ensures UpdatePhoneOk(s)
  {
  }

  /** Every phone the create action accepts passes the update action. */
  lemma CreatePhoneIsUpdatePhone(s: string)
    requires CreatePhoneOk(s)
    ensures UpdatePhoneOk(s)
  {
    CreatePhoneIsClientPhone(s);
    ClientPhoneIsUpdatePhone(s);
  }

  /** The update action's `min(8)` on the phone never decides anything: a phone
      its pattern accepts has at least 13 characters. */
  lemma UpdatePhoneAtLeastThirteen(s: string)
    requires UpdatePhoneOk(s)
    ensures |s| >= 13
  {
  }

  /** The legacy four-digit local number is accepted on update only. */
  lemma LegacyPhoneOnlyOnUpdate()
    ensures UpdatePhoneOk("(11) 8888-7777")
    ensures !ClientPhoneOk("(11) 8888-7777")
    ensures !CreatePhoneOk("(11) 8888-7777")
  {
    var s := "(11) 8888-7777";
    assert s[..4] == "(11)";
    assert s[5..][..4] == "8888" && s[5..][5..] == "7777";
    assert !IsDigit(s[4..][..5][0]);
  }

  /** A phone typed without the space passes the client form but not the
      create action. */
  lemma UnspacedPhoneRejectedByCreate()
    ensures ClientPhoneOk("(11)98888-7777")
    ensures !CreatePhoneOk("(11)98888-7777")
  {
    var s := "(11)98888-7777";
    assert s[..4] == "(11)";
    assert s[4..][..5] == "98888" && s[4..][6..] == "7777";
  }

  lemma CanonicalPhoneAcceptedEverywhere()
    ensures CreatePhoneOk("(11) 98888-7777")
    ensures ClientPhoneOk("(11) 98888-7777")
    ensures UpdatePhoneOk("(11) 98888-7777")
  {
    MaskedPhoneAccepted("11", "98888", "7777");
    CreatePhoneIsClientPhone("(11) 98888-7777");
    ClientPhoneIsUpdatePhone("(11) 98888-7777");
  }

  /** A valid CEP holds no whitespace, so trimming it is the identity. */
  lemma ZipIsTrimmed(s: string)
    requires ZipOk(s)
    ensures Trim(s) == s
  {
    assert IsDigit(s[..5][0]) && IsDigit(s[6..][2]);
    TrimOfTrimmed(s);
  }

  /** A valid UF uppercases to two uppercase ASCII letters and stays valid. */
  lemma UppercasedStateOk(s: string)
    requires StateOk(s)
    ensures StateOk(ToUpper(s))
    ensures IsUpperAscii(ToUpper(s)[0]) && IsUpperAscii(ToUpper(s)[1])
  {
  }

  lemma StateExamples()
    ensures StateOk("sp") && ToUpper("sp") == "SP"
    ensures !StateOk("S") && !StateOk("SPX")
  {
    assert ToUpper("sp")[0] == 'S' && ToUpper("sp")[1] == 'P';
  }
}
