/** The regular-expression field rules that the order and contact routes share
    (backend/routes/orders.js and backend/routes/contact.js), written as predicates
    over the characters of the field. */
module Validators {
  import opened Basics

  predicate AllDigits(s: string) {
    forall i :: 0 <= i < |s| ==> IsDigit(s[i])
  }

  /** `/^[\+]?[1-9][\d]{0,15}$/`: an optional '+', a digit 1-9, then at most fifteen digits. */
  predicate PhoneValid(s: string) {
    var body := if |s| > 0 && s[0] == '+' then s[1..] else s;
    1 <= |body| <= 16 && '1' <= body[0] <= '9' && AllDigits(body)
  }

  /** `/^[1-9][0-9]{5}$/`: six digits, the first not zero. */
  predicate PincodeValid(s: string) {
    |s| == 6 && '1' <= s[0] <= '9' && AllDigits(s)
  }

  /** The characters `/^[a-zA-Z\s.'-]+$/` admits. */
  predicate NameChar(c: char) {
    IsUpper(c) || IsLowerLetter(c) || IsSpace(c) || c == '.' || c == '\'' || c == '-'
  }

  /** The contact form's name rule: trimmed, 2 to 100 characters, letters,
      whitespace, '.', apostrophe or '-' only. */
  predicate ContactNameValid(name: string) {
    var t := Trim(name);
    2 <= |t| <= 100 && forall i :: 0 <= i < |t| ==> NameChar(t[i])
  }

  /** A valid phone number is 1 to 17 characters long, every character after an
      optional leading '+' is a digit, and a '+' can only stand first. */
  lemma PhoneShape(s: string)
    requires PhoneValid(s)
    ensures 1 <= |s| <= 17
    ensures forall i :: 0 < i < |s| ==> IsDigit(s[i])
    ensures s[0] == '+' || '1' <= s[0] <= '9'
    ensures '+' !in s[1..]
  {
    if s[0] == '+' {
      assert forall i :: 0 < i < |s| ==> s[i] == s[1..][i - 1];
    }
  }

  /** Conversely, a '+' (or nothing) followed by a nonzero digit and at most
      fifteen more digits is accepted. */
  lemma PhoneFromDigits(plus: bool, digits: string)
    requires 1 <= |digits| <= 16 && '1' <= digits[0] <= '9' && AllDigits(digits)
    ensures PhoneValid((if plus then "+" else "") + digits)
  {
    var s := (if plus then "+" else "") + digits;
    if plus { assert s[1..] == digits; } else { assert s == digits; }
  }

  /** The formatted Indian number a visitor is likely to type is rejected because
      of its space; the same number without the space passes. */
  lemma PhoneExamples()
    ensures !PhoneValid("+91 7338031038")
    ensures PhoneValid("+917338031038")
    ensures !PhoneValid("09980667425")
    ensures !PhoneValid("+")
  {
    var a := "+91 7338031038";
    assert a[1..][2] == ' ';
    var b := "+917338031038";
    assert b[1..] == "917338031038";
  }

  /** A pincode read as a number: exactly the six-digit strings whose value lies
      between 100000 and 999999, so a leading zero is what the rule rejects. */
  lemma PincodeRange(s: string)
    ensures PincodeValid(s) <==> AllDigits(s) && |s| == 6 && 100000 <= DigitsValue(s) <= 999999
  {
    if AllDigits(s) && |s| == 6 {
      SixDigitsValue(s);
    }
  }

  /** The value of six digits, place by place. */
  lemma SixDigitsValue(s: string)
    requires AllDigits(s) && |s| == 6
    ensures DigitsValue(s) == 100000 * DigitValue(s[0]) + 10000 * DigitValue(s[1]) + 1000 * DigitValue(s[2])
                              + 100 * DigitValue(s[3]) + 10 * DigitValue(s[4]) + DigitValue(s[5])
  {
    assert s[..5][..4] == s[..4] && s[..4][..3] == s[..3] && s[..3][..2] == s[..2];
    assert s[..2][..1] == s[..1] && s[..1][..0] == [];
    assert DigitsValue(s[..1]) == DigitValue(s[0]);
    assert DigitsValue(s[..2]) == DigitsValue(s[..1]) * 10 + DigitValue(s[1]);
    assert DigitsValue(s[..3]) == DigitsValue(s[..2]) * 10 + DigitValue(s[2]);
    assert DigitsValue(s[..4]) == DigitsValue(s[..3]) * 10 + DigitValue(s[3]);
    assert DigitsValue(s[..5]) == DigitsValue(s[..4]) * 10 + DigitValue(s[4]);
    assert DigitsValue(s) == DigitsValue(s[..5]) * 10 + DigitValue(s[5]);
  }

  lemma PincodeExamples()
    ensures PincodeValid("560001")
    ensures !PincodeValid("060001")
    ensures !PincodeValid("56000")
  {
  }

  lemma ContactNameAccepted()
    ensures ContactNameValid("D'Souza Jr.")
  {
    var n := "D'Souza Jr.";
    TrimUnpadded(n);
    assert n == ['D', '\'', 'S', 'o', 'u', 'z', 'a', ' ', 'J', 'r', '.'];
    forall i | 0 <= i < |n| ensures NameChar(n[i]) {
    }
  }

  lemma PaddedLetterRejected()
    ensures !ContactNameValid(" J ")
  {
    OneLetterPadded('J');
    assert " J " == [' ', 'J', ' '];
  }

  lemma DigitsInNameRejected()
    ensures !ContactNameValid("R2D2")
  {
    var r := "R2D2";
    assert r[0] == 'R' && r[1] == '2' && r[3] == '2';
    TrimUnpadded(r);
    DigitRejected(r, 1);
  }

  /** A digit anywhere in the trimmed name fails the rule. */
  lemma DigitRejected(name: string, i: int)
    requires 0 <= i < |Trim(name)| && IsDigit(Trim(name)[i])
    ensures !ContactNameValid(name)
  {
    assert !NameChar(Trim(name)[i]);
  }

  /** The name rule admits no digit anywhere in the trimmed name. */
  lemma ContactNameHasNoDigit(name: string)
    requires ContactNameValid(name)
    ensures forall i :: 0 <= i < |Trim(name)| ==> !IsDigit(Trim(name)[i])
  {
    var t := Trim(name);
    forall i | 0 <= i < |t| ensures !IsDigit(t[i]) {
      assert NameChar(t[i]);
    }
  }

  /** The rule judges the trimmed name, so trimming first changes nothing. */
  lemma ContactNameTrimmed(name: string)
    ensures ContactNameValid(name) <==> ContactNameValid(Trim(name))
  {
    var t := Trim(name);
    TrimUnpadded(t);
    assert Trim(t) == t;
  }

  /** One letter between two spaces trims to a single character. */
  lemma OneLetterPadded(c: char)
    requires !IsSpace(c)
    ensures Trim([' ', c, ' ']) == [c]
  {
    var s := [' ', c, ' '];
    assert s[1..] == [c, ' '];
    TrimStartUnpadded([c, ' ']);
    assert [c, ' '][..1] == [c];
    TrimEndUnpadded([c]);
  }
}
