/** The SMS sender: phone-number normalisation and validation, and the guard
    that stops an invalid number before the gateway is called. */
module Sms {
  import opened Common

  predicate IsDigit(c: char) { '0' <= c <= '9' }

  predicate IsPhoneChar(c: char) { IsDigit(c) || c == '+' }

  /** The characters of `s` that are digits or '+', in order. */
  function PhoneChars(s: string): string {
    if s == [] then [] else (if IsPhoneChar(s[0]) then [s[0]] else []) + PhoneChars(s[1..])
  }

  /** The filter keeps only phone characters. */
  lemma {:induction false} PhoneCharsOnly(s: string)
    ensures forall i :: 0 <= i < |PhoneChars(s)| ==> IsPhoneChar(PhoneChars(s)[i])
    decreases |s|
  {
    if s != [] {
      PhoneCharsOnly(s[1..]);
    }
  }

  /** The filter keeps each phone character as often as the input has it. */
  lemma {:induction false} PhoneCharsCount(s: string)
    ensures forall c :: IsPhoneChar(c) ==> multiset(PhoneChars(s))[c] == multiset(s)[c]
    decreases |s|
  {
    if s != [] {
      PhoneCharsCount(s[1..]);
      assert s == [s[0]] + s[1..];
      assert multiset(s) == multiset{s[0]} + multiset(s[1..]);
    }
  }

  /** A string made only of phone characters passes the filter unchanged. */
  lemma {:induction false} PhoneCharsOfPhone(s: string)
    ensures (forall i :: 0 <= i < |s| ==> IsPhoneChar(s[i])) ==> PhoneChars(s) == s
    decreases |s|
  {
    if s != [] {
      PhoneCharsOfPhone(s[1..]);
      assert s == [s[0]] + s[1..];
    }
  }

  /** The filter works piecewise. */
  lemma {:induction false} PhoneCharsConcat(a: string, b: string)
    ensures PhoneChars(a + b) == PhoneChars(a) + PhoneChars(b)
    decreases |a|
  {
    if a == [] {
      assert a + b == b;
    } else {
      assert (a + b)[0] == a[0] && (a + b)[1..] == a[1..] + b;
      PhoneCharsConcat(a[1..], b);
    }
  }

  /** replaceAll("[^0-9+]", ""): keeps every digit and '+', in order, and
      drops everything else. */
  function Clean(s: string): (r: string)
    ensures forall i :: 0 <= i < |r| ==> IsPhoneChar(r[i])
    ensures forall c :: IsPhoneChar(c) ==> multiset(r)[c] == multiset(s)[c]
    ensures (forall i :: 0 <= i < |s| ==> IsPhoneChar(s[i])) ==> r == s
    ensures |s| == 1 ==> r == (if IsPhoneChar(s[0]) then s else [])
  {
    PhoneCharsOnly(s);
    PhoneCharsCount(s);
    PhoneCharsOfPhone(s);
    PhoneChars(s)
  }

  /** replaceAll("[^0-9]", ""). */
  function Digits(s: string): (r: string)
    ensures forall i :: 0 <= i < |r| ==> IsDigit(r[i])
    ensures |r| <= |s|
    ensures |s| == 1 ==> r == (if IsDigit(s[0]) then s else [])
  {
    if s == [] then [] else (if IsDigit(s[0]) then [s[0]] else []) + Digits(s[1..])
  }

  /** Cleaning filters piecewise, so it keeps the order of what it keeps. */
  lemma CleanConcat(a: string, b: string)
    ensures Clean(a + b) == Clean(a) + Clean(b)
  {
    PhoneCharsConcat(a, b);
  }

  lemma {:induction false} DigitsConcat(a: string, b: string)
    ensures Digits(a + b) == Digits(a) + Digits(b)
    decreases |a|
  {
    if a == [] {
      assert a + b == b;
    } else {
      assert (a + b)[0] == a[0] && (a + b)[1..] == a[1..] + b;
      DigitsConcat(a[1..], b);
    }
  }

  /** Cleaning loses no digit. */
  lemma {:induction false} DigitsOfClean(s: string)
    ensures Digits(Clean(s)) == Digits(s)
    decreases |s|
  {
    if s != [] {
      DigitsOfClean(s[1..]);
      DigitsConcat(if IsPhoneChar(s[0]) then [s[0]] else [], Clean(s[1..]));
    }
  }

  /** A string made of digits only is its own digit string. */
  lemma {:induction false} DigitsOfDigits(s: string)
    requires forall i :: 0 <= i < |s| ==> IsDigit(s[i])
    ensures Digits(s) == s
    decreases |s|
  {
    if s != [] { DigitsOfDigits(s[1..]); }
  }

  /** normalizePhoneNumber. */
  function Normalize(phone: string): (r: string)
    ensures r != [] && r[0] == '+'
    ensures forall i :: 0 <= i < |r| ==> IsPhoneChar(r[i])
    ensures Clean(phone) != [] && Clean(phone)[0] == '+' ==> r == Clean(phone)
    ensures AddsCountryCode(phone) ==> r == "+1" + Clean(phone)
    ensures !(Clean(phone) != [] && Clean(phone)[0] == '+') && !AddsCountryCode(phone) ==> r == "+" + Clean(phone)
  {
    var cleaned := Clean(phone);
    if cleaned != [] && cleaned[0] == '+' then cleaned
    else if cleaned != [] && cleaned[0] == '1' && |cleaned| == 11 then "+" + cleaned
    else if |cleaned| == 10 then "+1" + cleaned
    else "+" + cleaned
  }

  /** The branch that prefixes "+1" (a cleaned number of ten characters that
      does not already start with '+'). */
  predicate AddsCountryCode(phone: string) {
    var cleaned := Clean(phone);
    !(cleaned != [] && cleaned[0] == '+') && |cleaned| == 10
  }

  /** Normalising a normalised number changes nothing. */
  lemma NormalizeIdempotent(phone: string)
    ensures Normalize(Normalize(phone)) == Normalize(phone)
  {
  }

  /** Normalisation keeps every digit of the input and adds the digit '1'
      exactly when it prefixes "+1". */
  lemma NormalizeDigits(phone: string)
    ensures Digits(Normalize(phone)) == (if AddsCountryCode(phone) then "1" else "") + Digits(phone)
  {
    var cleaned := Clean(phone);
    DigitsOfClean(phone);
    if cleaned != [] && cleaned[0] == '+' {
    } else if cleaned != [] && cleaned[0] == '1' && |cleaned| == 11 {
      DigitsConcat("+", cleaned);
    } else if |cleaned| == 10 {
      DigitsConcat("+1", cleaned);
    } else {
      DigitsConcat("+", cleaned);
    }
  }

  /** isValidPhoneNumber: present, starts with '+', and 11 to 15 digits. */
  predicate IsValidPhoneNumber(phone: Option<string>) {
    && phone.Some?
    && phone.value != [] && phone.value[0] == '+'
    && 11 <= |Digits(phone.value)| <= 15
  }

  /** A normalised number is valid exactly when the input's digits, plus the
      added country code, number 11 to 15. */
  lemma NormalizedValidity(phone: string)
    ensures IsValidPhoneNumber(Some(Normalize(phone)))
        <==> 11 <= |Digits(phone)| + (if AddsCountryCode(phone) then 1 else 0) <= 15
  {
    NormalizeDigits(phone);
  }

  /** Ten cleaned digits become "+1" and those digits, a valid number. */
  lemma TenDigitsGetCountryCode(phone: string)
    requires |Clean(phone)| == 10
    requires forall i :: 0 <= i < 10 ==> IsDigit(Clean(phone)[i])
    ensures Normalize(phone) == "+1" + Clean(phone)
    ensures IsValidPhoneNumber(Some(Normalize(phone)))
  {
    DigitsOfDigits(Clean(phone));
    DigitsOfClean(phone);
    NormalizedValidity(phone);
  }

  /** Ten cleaned characters with an inner '+' also get "+1", yet hold at
      most nine digits of their own and fail validation. */
  lemma InnerPlusFailsValidation(phone: string, k: int)
    requires AddsCountryCode(phone)
    requires 0 <= k < |Clean(phone)| && Clean(phone)[k] == '+'
    ensures Normalize(phone) == "+1" + Clean(phone)
    ensures !IsValidPhoneNumber(Some(Normalize(phone)))
  {
    DigitsDropNonDigit(Clean(phone), k);
    DigitsOfClean(phone);
    NormalizedValidity(phone);
  }

  /** A string with a character that is not a digit has fewer digits than
      characters. */
  lemma DigitsDropNonDigit(s: string, k: int)
    requires 0 <= k < |s| && !IsDigit(s[k])
    ensures |Digits(s)| < |s|
  {
    assert s == s[..k] + ([s[k]] + s[k + 1..]);
    DigitsConcat(s[..k], [s[k]] + s[k + 1..]);
    DigitsConcat([s[k]], s[k + 1..]);
    assert Digits([s[k]]) == [];
  }

  const SmsFailurePrefix := "Failed to send SMS: "

  /** sendSms: the number is normalised and validated before the gateway is
      called; any failure is rethrown with the SMS prefix. `gateway` is what
      the gateway's message creation does on this attempt. */
  function SendSms(recipient: string, gateway: Outcome): (r: Outcome)
    ensures r.Sent? <==> IsValidPhoneNumber(Some(Normalize(recipient))) && gateway.Sent?
    ensures !IsValidPhoneNumber(Some(Normalize(recipient))) ==>
              r == Failed(SmsFailurePrefix + "Invalid phone number format: " + recipient)
    ensures r.Failed? ==> |r.reason| >= |SmsFailurePrefix| && r.reason[..|SmsFailurePrefix|] == SmsFailurePrefix
  {
    var phone := Normalize(recipient);
    if !IsValidPhoneNumber(Some(phone)) then
      Failed(SmsFailurePrefix + "Invalid phone number format: " + recipient)
    else
      match gateway
      case Sent => Sent
      case Failed(m) => Failed(SmsFailurePrefix + m)
  }
}
