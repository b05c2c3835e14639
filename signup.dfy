/**
 * The signup page's checks before any account is created: required fields,
 * PIN confirmation and length, then the phone number with its punctuation
 * deleted and the sign-in email derived from it.
 */
module Signup {
  import opened Wrappers
  import opened Text
  import Seqs

  datatype SignupError = MissingField | PinMismatch | PinTooShort

  const MinimumPinLength := 6

  /** What the page sends on: the name, the normalised phone, the PIN and the generated email. */
  datatype SignupRequest = SignupRequest(name: string, phone: string, pin: string, email: string)

  /** The characters `/\+|\s|-/g` does not delete. */
  predicate KeptInPhone(c: char) {
    c != '+' && c != '-' && !IsJsSpace(c)
  }

  /** `phone.replace(/\+|\s|-/g, '')`. */
  function NormalisePhone(phone: string): (r: string)
    ensures forall i :: 0 <= i < |r| ==> r[i] != '+' && r[i] != '-' && !IsJsSpace(r[i])
    ensures forall c :: c in r <==> c in phone && KeptInPhone(c)
    ensures forall c :: multiset(r)[c] == if KeptInPhone(c) then multiset(phone)[c] else 0
    ensures Seqs.IsSubsequence(r, phone)
  {
    Seqs.FilterIsSubsequence(phone, KeptInPhone);
    Seqs.Filter(phone, KeptInPhone)
  }

  /** Normalising an already normalised phone number changes nothing. */
  lemma NormalisePhoneIdempotent(phone: string)
    ensures NormalisePhone(NormalisePhone(phone)) == NormalisePhone(phone)
  {
    Seqs.FilterIdempotent(phone, KeptInPhone);
  }

  /** A number written without `+`, `-` or blanks is left as it is. */
  lemma {:induction false} NormalisePhoneOfDigits(phone: string)
    requires AllDigits(phone)
    ensures NormalisePhone(phone) == phone
  {
    forall i | 0 <= i < |phone|
      ensures KeptInPhone(phone[i])
    {
      assert IsDigit(phone[i]);
    }
    Seqs.FilterKeepsAll(phone, KeptInPhone);
  }

  const EmailPrefix := "user_"
  const EmailDomain := "@cashpoint.app"

  /** The email under which the account is registered. */
  function GeneratedEmail(phone: string): (email: string)
    ensures |email| == |phone| + |EmailPrefix| + |EmailDomain|
    ensures email[..|EmailPrefix|] == EmailPrefix
    ensures email[|EmailPrefix|..|EmailPrefix| + |phone|] == phone
    ensures email[|email| - |EmailDomain|..] == EmailDomain
  {
    EmailPrefix + phone + EmailDomain
  }

  /** Reads the phone number back out of a generated email. */
  function PhoneOfEmail(email: string): (r: Option<string>)
    ensures r.Some? ==> |EmailPrefix| + |EmailDomain| <= |email|
  {
    if |email| >= |EmailPrefix| + |EmailDomain|
       && email[..|EmailPrefix|] == EmailPrefix
       && email[|email| - |EmailDomain|..] == EmailDomain
    then Some(email[|EmailPrefix|..|email| - |EmailDomain|])
    else None
  }

  /** The generated email determines the phone number it was made from. */
  lemma EmailRoundTrip(phone: string)
    ensures PhoneOfEmail(GeneratedEmail(phone)) == Some(phone)
  {
    var email := GeneratedEmail(phone);
    assert email[|EmailPrefix|..|email| - |EmailDomain|] == phone;
  }

  /** Two different normalised numbers never share an email. */
  lemma GeneratedEmailInjective(p: string, q: string)
    ensures GeneratedEmail(p) == GeneratedEmail(q) ==> p == q
  {
    EmailRoundTrip(p);
    EmailRoundTrip(q);
  }

  /** The validation prefix of `handleSubmit`: the first failing check wins. */
  function ValidateSignup(name: string, phone: string, pin: string, confirmPin: string): (r: Result<SignupRequest, SignupError>)
    ensures r == Err(MissingField) <==> IsBlank(name) || IsBlank(phone) || IsBlank(pin)
    ensures r == Err(PinMismatch) <==> !IsBlank(name) && !IsBlank(phone) && !IsBlank(pin) && pin != confirmPin
    ensures r == Err(PinTooShort) <==>
              !IsBlank(name) && !IsBlank(phone) && !IsBlank(pin) && pin == confirmPin && |pin| < MinimumPinLength
    ensures r.Ok? ==> |r.value.pin| >= MinimumPinLength && r.value.pin == confirmPin
    ensures r.Ok? ==> r.value.phone == NormalisePhone(phone) && r.value.email == GeneratedEmail(r.value.phone)
    ensures r.Ok? ==> r.value.name == name
  {
    if IsBlank(name) || IsBlank(phone) || IsBlank(pin) then Err(MissingField)
    else if pin != confirmPin then Err(PinMismatch)
    else if |pin| < MinimumPinLength then Err(PinTooShort)
    else
      var formatted := NormalisePhone(phone);
      Ok(SignupRequest(name, formatted, pin, GeneratedEmail(formatted)))
  }

  /**
   * The length check counts characters, not digits, and does not trim: a
   * five-digit PIN followed by a space is long enough.
   */
  lemma PaddedPinAccepted()
    ensures ValidateSignup("Rabe", "0341234567", "12345 ", "12345 ").Ok?
  {
    assert !IsJsSpace("Rabe"[0]) && !IsJsSpace("0341234567"[0]) && !IsJsSpace("12345 "[0]);
  }

  /** Deleting the punctuation from a lone `+` leaves nothing. */
  lemma PlusOnlyNormalisesToEmpty()
    ensures NormalisePhone("+") == []
  {
    assert !KeptInPhone('+');
    assert Seqs.Filter("+", KeptInPhone) == Seqs.Filter("+"[1..], KeptInPhone);
  }

  /**
   * A phone made only of a `+` is not blank, so it passes, and its
   * normalised form is empty: the email carries no number at all.
   */
  lemma PlusOnlyPhoneGivesEmptyNumber()
    ensures ValidateSignup("Rabe", "+", "123456", "123456").Ok?
    ensures ValidateSignup("Rabe", "+", "123456", "123456").value.phone == ""
    ensures ValidateSignup("Rabe", "+", "123456", "123456").value.email == "user_@cashpoint.app"
  {
    assert !IsJsSpace("Rabe"[0]) && !IsJsSpace("+"[0]) && !IsJsSpace("123456"[0]);
    var r := ValidateSignup("Rabe", "+", "123456", "123456");
    assert r.Ok? && r.value.phone == NormalisePhone("+");
    PlusOnlyNormalisesToEmpty();
    EmptyNumberEmail();
  }

  lemma EmptyNumberEmail()
    ensures GeneratedEmail("") == "user_@cashpoint.app"
  {
  }
}
