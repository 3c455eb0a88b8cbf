/** The login form of LoginPage.tsx: the phone field's sanitiser and the
    ordered validation on submit. The language is the tag the component
    compares against ('HI', 'PA', anything else is English). */
module Login {
  import opened Text

  /** `value.replace(/\D/g, '')`: the ASCII digits of `s`, in order. */
  function Digits(s: string): (r: string)
    ensures |r| <= |s|
    ensures forall k :: 0 <= k < |r| ==> IsDigit(r[k])
  {
    if s == [] then []
    else if IsDigit(s[0]) then [s[0]] + Digits(s[1..])
    else Digits(s[1..])
  }

  /** Removing non-digits distributes over concatenation. */
  lemma {:induction false} DigitsAppend(a: string, b: string)
    ensures Digits(a + b) == Digits(a) + Digits(b)
    decreases |a|
  {
    if a == [] {
      assert a + b == b;
    } else {
      assert (a + b)[1..] == a[1..] + b;
      DigitsAppend(a[1..], b);
    }
  }

  /** A string of digits only is its own digit filter. */
  lemma {:induction false} DigitsOfDigits(s: string)
    requires forall k :: 0 <= k < |s| ==> IsDigit(s[k])
    ensures Digits(s) == s
    decreases |s|
  {
    if s != [] {
      DigitsOfDigits(s[1..]);
      assert s == [s[0]] + s[1..];
    }
  }

  /** A string without digits filters to nothing. Together with
      `DigitsOfDigits` and `DigitsAppend` this fixes `Digits` on every
      input: split it into runs of digits and of other characters. */
  lemma {:induction false} DigitsOfNonDigits(s: string)
    requires forall k :: 0 <= k < |s| ==> !IsDigit(s[k])
    ensures Digits(s) == []
    decreases |s|
  {
    if s != [] {
      DigitsOfNonDigits(s[1..]);
    }
  }

  const PhoneLength := 10

  /** The `onChange` handler of the phone input:
      `value.replace(/\D/g, '').slice(0, 10)`. */
  function SanitizePhone(s: string): (r: string)
    ensures |r| <= PhoneLength
    ensures forall k :: 0 <= k < |r| ==> IsDigit(r[k])
    ensures r <= Digits(s)
    ensures |r| == if |Digits(s)| < PhoneLength then |Digits(s)| else PhoneLength
  {
    Take(Digits(s), PhoneLength)
  }

  /** The sanitiser leaves exactly the strings of at most ten digits
      unchanged; in particular it is idempotent. */
  lemma SanitizeFixedPoints(s: string)
    ensures SanitizePhone(s) == s <==>
              |s| <= PhoneLength && forall k :: 0 <= k < |s| ==> IsDigit(s[k])
    ensures SanitizePhone(SanitizePhone(s)) == SanitizePhone(s)
  {
    if |s| <= PhoneLength && forall k :: 0 <= k < |s| ==> IsDigit(s[k]) {
      DigitsOfDigits(s);
    }
    DigitsOfDigits(SanitizePhone(s));
  }

  /** Typing more characters never changes the digits already kept, as
      long as fewer than ten were kept. */
  lemma SanitizeExtends(s: string, more: string)
    requires |Digits(s)| < PhoneLength
    ensures SanitizePhone(s) <= SanitizePhone(s + more)
  {
    DigitsAppend(s, more);
  }

  function PhoneError(lang: string): string
  {
    if lang == "HI" then "कृपया फोन नंबर दर्ज करें"
    else if lang == "PA" then "ਕਿਰਪਾ ਕਰਕੇ ਫੋਨ ਨੰਬਰ ਦਿਓ"
    else "Please enter phone number"
  }

  function NameError(lang: string): string
  {
    if lang == "HI" then "कृपया नाम दर्ज करें"
    else if lang == "PA" then "ਕਿਰਪਾ ਕਰਕੇ ਨਾਮ ਦਿਓ"
    else "Please enter your name"
  }

  /** The outcome of submitting: an error shown on the form, or the
      arguments `onLogin` receives. */
  datatype Submission = Rejected(error: string) | Accepted(phone: string, name: string)

  /** `handleSubmit`: the phone is checked first, then the name; the values
      are passed on as typed, without trimming or a length check. */
  function Submit(phone: string, name: string, lang: string): (r: Submission)
    ensures r.Accepted? <==> !IsBlank(phone, Js) && !IsBlank(name, Js)
    ensures IsBlank(phone, Js) ==> r == Rejected(PhoneError(lang))
    ensures !IsBlank(phone, Js) && IsBlank(name, Js) ==> r == Rejected(NameError(lang))
    ensures r.Accepted? ==> r.phone == phone && r.name == name
  {
    if IsBlank(phone, Js) then Rejected(PhoneError(lang))
    else if IsBlank(name, Js) then Rejected(NameError(lang))
    else Accepted(phone, name)
  }

  /** The two error texts never coincide, so the message tells which check
      failed; with both fields blank it is always the phone's. */
  lemma ErrorsAreDistinct(lang: string)
    ensures PhoneError(lang) != NameError(lang)
    ensures Submit("", "", lang) == Rejected(PhoneError(lang))
  {
    if lang == "HI" {
      assert PhoneError(lang)[7] != NameError(lang)[7];
    } else if lang == "PA" {
      assert PhoneError(lang)[12] != NameError(lang)[12];
    } else {
      assert PhoneError(lang)[13] != NameError(lang)[13];
    }
  }

  /** On a phone value produced by the sanitiser, the blank check is the
      empty check. */
  lemma SanitizedBlankIsEmpty(s: string)
    ensures IsBlank(SanitizePhone(s), Js) <==> SanitizePhone(s) == ""
  {
    var p := SanitizePhone(s);
    if p != "" {
      assert !IsSpace(p[0], Js);
    }
  }

  /** The form shows "10 digits", but a one-digit phone is accepted. */
  lemma ShortPhoneAccepted(lang: string)
    ensures Submit("9", "Asha", lang) == Accepted("9", "Asha")
  {
    assert !IsSpace("9"[0], Js);
    assert !IsSpace("Asha"[0], Js);
  }
}
