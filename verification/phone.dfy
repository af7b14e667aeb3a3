/** Phone-number utilities: reduce typed text to a digit string without
    leading zeros, judge its length, and build the WhatsApp deep link. */
module Phone {
  import opened UriEncoding

  /** The argument of sanitizePhoneInput as far as it tells values apart:
      a string, or anything else. */
  datatype JsValue = JsString(text: string) | NonString

  /** Fewest digits a number may have to be accepted. */
  const MinDigits: nat := 8
  /** Most digits a number may have: the 15-digit limit of ITU-T E.164, clause 6. */
  const MaxDigits: nat := 15

  const WhatsAppPrefix: string := "https://api.whatsapp.com/send/?phone="

  /** The class [0-9] of the source's regular expressions: ASCII digits only. */
  predicate IsDigit(c: char) { '0' <= c <= '9' }

  predicate AllDigits(s: string) {
    forall i :: 0 <= i < |s| ==> IsDigit(s[i])
  }

  predicate NoLeadingZero(s: string) { s == [] || s[0] != '0' }

  /** The text with every character outside [0-9] deleted. */
  function DigitsOf(s: string): (r: string)
    ensures AllDigits(r)
    ensures |r| <= |s|
  {
    if s == [] then []
    else (if IsDigit(s[0]) then [s[0]] else []) + DigitsOf(s[1..])
  }

  /** The text with its maximal leading run of '0' removed: what is left is a
      suffix, everything cut off was '0', and what is left does not start with '0'. */
  function StripLeadingZeros(s: string): (r: string)
    ensures |r| <= |s|
    ensures forall i :: 0 <= i < |r| ==> r[i] == s[|s| - |r| + i]
    ensures forall i :: 0 <= i < |s| - |r| ==> s[i] == '0'
    ensures NoLeadingZero(r)
  {
    if s != [] && s[0] == '0' then StripLeadingZeros(s[1..]) else s
  }

  /** sanitizePhoneInput on a string. */
  function Sanitize(raw: string): (r: string)
    ensures AllDigits(r) && NoLeadingZero(r)
    ensures |r| <= |raw|
  {
    var digits := DigitsOf(raw);
    var r := StripLeadingZeros(digits);
    assert AllDigits(r) by {
      forall i | 0 <= i < |r| ensures IsDigit(r[i]) {
        assert r[i] == digits[|digits| - |r| + i];
      }
    }
    r
  }

  /** sanitizePhoneInput: anything that is not a string gives the empty string. */
  function SanitizePhoneInput(raw: JsValue): (r: string)
    ensures AllDigits(r) && NoLeadingZero(r)
    ensures raw.NonString? ==> r == []
    ensures raw.JsString? ==> |r| <= |raw.text|
  {
    match raw
    case NonString => []
    case JsString(text) => Sanitize(text)
  }

  /** isLikelyValidPhoneNumber: an empty string fails, otherwise the length
      must lie between MinDigits and MaxDigits inclusive. */
  function IsLikelyValidPhoneNumber(digitsOnly: string): (ok: bool)
    ensures ok <==> MinDigits <= |digitsOnly| <= MaxDigits
    ensures digitsOnly == [] ==> !ok
  {
    if digitsOnly == [] then false
    else MinDigits <= |digitsOnly| && |digitsOnly| <= MaxDigits
  }

  /** buildWhatsAppUrl: the fixed prefix followed by the percent-encoded
      argument, which for a digit string is the argument itself. */
  function BuildWhatsAppUrl(digitsOnly: string): (url: string)
    ensures |WhatsAppPrefix| <= |url| && url[..|WhatsAppPrefix|] == WhatsAppPrefix
    ensures AllDigits(digitsOnly) ==> url == WhatsAppPrefix + digitsOnly
  {
    EncodeFixedPoint(digitsOnly);
    WhatsAppPrefix + EncodeUriComponent(digitsOnly)
  }

  // ---- Properties of the digit filter ----

  /** Filtering distributes over concatenation; with DigitsOfSingle this says
      that DigitsOf keeps exactly the digits, in their original order. */
  lemma {:induction false} DigitsOfAppend(a: string, b: string)
    ensures DigitsOf(a + b) == DigitsOf(a) + DigitsOf(b)
  {
    if a == [] {
      assert a + b == b;
    } else {
      assert (a + b)[0] == a[0] && (a + b)[1..] == a[1..] + b;
      DigitsOfAppend(a[1..], b);
    }
  }

  lemma DigitsOfSingle(c: char)
    ensures DigitsOf([c]) == if IsDigit(c) then [c] else []
  {
  }

  /** A digit string passes through the filter unchanged. */
  lemma {:induction false} DigitsOfDigits(s: string)
    requires AllDigits(s)
    ensures DigitsOf(s) == s
  {
    if s != [] {
      DigitsOfDigits(s[1..]);
    }
  }

  // ---- Properties of leading-zero removal ----

  /** The three facts StripLeadingZeros ensures single out its result: any
      suffix with all-'0' cut-off part and no leading '0' is that result. */
  lemma StripLeadingZerosUnique(s: string, r: string)
    requires |r| <= |s| && r == s[|s| - |r|..]
    requires forall i :: 0 <= i < |s| - |r| ==> s[i] == '0'
    requires NoLeadingZero(r)
    ensures r == StripLeadingZeros(s)
  {
  }

  /** Text without a leading '0' is left as it is. */
  lemma StripLeadingZerosNoop(s: string)
    requires NoLeadingZero(s)
    ensures StripLeadingZeros(s) == s
  {
  }

  // ---- Properties of sanitizePhoneInput ----

  /** Sanitizing twice is sanitizing once. */
  lemma SanitizeIdempotent(raw: string)
    ensures Sanitize(Sanitize(raw)) == Sanitize(raw)
  {
    var r := Sanitize(raw);
    DigitsOfDigits(r);
    StripLeadingZerosNoop(r);
  }

  /** Characters other than digits are ignored wherever they stand. */
  lemma SanitizeIgnoresNonDigit(a: string, c: char, b: string)
    requires !IsDigit(c)
    ensures Sanitize(a + [c] + b) == Sanitize(a + b)
  {
    DigitsOfAppend(a + [c], b);
    DigitsOfAppend(a, [c]);
    DigitsOfSingle(c);
    DigitsOfAppend(a, b);
    assert DigitsOf(a + [c]) == DigitsOf(a);
    assert DigitsOf(a + [c] + b) == DigitsOf(a + b);
  }

  /** A leading '0' is dropped. */
  lemma SanitizeLeadingZero(s: string)
    ensures Sanitize(['0'] + s) == Sanitize(s)
  {
  }

  /** Once the first digit other than '0' is reached, every later digit is kept. */
  lemma SanitizeSignificantDigit(c: char, s: string)
    requires IsDigit(c) && c != '0'
    ensures Sanitize([c] + s) == [c] + DigitsOf(s)
  {
  }

  /** Sanitizing yields the digits of the text, in order, after the maximal run of
      leading '0' digits: a suffix of DigitsOf(raw) whose cut-off part is all '0'. */
  lemma SanitizeCharacterization(raw: string)
    ensures var d := DigitsOf(raw); var r := Sanitize(raw);
      |r| <= |d| && r == d[|d| - |r|..] &&
      (forall i :: 0 <= i < |d| - |r| ==> d[i] == '0') &&
      NoLeadingZero(r)
  {
  }

  // This lemma and the other worked examples take their input as a parameter
  // pinned by `requires s == "..."` rather than writing the literal in the
  // ensures: a literal argument makes the verifier unfold the recursive string
  // functions on it eagerly, which costs far more than the proof needs.
  /** The worked examples: a "00" international prefix is dropped with the
      other leading zeros, a single leading '0' is dropped, and digits
      without a leading '0' are kept as they are. */
  lemma SanitizeExample(s: string)
    requires s == "0034612345678" || s == "0612345678" || s == "123"
    ensures s == "0034612345678" ==> Sanitize(s) == "34612345678"
    ensures s == "0612345678" ==> Sanitize(s) == "612345678"
    ensures s == "123" ==> Sanitize(s) == "123"
  {
    assert AllDigits(s);
    DigitsOfDigits(s);
    if s == "0034612345678" {
      StripLeadingZerosUnique(s, s[2..]);
    } else if s == "0612345678" {
      StripLeadingZerosUnique(s, s[1..]);
    } else {
      StripLeadingZerosUnique(s, s);
    }
  }

  /** The accepted lengths, at both ends of the range. */
  lemma ValidityBoundaries()
    ensures !IsLikelyValidPhoneNumber("")
    ensures !IsLikelyValidPhoneNumber("1234567")
    ensures IsLikelyValidPhoneNumber("12345678")
    ensures IsLikelyValidPhoneNumber("123456789012345")
    ensures !IsLikelyValidPhoneNumber("1234567890123456")
  {
  }

  /** The link format, written out for one number. */
  lemma BuildWhatsAppUrlExample(d: string)
    requires d == "34612345678"
    ensures BuildWhatsAppUrl(d) == "https://api.whatsapp.com/send/?phone=34612345678"
  {
    assert AllDigits(d);
  }

  /** Two digit strings give the same link only if they are the same number. */
  lemma BuildWhatsAppUrlInjective(d1: string, d2: string)
    requires AllDigits(d1) && AllDigits(d2)
    requires BuildWhatsAppUrl(d1) == BuildWhatsAppUrl(d2)
    ensures d1 == d2
  {
  }
}
