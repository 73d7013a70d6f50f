/** The phone-number check the server applies before registering an
    identity and before opening a chat (validateIndianPhone in
    server/index.js): keep the ASCII digits of the input and accept the result
    when it has ten of them and starts with 6, 7, 8 or 9. */
module Phone {
  import opened JsText

  /** `\d` without the `u` flag: the ASCII digits '0'..'9'. */
  predicate IsDigit(c: CodeUnit)
  {
    0x30 <= c <= 0x39
  }

  /** A leading digit `[6-9]`. */
  predicate IsMobileLead(c: CodeUnit)
  {
    0x36 <= c <= 0x39
  }

  predicate AllDigits(s: JsString)
  {
    forall i | 0 <= i < |s| :: IsDigit(s[i])
  }

  /** The shape of a normalized phone: ten digits, the first one 6-9. */
  predicate IsNormalizedPhone(s: JsString)
  {
    |s| == 10 && AllDigits(s) && IsMobileLead(s[0])
  }

  /** `s.replace(/\D/g, '')`: the digits of `s`, in order. */
  function Digits(s: JsString): (r: JsString)
    ensures AllDigits(r)
    ensures |r| <= |s|
    ensures AllDigits(s) ==> r == s
  {
    if s == [] then []
    else if IsDigit(s[0]) then [s[0]] + Digits(s[1..])
    else Digits(s[1..])
  }

  /** Stripping non-digits loses no digit: each digit occurs in the result
      as often as in the input. */
  lemma {:induction false} DigitsKeepsEveryDigit(s: JsString, c: CodeUnit)
    requires IsDigit(c)
    ensures multiset(Digits(s))[c] == multiset(s)[c]
  {
    if s != [] {
      DigitsKeepsEveryDigit(s[1..], c);
      assert s == [s[0]] + s[1..];
    }
  }

  /** Stripping works piece by piece, so the digits keep their order. */
  lemma {:induction false} DigitsConcat(a: JsString, b: JsString)
    ensures Digits(a + b) == Digits(a) + Digits(b)
  {
    if a == [] {
      assert a + b == b;
    } else {
      assert (a + b)[0] == a[0];
      assert (a + b)[1..] == a[1..] + b;
      DigitsConcat(a[1..], b);
    }
  }

  /** validateIndianPhone; `None` stands for JavaScript's null/undefined. */
  function ValidateIndianPhone(ph: Option<JsString>): (r: Option<JsString>)
    ensures ph == None || ph == Some([]) ==> r == None
    ensures r.Some? <==> ph.Some? && IsNormalizedPhone(Digits(ph.value))
    ensures r.Some? ==> r.value == Digits(ph.value) && IsNormalizedPhone(r.value)
  {
    match ph
    case None => None
    case Some(s) =>
      if s == [] then None
      else
        var digits := Digits(s);
        if |digits| == 10 && IsMobileLead(digits[0]) then Some(digits) else None
  }

  /** A result of the check passes the check again, unchanged. */
  lemma ValidateIdempotent(ph: Option<JsString>)
    requires ValidateIndianPhone(ph).Some?
    ensures ValidateIndianPhone(ValidateIndianPhone(ph)) == ValidateIndianPhone(ph)
  {
  }

  /** The fixed points of the check are exactly the normalized phones. */
  lemma ValidateFixedPoints(s: JsString)
    ensures ValidateIndianPhone(Some(s)) == Some(s) <==> IsNormalizedPhone(s)
  {
    if ValidateIndianPhone(Some(s)) == Some(s) {
      assert IsNormalizedPhone(Digits(s));
    }
  }

  /** A normalized phone has no '_', the separator of room ids. */
  lemma NormalizedHasNoUnderscore(s: JsString)
    requires IsNormalizedPhone(s)
    ensures UNDERSCORE !in s
  {
  }
}
