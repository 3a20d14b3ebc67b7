/** The field validators of the add-user form. */
module AddUser {
  import opened JsValues
  import opened EmailPattern

  /** A validator either accepts the value or rejects it with a message. */
  datatype Verdict = Valid | Invalid(message: string)

  const NameMissing := "Please input the company name!"
  const EmailMissing := "Please input the E-mail!"
  const EmailMalformed := "Please input a valid E-mail!"

  /** `String(value).trim() === ''`, or the value is null or undefined. */
  predicate Blank(v: JsValue) {
    Trim(ToJsString(v)) == "" || v.Null? || v.Undefined?
  }

  /** The name field: anything but a blank value. */
  function ValidateName(v: JsValue): (r: Verdict)
    ensures r.Valid? <==> v.Str? && !AllWhitespace(v.s)
    ensures r.Invalid? ==> r.message == NameMissing
  {
    if Blank(v) then Invalid(NameMissing) else Valid
  }

  /**
   * The e-mail field: a blank value is missing; otherwise the trimmed text
   * must match the e-mail pattern.
   */
  function ValidateEmail(v: JsValue): (r: Verdict)
    ensures r == Invalid(EmailMissing) <==> v.Null? || v.Undefined? || AllWhitespace(v.s)
    ensures r.Valid? <==> v.Str? && !AllWhitespace(v.s) && Matches(Trim(v.s))
    ensures r.Invalid? ==> r.message == EmailMissing || r.message == EmailMalformed
  {
    if Blank(v) then Invalid(EmailMissing)
    else if IsEmail(Trim(v.s)) then Valid
    else Invalid(EmailMalformed)
  }

  /** White space typed around an address does not change the verdict. */
  lemma EmailIgnoresSurroundingWhitespace(a: string, s: string, b: string)
    requires AllWhitespace(a) && AllWhitespace(b)
    ensures ValidateEmail(Str(a + s + b)) == ValidateEmail(Str(s))
  {
    TrimIgnoresSurroundingWhitespace(a, s, b);
  }

  /** A valid address splits at its last `@` into a non-empty local part and a domain, and an unquoted local part has no stray dots. */
  lemma ValidEmailShape(v: JsValue)
    ensures ValidateEmail(v).Valid? ==>
      && v.Str?
      && var t := Trim(v.s);
         var p := LastIndexOf(t, '@');
         && 0 < p < |t| - 1
         && Domain(t[p + 1..])
         && (t[0] != '"' ==> DotSeparated(t[..p]))
  {
    if ValidateEmail(v).Valid? {
      var t := Trim(v.s);
      var p := LastIndexOf(t, '@');
      assert IsEmail(t);
      if t[0] != '"' {
        assert !QuotedLocal(t[..p]) by {
          if p > 0 { assert t[..p][0] == t[0]; }
        }
        DotAtomShape(t[..p]);
      }
    }
  }
}
