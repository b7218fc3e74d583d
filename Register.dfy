/**
 * The submit handler of the registration page
 * (client/src/pages/auth/Register.tsx): the password pattern, then the
 * confirmation check, then the request, which carries the name, the e-mail
 * and the password only.
 */
module RegisterForm {
  import opened Js
  import opened Regex

  /**
   * `/^(?=.*[A-Za-z])(?=.*\d)(?=.*[@$!%*#?&])[A-Za-z\d@$!%*#?&]{6,12}$/`,
   * read as it is written: three lookaheads from the start, then 6 to 12
   * characters of the class up to the end of the input.
   */
  predicate PasswordPattern(p: string)
  {
    Ahead(p, Letter) && Ahead(p, Digit) && Ahead(p, Symbol)
    && 6 <= |p| <= 12 && forall i :: 0 <= i < |p| ==> InClass(p[i], LetterDigitSymbol)
  }

  /** The rule the pattern states, in plain terms. */
  predicate PasswordRule(p: string)
  {
    6 <= |p| <= 12
    && (forall i :: 0 <= i < |p| ==> InClass(p[i], LetterDigitSymbol))
    && Contains(p, Letter) && Contains(p, Digit) && Contains(p, Symbol)
  }

  /**
   * The pattern accepts exactly the passwords of 6 to 12 letters, digits and
   * `@$!%*#?&` that hold at least one of each kind.
   */
  lemma PatternIsRule(p: string)
    ensures PasswordPattern(p) <==> PasswordRule(p)
  {
    if forall i :: 0 <= i < |p| ==> InClass(p[i], LetterDigitSymbol) {
      assert SingleLine(p) by {
        forall i | 0 <= i < |p| ensures !IsLineTerminator(p[i]) {
          assert InClass(p[i], LetterDigitSymbol);
        }
      }
      AheadOnOneLine(p, Letter);
      AheadOnOneLine(p, Digit);
      AheadOnOneLine(p, Symbol);
    }
  }

  /** Sample passwords: a space, a dash, or a missing symbol each cause rejection. */
  lemma PatternSamples()
    ensures PasswordRule("abc12!")
    ensures !PasswordRule("abc 12!")
    ensures !PasswordRule("abc-12!")
    ensures !PasswordRule("abc123")
    ensures !PasswordRule("a1!")
    ensures !PasswordRule("abcdefgh1234!")
  {
    var ok := "abc12!";
    assert InClass(ok[0], Letter) && InClass(ok[3], Digit) && InClass(ok[5], Symbol);
    assert !InClass("abc 12!"[3], LetterDigitSymbol);
    assert !InClass("abc-12!"[3], LetterDigitSymbol);
    var none := "abc123";
    assert forall j :: 0 <= j < |none| ==> !IsSymbol(none[j]);
  }

  /** The form's fields. */
  datatype RegisterData = RegisterData(name: string, email: string, password: string, confirmPassword: string)

  /** The body of the registration request. */
  datatype RegisterBody = RegisterBody(name: string, email: string, password: string)

  const PatternMessage := "Password must be 6-12 characters long and include letters, numbers, and symbols."
  const MismatchMessage := "Passwords do not match."

  /** What a submit leaves: the error shown under the password, and the request sent, if any. */
  datatype Submission = Submission(passwordError: string, request: Option<RegisterBody>)

  /**
   * `handleSubmit`: the pattern is checked first, then the confirmation; a
   * request goes out only when both pass, and it never carries the
   * confirmation.
   */
  function Submit(form: RegisterData): (r: Submission)
    ensures r.request.Some? <==> PasswordRule(form.password) && form.password == form.confirmPassword
    ensures r.request.Some? ==>
      r.passwordError == "" && r.request.value == RegisterBody(form.name, form.email, form.password)
    ensures !PasswordRule(form.password) ==> r.passwordError == PatternMessage
    ensures PasswordRule(form.password) && form.password != form.confirmPassword ==>
      r.passwordError == MismatchMessage
  {
    PatternIsRule(form.password);
    if !PasswordPattern(form.password) then Submission(PatternMessage, None)
    else
      var cleared := "";
      if form.password != form.confirmPassword then Submission(MismatchMessage, None)
      else Submission(cleared, Some(RegisterBody(form.name, form.email, form.password)))
  }

  /** A password that fails both checks shows the pattern message, not the mismatch. */
  lemma PatternCheckedFirst()
    ensures Submit(RegisterData("n", "e", "abc", "xyz")) == Submission(PatternMessage, None)
  {
    assert !PasswordRule("abc");
  }
}
