/**
 * The seller sign-up page: the form record, the error line, the three verification flags,
 * and the handlers that update them. Server answers (duplicate-id check, e-mail and phone
 * validation, code delivery) are parameters.
 */
module SignUp {
  import opened Common
  import Phone

  /** The `name` of each input of the form. */
  datatype Field = LoginId | Email | Password | ConfirmPassword | Username | Mobile

  /** `formValues`. */
  datatype Values = Values(
    loginId: string, email: string, password: string,
    confirmPassword: string, username: string, mobile: string)
  {
    function Get(f: Field): string {
      match f
      case LoginId => loginId
      case Email => email
      case Password => password
      case ConfirmPassword => confirmPassword
      case Username => username
      case Mobile => mobile
    }

    /** The values with field `f` replaced by `value`. */
    function With(f: Field, value: string): (r: Values)
      ensures r.Get(f) == value
      ensures forall g :: g != f ==> r.Get(g) == Get(g)
    {
      match f
      case LoginId => this.(loginId := value)
      case Email => this.(email := value)
      case Password => this.(password := value)
      case ConfirmPassword => this.(confirmPassword := value)
      case Username => this.(username := value)
      case Mobile => this.(mobile := value)
    }
  }

  /** The texts the page shows in its error line, one constructor per distinct text. */
  datatype Message =
    | NoError                 // the empty string
    | PasswordTooLong         // at most 20 characters
    | PasswordTooShort        // at least 8 characters
    | PasswordMismatch        // the passwords differ
    | UsernameTooShort        // a seller name needs at least 2 characters
    | LoginIdNotAlphanumeric  // the id may use only letters and digits
    | MissingFields           // every field must be filled in
    | LoginIdUnchecked        // the duplicate-id check is not done
    | EmailUnverified         // the e-mail verification is not done
    | PhoneUnverified         // the phone-number check is not done
    | PasswordLengthRange     // between 8 and 20 characters

  /** What `signUp` is sent. */
  datatype SignUpRequest = SignUpRequest(loginId: string, email: string, password: string, username: string, mobile: string)

  /** The outcome of `validateEmail`: the two flags of the answer, or a failed call. */
  datatype EmailCheck = EmailCheckFailed | EmailVerdict(validFormat: bool, smtpValid: bool)

  predicate IsAsciiAlphanumeric(c: char) {
    ('a' <= c <= 'z') || ('A' <= c <= 'Z') || ('0' <= c <= '9')
  }

  /** Whether `s` holds some character outside the ASCII letters and digits. */
  predicate HasNonAlphanumeric(s: string) {
    exists i :: 0 <= i < |s| && !IsAsciiAlphanumeric(s[i])
  }

  // ---------------------------------------------------------------------------
  // The cascades, as functions of the state they read

  /** The error `handleChange` picks for an edit of the password or its confirmation. */
  function PasswordEditMessage(f: Field, value: string, storedPassword: string): Message {
    if value == [] then NoError
    else if |value| > 20 then PasswordTooLong
    else if |value| < 8 then PasswordTooShort
    else if f == ConfirmPassword && storedPassword != [] && storedPassword != value then PasswordMismatch
    else NoError
  }

  /** The error after `handleChange`; None when the handler leaves it alone (a phone edit). */
  function ChangeMessage(f: Field, value: string, storedPassword: string): (r: Option<Message>)
    ensures r.None? <==> f == Mobile
    ensures r.Some? && r.value != NoError ==> value != []
  {
    if f == Password || f == ConfirmPassword then Some(PasswordEditMessage(f, value, storedPassword))
    else if f == Username && 0 < |value| < 2 then Some(UsernameTooShort)
    else if f == LoginId && HasNonAlphanumeric(value) then Some(LoginIdNotAlphanumeric)
    else if f == Mobile then None
    else Some(NoError)
  }

  /** The form after `handleChange`: the edited field holds the value, formatted for the phone. */
  function ChangeValues(v: Values, f: Field, value: string): (r: Values)
    ensures f != Mobile ==> r.Get(f) == value
    ensures forall g :: g != f ==> r.Get(g) == v.Get(g)
  {
    v.With(f, if f == Mobile then Phone.FormatPhoneNumber(value) else value)
  }

  /** The error after `handleBlur` on field `f`, given the error shown before. */
  function BlurMessage(f: Field, v: Values, current: Message): Message {
    if f == Password || f == ConfirmPassword then
      if v.password != [] || v.confirmPassword != [] then
        if |v.password| < 8 then PasswordTooShort
        else if |v.password| > 20 then PasswordTooLong
        else if v.password != [] && v.confirmPassword != [] && v.password != v.confirmPassword then PasswordMismatch
        else NoError
      else current
    else if f == Username && 0 < |v.username| < 2 then UsernameTooShort
    else if f == LoginId && HasNonAlphanumeric(v.loginId) then LoginIdNotAlphanumeric
    else NoError
  }

  /** The error `validateForm` leaves: the message of the first check that fails. */
  function FormMessage(v: Values, idValid: bool, emailValid: bool, phoneValid: bool): Message {
    if HasNonAlphanumeric(v.loginId) then LoginIdNotAlphanumeric
    else if v.loginId == [] || v.email == [] || v.password == [] || v.confirmPassword == []
         || v.username == [] || v.mobile == [] then MissingFields
    else if !idValid then LoginIdUnchecked
    else if !emailValid then EmailUnverified
    else if !phoneValid then PhoneUnverified
    else if |v.password| < 8 || |v.password| > 20 then PasswordLengthRange
    else if v.password != v.confirmPassword then PasswordMismatch
    else NoError
  }

  /** What a complete, checked sign-up form is: every local and server check has passed. */
  predicate FormValid(v: Values, idValid: bool, emailValid: bool, phoneValid: bool) {
    && !HasNonAlphanumeric(v.loginId)
    && v.loginId != [] && v.email != [] && v.password != []
    && v.confirmPassword != [] && v.username != [] && v.mobile != []
    && idValid && emailValid && phoneValid
    && 8 <= |v.password| <= 20
    && v.password == v.confirmPassword
  }

  // ---------------------------------------------------------------------------
  // Lemmas about the cascades

  /**
   * The password-edit cascade: an empty value clears the error; more than 20 characters gives
   * the maximum message; 1 to 7 the minimum message; a confirmation that differs from a stored,
   * non-empty password the mismatch message; anything else clears the error.
   */
  lemma PasswordEditOrder(f: Field, value: string, storedPassword: string)
    requires f == Password || f == ConfirmPassword
    ensures var m := ChangeMessage(f, value, storedPassword);
      && (m == Some(PasswordTooLong) <==> |value| > 20)
      && (m == Some(PasswordTooShort) <==> 0 < |value| < 8)
      && (m == Some(PasswordMismatch) <==>
            8 <= |value| <= 20 && f == ConfirmPassword && storedPassword != [] && storedPassword != value)
      && (m == Some(NoError) <==>
            value == [] || (8 <= |value| <= 20 && !(f == ConfirmPassword && storedPassword != [] && storedPassword != value)))
  {
  }

  /**
   * `handleChange` stores the edit under its own field and nothing else; an id with a
   * forbidden character is stored all the same, while the error line reports it.
   */
  lemma ChangeStoresField(v: Values, f: Field, value: string)
    ensures ChangeValues(v, f, value).Get(f) == (if f == Mobile then Phone.FormatPhoneNumber(value) else value)
    ensures forall g :: g != f ==> ChangeValues(v, f, value).Get(g) == v.Get(g)
    ensures f == LoginId && HasNonAlphanumeric(value) ==>
      ChangeValues(v, f, value).loginId == value && ChangeMessage(f, value, v.password) == Some(LoginIdNotAlphanumeric)
  {
  }

  /** Blurring a password field while both password fields are empty leaves the error as it was. */
  lemma BlurKeepsErrorWhenPasswordsEmpty(f: Field, v: Values, current: Message)
    requires f == Password || f == ConfirmPassword
    requires v.password == [] && v.confirmPassword == []
    ensures BlurMessage(f, v, current) == current
  {
  }

  /** `validateForm` accepts exactly the forms that pass every check. */
  lemma FormMessageAccepts(v: Values, idValid: bool, emailValid: bool, phoneValid: bool)
    ensures FormMessage(v, idValid, emailValid, phoneValid) == NoError
      <==> FormValid(v, idValid, emailValid, phoneValid)
  {
  }

  /**
   * The handlers agree with one another: on a form that `validateForm` accepts, neither
   * password field raises an error on blur, and re-entering either stored password raises none.
   */
  lemma ValidFormRaisesNoPasswordError(v: Values, idValid: bool, emailValid: bool, phoneValid: bool, current: Message)
    requires FormValid(v, idValid, emailValid, phoneValid)
    ensures BlurMessage(Password, v, current) == NoError
    ensures BlurMessage(ConfirmPassword, v, current) == NoError
    ensures ChangeMessage(Password, v.password, v.password) == Some(NoError)
    ensures ChangeMessage(ConfirmPassword, v.confirmPassword, v.password) == Some(NoError)
  {
  }

  // ---------------------------------------------------------------------------
  // The page's state

  class SignUpForm {
    /** `formValues`. */
    var values: Values
    /** `error`. */
    var error: Message
    var idValid: bool
    var emailValid: bool
    var phoneValid: bool
    var verificationSent: bool
    /** The code the seller typed. */
    var verificationCode: string
    /** `serverVerificationCode`: the code the server sent. */
    var serverCode: string

    /**
     * A code has been received whenever the code field is shown, and the e-mail counts as
     * verified only after a code was sent.
     */
    ghost predicate Valid()
      reads this
    {
      && (verificationSent ==> serverCode != [])
      && (emailValid ==> verificationSent)
    }

    constructor ()
      ensures Valid()
      ensures values == Values([], [], [], [], [], []) && error == NoError
      ensures !idValid && !emailValid && !phoneValid && !verificationSent
      ensures verificationCode == [] && serverCode == []
    {
      values := Values([], [], [], [], [], []);
      error := NoError;
      idValid, emailValid, phoneValid, verificationSent := false, false, false, false;
      verificationCode, serverCode := [], [];
    }

    /** `handleChange`. */
    method Change(f: Field, value: string)
      requires Valid()
      modifies this`values, this`error
      ensures Valid()
      ensures values == ChangeValues(old(values), f, value)
      ensures error == ChangeMessage(f, value, old(values).password).GetOr(old(error))
    {
      if f == Password || f == ConfirmPassword {
        if value == [] {
          error := NoError;
        } else if |value| > 20 {
          error := PasswordTooLong;
        } else if |value| < 8 {
          error := PasswordTooShort;
        } else if f == ConfirmPassword && values.password != [] && values.password != value {
          error := PasswordMismatch;
        } else {
          error := NoError;
        }
      } else if f == Username && 0 < |value| < 2 {
        error := UsernameTooShort;
      } else if f == LoginId && HasNonAlphanumeric(value) {
        error := LoginIdNotAlphanumeric;
      } else if f == Mobile {
        values := values.With(f, Phone.FormatPhoneNumber(value));
        return;
      } else {
        error := NoError;
      }
      values := values.With(f, value);
    }

    /** `handleBlur`. */
    method Blur(f: Field)
      requires Valid()
      modifies this`error
      ensures Valid()
      ensures error == BlurMessage(f, values, old(error))
    {
      if f == Password || f == ConfirmPassword {
        if values.password != [] || values.confirmPassword != [] {
          if |values.password| < 8 {
            error := PasswordTooShort;
          } else if |values.password| > 20 {
            error := PasswordTooLong;
          } else if values.password != [] && values.confirmPassword != [] && values.password != values.confirmPassword {
            error := PasswordMismatch;
          } else {
            error := NoError;
          }
        }
      } else if f == Username && 0 < |values.username| < 2 {
        error := UsernameTooShort;
      } else if f == LoginId && HasNonAlphanumeric(values.loginId) {
        error := LoginIdNotAlphanumeric;
      } else {
        error := NoError;
      }
    }

    /**
     * `handleLoginIdCheck`. The duplicate check is requested only for a non-empty id of letters
     * and digits; `serverAccepts` is whether that request succeeded. Only an accepted request
     * sets `idValid`, and an id that is not checked leaves `idValid` untouched.
     */
    method LoginIdCheck(serverAccepts: bool) returns (requested: bool)
      requires Valid()
      modifies this`idValid, this`error
      ensures Valid()
      ensures requested <==> values.loginId != [] && !HasNonAlphanumeric(values.loginId)
      ensures idValid == (old(idValid) || (requested && serverAccepts))
      ensures error ==
        if values.loginId == [] then old(error)
        else if !requested then LoginIdNotAlphanumeric
        else if serverAccepts then NoError
        else old(error)
    {
      if values.loginId == [] {
        return false;
      }
      if HasNonAlphanumeric(values.loginId) {
        error := LoginIdNotAlphanumeric;
        return false;
      }
      requested := true;
      if serverAccepts {
        idValid := true;
        error := NoError;
      }
    }

    /** `validateForm`: true exactly for a form that passes every check; the error names the first failure. */
    method ValidateForm() returns (ok: bool)
      requires Valid()
      modifies this`error
      ensures Valid()
      ensures ok == FormValid(values, idValid, emailValid, phoneValid)
      ensures error == FormMessage(values, idValid, emailValid, phoneValid)
    {
      var v := values;
      if HasNonAlphanumeric(v.loginId) {
        error := LoginIdNotAlphanumeric;
        return false;
      }
      if v.loginId == [] || v.email == [] || v.password == [] || v.confirmPassword == []
         || v.username == [] || v.mobile == [] {
        error := MissingFields;
        return false;
      }
      if !idValid {
        error := LoginIdUnchecked;
        return false;
      }
      if !emailValid {
        error := EmailUnverified;
        return false;
      }
      if !phoneValid {
        error := PhoneUnverified;
        return false;
      }
      if |v.password| < 8 || |v.password| > 20 {
        error := PasswordLengthRange;
        return false;
      }
      if v.password != v.confirmPassword {
        error := PasswordMismatch;
        return false;
      }
      error := NoError;
      return true;
    }

    /**
     * `handleSignUp`: the sign-up request is made only when `validateForm` accepts the form,
     * and carries the form's fields except the confirmation.
     */
    method SignUp() returns (request: Option<SignUpRequest>)
      requires Valid()
      modifies this`error
      ensures Valid()
      ensures request.Some? <==> FormValid(values, idValid, emailValid, phoneValid)
      ensures request.Some? ==>
        request.value == SignUpRequest(values.loginId, values.email, values.password, values.username, values.mobile)
      ensures error == FormMessage(values, idValid, emailValid, phoneValid)
    {
      var ok := ValidateForm();
      if !ok {
        return None;
      }
      request := Some(SignUpRequest(values.loginId, values.email, values.password, values.username, values.mobile));
    }

    /**
     * `handleEmailValidation`. A valid format asks for a code to be sent (the result);
     * an invalid format with a failed SMTP check, or a failed call, clears `emailValid`.
     * It never sets `emailValid`.
     */
    method EmailValidation(outcome: EmailCheck) returns (sendCode: bool)
      requires Valid()
      modifies this`emailValid
      ensures Valid()
      ensures sendCode <==> outcome.EmailVerdict? && outcome.validFormat
      ensures emailValid ==
        if outcome == EmailCheckFailed || outcome == EmailVerdict(false, false) then false else old(emailValid)
    {
      sendCode := false;
      match outcome
      case EmailCheckFailed =>
        emailValid := false;
      case EmailVerdict(format, smtp) =>
        if format && smtp {
          sendCode := true;
        } else if !format && !smtp {
          emailValid := false;
        } else if format && !smtp {
          sendCode := true;
        }
    }

    /**
     * `sendVerificationCodeToEmail`: `response` is the server's code, None when the call fails.
     * A non-empty code is kept and the code field is shown; otherwise nothing changes.
     */
    method SendVerificationCode(response: Option<string>)
      requires Valid()
      modifies this`serverCode, this`verificationSent
      ensures Valid()
      ensures if response.Some? && response.value != []
        then serverCode == response.value && verificationSent
        else serverCode == old(serverCode) && verificationSent == old(verificationSent)
    {
      if response.Some? && response.value != [] {
        serverCode := response.value;
        verificationSent := true;
      }
    }

    /** `handlePhoneValidation`: `outcome` is the server's verdict, None when the call fails. */
    method PhoneValidation(outcome: Option<bool>)
      requires Valid()
      modifies this`phoneValid, this`error
      ensures Valid()
      ensures phoneValid == (outcome == Some(true))
      ensures error == if outcome == Some(true) then NoError else old(error)
    {
      if outcome == Some(true) {
        phoneValid := true;
        error := NoError;
      } else {
        phoneValid := false;
      }
    }

    /** `handleVerificationCodeChange`; the code field is rendered only once a code was sent. */
    method VerificationCodeChange(code: string)
      requires Valid() && verificationSent
      modifies this`verificationCode
      ensures Valid()
      ensures verificationCode == code
    {
      verificationCode := code;
    }

    /**
     * `handleVerificationCodeSubmit`: the e-mail is verified exactly when the typed code equals
     * the server's code; a mismatch clears the flag. Its button is rendered only once a code
     * was sent.
     */
    method VerificationCodeSubmit()
      requires Valid() && verificationSent
      modifies this`emailValid, this`error
      ensures Valid()
      ensures emailValid == (verificationCode == serverCode)
      ensures emailValid ==> serverCode != []
      ensures error == if emailValid then NoError else old(error)
    {
      if verificationCode == serverCode {
        emailValid := true;
        error := NoError;
      } else {
        emailValid := false;
      }
    }
  }

  /**
   * E-mail verification on a fresh page: a valid address asks for a code, the code arrives,
   * and typing it back verifies the e-mail; a wrong code clears the flag again.
   */
  method EmailVerificationScenario()
  {
    var form := new SignUpForm();
    var send := form.EmailValidation(EmailVerdict(true, false));
    assert send;
    form.SendVerificationCode(Some("123456"));
    assert form.verificationSent && form.serverCode == "123456";
    form.VerificationCodeChange("123456");
    form.VerificationCodeSubmit();
    assert form.emailValid;
    form.VerificationCodeChange("000000");
    form.VerificationCodeSubmit();
    assert !form.emailValid;
  }
}
