/**
 * The seller password-reset page: three fields, the phone formatting shared with the sign-up
 * page, and the submit gate.
 */
module PasswordReset {
  import opened Common
  import Phone

  /** The `id` of each input. */
  datatype Field = LoginId | Email | Mobile

  /** `values`. */
  datatype Values = Values(loginId: string, email: string, mobile: string) {
    function Get(f: Field): string {
      match f
      case LoginId => loginId
      case Email => email
      case Mobile => mobile
    }

    /** The values with field `f` replaced by `value`. */
    function With(f: Field, value: string): (r: Values)
      ensures r.Get(f) == value
      ensures forall g :: g != f ==> r.Get(g) == Get(g)
    {
      match f
      case LoginId => this.(loginId := value)
      case Email => this.(email := value)
      case Mobile => this.(mobile := value)
    }
  }

  /** What `resetPassword` is sent. */
  datatype ResetRequest = ResetRequest(loginId: string, email: string, mobile: string)

  /** The form after `handleChange`: the phone field stores the formatted number, any other the raw value. */
  function ChangeValues(v: Values, f: Field, value: string): (r: Values)
    ensures f != Mobile ==> r.Get(f) == value
    ensures forall g :: g != f ==> r.Get(g) == v.Get(g)
  {
    v.With(f, if f == Mobile then Phone.FormatPhoneNumber(value) else value)
  }

  /**
   * After an edit of the phone field it holds only digits and '-', its digits are the typed
   * digits in order, and the other fields are as they were.
   */
  lemma MobileEditKeepsDigits(v: Values, value: string)
    ensures var m := ChangeValues(v, Mobile, value).mobile;
      && (forall i :: 0 <= i < |m| ==> Phone.IsDigit(m[i]) || m[i] == '-')
      && Phone.RemoveHyphens(m) == Phone.Digits(value)
    ensures ChangeValues(v, Mobile, value).loginId == v.loginId
    ensures ChangeValues(v, Mobile, value).email == v.email
  {
    Phone.FormatOnlyDigitsAndHyphens(value);
    Phone.FormatKeepsDigits(value);
  }

  class PasswordForm {
    var values: Values

    constructor ()
      ensures values == Values([], [], [])
    {
      values := Values([], [], []);
    }

    /** `handleChange`. */
    method Change(f: Field, value: string)
      modifies this`values
      ensures values == ChangeValues(old(values), f, value)
    {
      if f == Mobile {
        var formatted := Phone.FormatPhoneNumber(value);
        values := values.With(f, formatted);
      } else {
        values := values.With(f, value);
      }
    }

    /**
     * `handleSubmit`: no request while any field is empty; otherwise one request carrying
     * all three fields.
     */
    method Submit() returns (request: Option<ResetRequest>)
      ensures request.Some? <==> values.loginId != [] && values.email != [] && values.mobile != []
      ensures request.Some? ==> request.value == ResetRequest(values.loginId, values.email, values.mobile)
    {
      if values.loginId == [] || values.email == [] || values.mobile == [] {
        return None;
      }
      request := Some(ResetRequest(values.loginId, values.email, values.mobile));
    }
  }
}
