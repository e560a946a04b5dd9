/**
 * The store registration page: the form record, the store type, the chosen image and the
 * business-registration-number check. Server answers are parameters.
 */
module StoreAdd {
  import opened Common
  import Phone

  /** The store type every new form starts with (the permanent kind). */
  const Permanent := "상시"

  /** A file picked in the image input. */
  datatype File = File(name: string)

  /**
   * `formData`: the text fields by name, as the object the page spreads into, and the
   * list of holidays.
   */
  datatype FormData = FormData(fields: map<string, string>, holidays: seq<string>) {
    /** The text under `name`; a missing key reads as the empty string. */
    function Text(name: string): string {
      if name in fields then fields[name] else ""
    }
  }

  const InitialFormData := FormData(
    map[
      "name" := "", "storeType" := Permanent, "corporateRegistrationNumber" := "",
      "openDate" := "", "closeDate" := "", "openTime" := "", "closeTime" := "",
      "notice" := "", "address" := "", "description" := ""],
    [])

  /** `checkNumberLength`: exactly ten characters, all of them digits. */
  predicate CheckNumberLength(num: string) {
    |num| == 10 && Phone.AllDigits(num)
  }

  /** Exactly ten characters, every one of them kept by the digit filter. */
  lemma {:induction false} CheckNumberLengthByDigits(num: string)
    ensures CheckNumberLength(num) <==> |num| == 10 && |Phone.Digits(num)| == 10
  {
    Phone.DigitsKeepsAllIff(num);
  }

  /** A value the cascade tests for truth: a boolean, a pending promise, or `undefined`. */
  datatype JsValue = JsBool(b: bool) | JsPromise | JsUndefined

  /** JavaScript truthiness; every promise object is truthy. */
  predicate Truthy(v: JsValue) {
    match v
    case JsBool(b) => b
    case JsPromise => true
    case JsUndefined => false
  }

  /** Which branch of the registration-number check runs. */
  datatype RegistrationOutcome = Validated | NotActive | AlreadyRegistered | BadFormat

  /**
   * The branches of `checkCorporateRegistrationNumber`, given what the duplicate check and
   * the status check evaluate to where the handler tests them.
   */
  function RegistrationCascade(num: string, duplicateCheck: JsValue, statusCheck: JsValue): (r: RegistrationOutcome)
    ensures r == BadFormat <==> !CheckNumberLength(num)
    ensures r == Validated ==> CheckNumberLength(num) && !Truthy(duplicateCheck) && Truthy(statusCheck)
  {
    if !CheckNumberLength(num) then BadFormat
    else if !Truthy(duplicateCheck) then (if Truthy(statusCheck) then Validated else NotActive)
    else AlreadyRegistered
  }

  /**
   * As written, both checks are called without `await`, so the handler tests two promises:
   * a well-formed number always lands in the "already registered" branch.
   */
  lemma UnawaitedNeverValidates(num: string)
    ensures RegistrationCascade(num, JsPromise, JsPromise)
      == if CheckNumberLength(num) then AlreadyRegistered else BadFormat
  {
  }

  /**
   * With both checks awaited, a number is validated exactly when it has ten digits, it is not
   * registered yet, and the tax-office status answer is "active" (a failed status call yields
   * `undefined`).
   */
  lemma AwaitedValidatesExactly(num: string, duplicated: bool, active: Option<bool>)
    ensures RegistrationCascade(num, JsBool(duplicated), if active.Some? then JsBool(active.value) else JsUndefined) == Validated
      <==> CheckNumberLength(num) && !duplicated && active == Some(true)
  {
  }

  /** A fresh, active, well-formed number: accepted once awaited, refused as written. */
  lemma GenuineNumberRejectedAsWritten()
    ensures CheckNumberLength("1234567890")
    ensures RegistrationCascade("1234567890", JsBool(false), JsBool(true)) == Validated
    ensures RegistrationCascade("1234567890", JsPromise, JsPromise) == AlreadyRegistered
  {
    assert Phone.AllDigits("1234567890");
  }

  class StoreForm {
    /** `selectedType`: which store-type radio button is checked. */
    var selectedType: string
    var image: Option<File>
    var formData: FormData
    /** Whether the page shows the registration number as verified. */
    var validated: bool

    /** The radio selection and the form's store type agree. */
    ghost predicate Valid()
      reads this
    {
      "storeType" in formData.fields && formData.fields["storeType"] == selectedType
    }

    constructor ()
      ensures Valid()
      ensures selectedType == Permanent && formData == InitialFormData
      ensures image == None && !validated
    {
      selectedType := Permanent;
      image := None;
      formData := InitialFormData;
      validated := false;
    }

    /**
     * `handleInputChange`: sets the named text field and leaves the others and the holidays
     * alone. No input named "holidays" exists, and the inputs named "storeType" are the radio
     * buttons, whose change goes through `TypeChange`.
     */
    method InputChange(name: string, value: string)
      requires Valid()
      requires name != "holidays" && name != "storeType"
      modifies this`formData
      ensures Valid()
      ensures formData == old(formData).(fields := old(formData).fields[name := value])
      ensures formData.Text(name) == value
      ensures forall n :: n != name ==> formData.Text(n) == old(formData).Text(n)
    {
      formData := formData.(fields := formData.fields[name := value]);
    }

    /** `handleTypeChange`: the radio selection and the form's store type take the same value. */
    method TypeChange(value: string)
      modifies this`selectedType, this`formData
      ensures Valid()
      ensures selectedType == value
      ensures formData == old(formData).(fields := old(formData).fields["storeType" := value])
    {
      selectedType := value;
      formData := formData.(fields := formData.fields["storeType" := value]);
    }

    /** `handleHolidaysChange`: replaces the holidays and nothing else. */
    method HolidaysChange(newHolidays: seq<string>)
      requires Valid()
      modifies this`formData
      ensures Valid()
      ensures formData == old(formData).(holidays := newHolidays)
    {
      formData := formData.(holidays := newHolidays);
    }

    /**
     * `handleImageChange`: `file` is the first chosen file, None when the chooser was
     * cancelled. The image is replaced only when a file was chosen. The file input has no
     * name, so the handler then also stores the input's `value` under the empty name.
     */
    method ImageChange(file: Option<File>, inputValue: string)
      requires Valid()
      modifies this`image, this`formData
      ensures Valid()
      ensures image == if file.Some? then file else old(image)
      ensures formData == old(formData).(fields := old(formData).fields["" := inputValue])
    {
      if file.Some? {
        image := file;
      }
      InputChange("", inputValue);
    }

    /** `handleImageDelete`. */
    method ImageDelete()
      requires Valid()
      modifies this`image
      ensures Valid()
      ensures image == None
    {
      image := None;
    }

    /**
     * The branches of `checkCorporateRegistrationNumber`, run on what the duplicate check and
     * the status check evaluate to where the handler tests them.
     */
    method RunRegistrationCheck(duplicateCheck: JsValue, statusCheck: JsValue) returns (outcome: RegistrationOutcome)
      requires Valid()
      modifies this`validated
      ensures Valid()
      ensures outcome == RegistrationCascade(formData.Text("corporateRegistrationNumber"), duplicateCheck, statusCheck)
      ensures validated == (outcome == Validated)
    {
      var num := formData.Text("corporateRegistrationNumber");
      if CheckNumberLength(num) {
        if !Truthy(duplicateCheck) {
          if Truthy(statusCheck) {
            outcome := Validated;
            validated := true;
          } else {
            outcome := NotActive;
            validated := false;
          }
        } else {
          outcome := AlreadyRegistered;
          validated := false;
        }
      } else {
        outcome := BadFormat;
        validated := false;
      }
    }

    /**
     * `checkCorporateRegistrationNumber` as written: neither check is awaited, so both tests
     * see a promise. A number that is not ten digits clears `validated`, and so does every
     * other number, through the "already registered" branch.
     */
    method CheckCorporateRegistrationNumber() returns (outcome: RegistrationOutcome)
      requires Valid()
      modifies this`validated
      ensures Valid()
      ensures outcome == if CheckNumberLength(formData.Text("corporateRegistrationNumber")) then AlreadyRegistered else BadFormat
      ensures !validated
    {
      outcome := RunRegistrationCheck(JsPromise, JsPromise);
      UnawaitedNeverValidates(formData.Text("corporateRegistrationNumber"));
    }

    /**
     * The check with both server calls awaited: `duplicated` is the duplicate-check answer,
     * `active` the tax-office status answer (None when that call fails).
     */
    method CheckCorporateRegistrationNumberAwaited(duplicated: bool, active: Option<bool>) returns (outcome: RegistrationOutcome)
      requires Valid()
      modifies this`validated
      ensures Valid()
      ensures validated <==> CheckNumberLength(formData.Text("corporateRegistrationNumber")) && !duplicated && active == Some(true)
      ensures outcome == RegistrationCascade(formData.Text("corporateRegistrationNumber"), JsBool(duplicated),
                                             if active.Some? then JsBool(active.value) else JsUndefined)
    {
      var status := if active.Some? then JsBool(active.value) else JsUndefined;
      outcome := RunRegistrationCheck(JsBool(duplicated), status);
      AwaitedValidatesExactly(formData.Text("corporateRegistrationNumber"), duplicated, active);
    }
  }
}
