/**
 * The registration page: the form schema as a total validator that returns the set of
 * failing fields, and the three-step wizard with its guarded Next and Back buttons.
 * The e-mail syntax check is the library's own and is a parameter, `isEmail`.
 */
module Register {
  import opened Wrappers
  import opened FormRules

  /** The registration form's values; every input starts as ''. */
  datatype RegisterForm = RegisterForm(
    email: string,
    password: string,
    confirmPassword: string,
    name: string,
    userType: string,
    specialization: string,
    registrationNumber: string,
    aadhaarNumber: string,
    phone: string,
    address: string)

  const InitialRegisterForm := RegisterForm("", "", "", "", "", "", "", "", "", "")

  /** The fields the registration schema names (phone and address have no rule). */
  const RegisterSchema: set<Field> := {Email, Password, ConfirmPassword, Name, UserType} + RoleDependent

  /** The rules that apply whatever the role. */
  function BaseErrors(v: RegisterForm, isEmail: string -> bool): set<Field> {
    (if !Filled(v.email) || !isEmail(v.email) then {Email} else {})
    + (if Utf16Length(v.password) < 6 then {Password} else {})
    + (if !Filled(v.confirmPassword) || v.confirmPassword != v.password then {ConfirmPassword} else {})
    + (if !Filled(v.name) then {Name} else {})
    + (if RoleOf(v.userType).None? then {UserType} else {})
  }

  /** The rules that the `.when('userType', ...)` clauses switch on. */
  function RoleErrors(v: RegisterForm): set<Field> {
    match RoleOf(v.userType)
    case None => {}
    case Some(Doctor) =>
      (if !Filled(v.specialization) then {Specialization} else {})
      + (if !Filled(v.registrationNumber) then {RegistrationNumber} else {})
    case Some(Patient) =>
      if Utf16Length(v.aadhaarNumber) != 12 then {AadhaarNumber} else {}
  }

  /** `validationSchema.validate(values)`: the fields that fail. */
  function RegisterErrors(v: RegisterForm, isEmail: string -> bool): (errs: set<Field>)
    ensures errs <= RegisterSchema
    ensures Email in errs <==> v.email == "" || !isEmail(v.email)
    ensures Password in errs <==> Utf16Length(v.password) < 6
    ensures ConfirmPassword in errs <==> v.confirmPassword == "" || v.confirmPassword != v.password
    ensures Name in errs <==> v.name == ""
    ensures UserType in errs <==> v.userType != "doctor" && v.userType != "patient"
    ensures Specialization in errs <==> v.userType == "doctor" && v.specialization == ""
    ensures RegistrationNumber in errs <==> v.userType == "doctor" && v.registrationNumber == ""
    ensures AadhaarNumber in errs <==> v.userType == "patient" && Utf16Length(v.aadhaarNumber) != 12
  {
    BaseErrors(v, isEmail) + RoleErrors(v)
  }

  /** The role-dependent failures are always among the fields of the selected role. */
  lemma RoleErrorsWithinRole(v: RegisterForm, isEmail: string -> bool)
    ensures RoleOf(v.userType).None? ==> RegisterErrors(v, isEmail) * RoleDependent == {}
    ensures RoleOf(v.userType).Some? ==>
              RegisterErrors(v, isEmail) * RoleDependent <= RoleFields(RoleOf(v.userType).value)
  {
    var errs := RegisterErrors(v, isEmail);
    assert errs * RoleDependent == RoleErrors(v) * RoleDependent;
  }

  /** The untouched form fails on exactly the always-required fields. */
  lemma InitialFormErrors(isEmail: string -> bool)
    ensures RegisterErrors(InitialRegisterForm, isEmail) == {Email, Password, ConfirmPassword, Name, UserType}
  {
  }

  /**
   * An accepted patient has an Aadhaar number of twelve UTF-16 units; for text inside the
   * Basic Multilingual Plane, such as digits, that is exactly twelve characters.
   */
  lemma AcceptedAadhaarLength(v: RegisterForm, isEmail: string -> bool)
    requires RegisterErrors(v, isEmail) == {} && v.userType == "patient"
    requires forall i :: 0 <= i < |v.aadhaarNumber| ==> v.aadhaarNumber[i] as int <= 0xFFFF
    ensures |v.aadhaarNumber| == 12
  {
    assert AadhaarNumber !in RegisterErrors(v, isEmail);
    Utf16LengthOfBmp(v.aadhaarNumber);
  }

  /**
   * Only the length is checked: replacing the Aadhaar number by any text of the same
   * UTF-16 length, digits or not, changes no verdict.
   */
  lemma AadhaarContentIgnored(v: RegisterForm, other: string, isEmail: string -> bool)
    requires Utf16Length(other) == Utf16Length(v.aadhaarNumber)
    ensures RegisterErrors(v.(aadhaarNumber := other), isEmail) == RegisterErrors(v, isEmail)
  {
    assert BaseErrors(v.(aadhaarNumber := other), isEmail) == BaseErrors(v, isEmail);
  }

  // ---- the wizard ----

  const Steps: seq<string> := ["Account Type", "Basic Information", "Additional Details"]
  const LastStep: int := |Steps| - 1

  /** The Next button's `disabled` expression. */
  predicate NextDisabled(step: int, v: RegisterForm)
    ensures NextDisabled(step, v) ==> step == 0 || step == 1
    ensures step == 0 ==> (NextDisabled(step, v) <==> v.userType == "")
    ensures step == 1 ==> (NextDisabled(step, v) <==> v.email == "" || v.password == "" || v.name == "")
  {
    (step == 0 && !Filled(v.userType))
    || (step == 1 && (!Filled(v.email) || !Filled(v.password) || !Filled(v.name)))
  }

  /** Values the schema accepts never hold the wizard back. */
  lemma AcceptedFormOpensEveryStep(v: RegisterForm, isEmail: string -> bool)
    requires RegisterErrors(v, isEmail) == {}
    ensures forall step :: 0 <= step < LastStep ==> !NextDisabled(step, v)
  {
    assert Password !in RegisterErrors(v, isEmail);
    assert v.password != "";
  }

  class RegisterWizard {
    var activeStep: int

    /** The step is an index into `Steps`. */
    ghost predicate Valid()
      reads this
    {
      0 <= activeStep <= LastStep
    }

    constructor ()
      ensures Valid() && activeStep == 0
    {
      activeStep := 0;
    }

    /**
     * Next is shown before the last step and acts when it is not disabled. Next and
     * Register are unkeyed siblings in the same slot, so the DOM button is reused: the
     * click that moves from step 1 to the last step finds it already a submit button,
     * and the same click submits the form, dispatching the registration when not
     * `loading` and the schema accepts the values.
     */
    method PressNext(v: RegisterForm, loading: bool, isEmail: string -> bool) returns (dispatched: bool)
      requires Valid()
      modifies this
      ensures Valid()
      ensures activeStep == if old(activeStep) != LastStep && !NextDisabled(old(activeStep), v)
                            then old(activeStep) + 1 else old(activeStep)
      ensures dispatched <==> old(activeStep) == LastStep - 1 && activeStep == LastStep
                              && !loading && RegisterErrors(v, isEmail) == {}
    {
      dispatched := false;
      if activeStep != LastStep && !NextDisabled(activeStep, v) {
        activeStep := activeStep + 1;
        dispatched := activeStep == LastStep && !loading && RegisterErrors(v, isEmail) == {};
      }
    }

    /** Back is shown on every step but the first. */
    method PressBack()
      requires Valid()
      modifies this
      ensures Valid()
      ensures activeStep == if old(activeStep) != 0 then old(activeStep) - 1 else old(activeStep)
    {
      if activeStep != 0 {
        activeStep := activeStep - 1;
      }
    }

    /**
     * The Register button: shown on the last step, disabled while `loading`; the form
     * submits, and the registration is dispatched, only when the schema accepts the values.
     */
    method PressRegister(v: RegisterForm, loading: bool, isEmail: string -> bool) returns (dispatched: bool)
      requires Valid()
      ensures dispatched <==> activeStep == LastStep && !loading && RegisterErrors(v, isEmail) == {}
    {
      dispatched := activeStep == LastStep && !loading && RegisterErrors(v, isEmail) == {};
    }
  }

  /**
   * From a fresh wizard, accepted values are registered by the second press of Next,
   * which lands on the last step and submits the form with the same click.
   */
  method CompleteRegistration(v: RegisterForm, isEmail: string -> bool) returns (dispatched: bool)
    requires RegisterErrors(v, isEmail) == {}
    ensures dispatched
  {
    var wizard := new RegisterWizard();
    AcceptedFormOpensEveryStep(v, isEmail);
    var first := wizard.PressNext(v, false, isEmail);
    dispatched := wizard.PressNext(v, false, isEmail);
  }
}
