/**
 * The profile page: the edit form's schema as a total validator, the form's initial
 * values derived from the signed-in user, and the `isEditing` flag.  The e-mail syntax
 * check is the library's own and is a parameter, `isEmail`.
 */
module Profile {
  import opened Wrappers
  import opened FormRules
  import opened ProfileSlice
  import opened Register

  /** The profile form's values. */
  datatype ProfileForm = ProfileForm(
    name: string,
    email: string,
    phone: string,
    address: string,
    specialization: string,
    registrationNumber: string,
    aadhaarNumber: string,
    userType: string)

  const EmptyProfileForm := ProfileForm("", "", "", "", "", "", "", "")

  /** `field || ''`: a missing value (or '') becomes ''. */
  function Text(field: Option<string>): string {
    field.GetOr("")
  }

  /** `initialValues`: each field is the user's value when present, '' otherwise. */
  function InitialProfileValues(user: Option<User>): (v: ProfileForm)
    ensures user.None? ==> v == EmptyProfileForm
  {
    match user
    case None => EmptyProfileForm
    case Some(u) =>
      ProfileForm(Text(u.name), Text(u.email), Text(u.phone), Text(u.address),
                  Text(u.specialization), Text(u.registrationNumber),
                  Text(u.aadhaarNumber), Text(u.userType))
  }

  /** `shown` is what the form displays for a stored field: the value itself, or '' when missing. */
  predicate Shows(field: Option<string>, shown: string) {
    (field.Some? ==> shown == field.value) && (field.None? ==> shown == "")
  }

  /** Every field of the form starts as the user's stored value, or '' when it is missing. */
  lemma InitialValuesShowUser(u: User)
    ensures var v := InitialProfileValues(Some(u));
      && Shows(u.name, v.name) && Shows(u.email, v.email) && Shows(u.phone, v.phone)
      && Shows(u.address, v.address) && Shows(u.specialization, v.specialization)
      && Shows(u.registrationNumber, v.registrationNumber)
      && Shows(u.aadhaarNumber, v.aadhaarNumber) && Shows(u.userType, v.userType)
  {
  }

  /**
   * `validationSchema.validate(values)` as the form runs it: the fields that fail.  The
   * form library hands '' to the schema as `undefined`, and the phone pattern test passes
   * an absent value, so only a non-empty phone number is matched against the pattern.
   * (For every other field of the three forms '' and `undefined` get the same verdict:
   * each is either required or has no rule.)
   */
  function ProfileErrors(v: ProfileForm, isEmail: string -> bool): (errs: set<Field>)
    ensures errs <= {Name, Email, Phone} + RoleDependent
    ensures Name in errs <==> v.name == ""
    ensures Email in errs <==> v.email == "" || !isEmail(v.email)
    ensures Phone in errs <==> v.phone != "" && !MatchesPhonePattern(v.phone)
    ensures Specialization in errs <==> v.userType == "doctor" && v.specialization == ""
    ensures RegistrationNumber in errs <==> v.userType == "doctor" && v.registrationNumber == ""
    ensures AadhaarNumber in errs <==> v.userType == "patient" && v.aadhaarNumber == ""
  {
    PhoneOkMatchesPattern(v.phone);
    (if !Filled(v.name) then {Name} else {})
    + (if !Filled(v.email) || !isEmail(v.email) then {Email} else {})
    + (if v.phone != "" && !PhoneOk(v.phone) then {Phone} else {})
    + match RoleOf(v.userType)
      case None => {}
      case Some(Doctor) =>
        (if !Filled(v.specialization) then {Specialization} else {})
        + (if !Filled(v.registrationNumber) then {RegistrationNumber} else {})
      case Some(Patient) =>
        if !Filled(v.aadhaarNumber) then {AadhaarNumber} else {}
  }

  /**
   * A user without a phone number starts with no phone error, although '' itself does not
   * match the phone pattern: the empty field reaches the schema as an absent value.
   */
  lemma MissingPhoneAllowed(u: User, isEmail: string -> bool)
    requires u.phone.None? || u.phone == Some("")
    ensures Phone !in ProfileErrors(InitialProfileValues(Some(u)), isEmail)
    ensures !MatchesPhonePattern(InitialProfileValues(Some(u)).phone)
  {
    EmptyPhoneRejected();
    PhoneOkMatchesPattern("");
  }

  // ---- relation to the registration schema ----

  /** The profile fields of a registration form. */
  function ProfileFormOf(r: RegisterForm): ProfileForm {
    ProfileForm(r.name, r.email, r.phone, r.address, r.specialization,
                r.registrationNumber, r.aadhaarNumber, r.userType)
  }

  /** A user record holding every value of a registration form. */
  function UserOf(r: RegisterForm): User {
    User(Some(r.name), Some(r.email), Some(r.phone), Some(r.address), Some(r.specialization),
         Some(r.registrationNumber), Some(r.aadhaarNumber), Some(r.userType))
  }

  /** The profile form of a user stored from a registration shows that registration. */
  lemma InitialValuesOfRegisteredUser(r: RegisterForm)
    ensures InitialProfileValues(Some(UserOf(r))) == ProfileFormOf(r)
  {
  }

  /** Apart from the phone rule, every profile failure is also a registration failure. */
  lemma RegistrationStricterThanProfile(r: RegisterForm, isEmail: string -> bool)
    ensures ProfileErrors(ProfileFormOf(r), isEmail) - {Phone} <= RegisterErrors(r, isEmail)
  {
    var p := ProfileErrors(ProfileFormOf(r), isEmail);
    var q := RegisterErrors(r, isEmail);
    forall f | f in p - {Phone} ensures f in q {
      if f == AadhaarNumber {
        assert Utf16Length(r.aadhaarNumber) == 0;
      }
    }
  }

  /** The Aadhaar rule is looser on the profile form: any non-empty value passes there. */
  lemma ProfileAcceptsAnyAadhaar(r: RegisterForm, isEmail: string -> bool)
    requires r.userType == "patient" && r.aadhaarNumber != "" && Utf16Length(r.aadhaarNumber) != 12
    ensures AadhaarNumber in RegisterErrors(r, isEmail)
    ensures AadhaarNumber !in ProfileErrors(ProfileFormOf(r), isEmail)
  {
  }

  /** A user registered with accepted values and an empty or well-formed phone can save the profile unchanged. */
  lemma AcceptedRegistrationSavesProfile(r: RegisterForm, isEmail: string -> bool)
    requires RegisterErrors(r, isEmail) == {} && (r.phone == "" || PhoneOk(r.phone))
    ensures ProfileErrors(InitialProfileValues(Some(UserOf(r))), isEmail) == {}
  {
    InitialValuesOfRegisteredUser(r);
    RegistrationStricterThanProfile(r, isEmail);
    PhoneOkMatchesPattern(r.phone);
  }

  // ---- the page's edit state ----

  class ProfilePage {
    var isEditing: bool

    constructor ()
      ensures !isEditing
    {
      isEditing := false;
    }

    /** The Edit Profile / Cancel Edit button. */
    method ToggleEdit()
      modifies this
      ensures isEditing == !old(isEditing)
    {
      isEditing := !isEditing;
    }

    /**
     * Save Changes: shown only while editing and disabled while `loading`; the form's
     * `onSubmit` runs only when the schema accepts the values, and then only leaves edit
     * mode (the profile update dispatch is commented out, so no container changes).
     */
    method Submit(v: ProfileForm, loading: bool, isEmail: string -> bool)
      modifies this
      ensures isEditing == (old(isEditing) && (loading || ProfileErrors(v, isEmail) != {}))
    {
      if isEditing && !loading && ProfileErrors(v, isEmail) == {} {
        isEditing := false;
      }
    }
  }
}
