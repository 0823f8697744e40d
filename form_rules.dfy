/**
 * Vocabulary shared by the three form schemas: the user role, the names of the form
 * fields a schema can reject, string length as JavaScript measures it, and the phone
 * pattern of the profile form.
 */
module FormRules {
  import opened Wrappers

  /** The two account kinds a form's `userType` selects. */
  datatype Role = Doctor | Patient

  /** The `userType` string the forms store for a role. */
  function RoleName(r: Role): string {
    match r
    case Doctor => "doctor"
    case Patient => "patient"
  }

  /** The role a `userType` string selects, if any (`.oneOf(['doctor', 'patient'])`). */
  function RoleOf(userType: string): (r: Option<Role>)
    ensures r.Some? ==> RoleName(r.value) == userType
  {
    if userType == "doctor" then Some(Doctor)
    else if userType == "patient" then Some(Patient)
    else None
  }

  /** Naming a role and reading it back gives the same role. */
  lemma RoleRoundTrip(r: Role)
    ensures RoleOf(RoleName(r)) == Some(r)
  {
  }

  /** The form fields a validator can report. */
  datatype Field =
    | Email | Password | ConfirmPassword | Name | UserType
    | Specialization | RegistrationNumber | AadhaarNumber | Phone | Address
    | Title | Description | File | PatientId | DoctorId

  /** The fields that a role makes required. */
  function RoleFields(r: Role): set<Field> {
    match r
    case Doctor => {Specialization, RegistrationNumber}
    case Patient => {AadhaarNumber}
  }

  /** Every field whose rule depends on the role. */
  const RoleDependent: set<Field> := {Specialization, RegistrationNumber, AadhaarNumber}

  /** `Yup.string().required()`: the string is present and not ''. */
  predicate Filled(s: string) { s != "" }

  /**
   * `s.length` in JavaScript: the number of UTF-16 code units, so a character outside
   * the Basic Multilingual Plane counts twice.
   */
  function Utf16Length(s: string): (n: nat)
    ensures |s| <= n <= 2 * |s|
  {
    if s == [] then 0
    else (if s[0] as int > 0xFFFF then 2 else 1) + Utf16Length(s[1..])
  }

  /** For text inside the Basic Multilingual Plane (digits among it), length is the character count. */
  lemma {:induction false} Utf16LengthOfBmp(s: string)
    requires forall i :: 0 <= i < |s| ==> s[i] as int <= 0xFFFF
    ensures Utf16Length(s) == |s|
  {
    if s != [] {
      assert forall i :: 0 <= i < |s[1..]| ==> s[1..][i] == s[i + 1];
      Utf16LengthOfBmp(s[1..]);
    }
  }

  /** `\d` in a JavaScript regular expression. */
  predicate IsDigit(c: char) { '0' <= c <= '9' }

  /** `\s` in a JavaScript regular expression. */
  predicate IsJsWhitespace(c: char) {
    c == '\t' || c == '\n' || c == '\U{B}' || c == '\U{C}' || c == '\r' || c == ' '
    || c == '\U{A0}' || c == '\U{1680}' || ('\U{2000}' <= c <= '\U{200A}')
    || c == '\U{2028}' || c == '\U{2029}' || c == '\U{202F}' || c == '\U{205F}'
    || c == '\U{3000}' || c == '\U{FEFF}'
  }

  /** The character class `[\d\s-]`. */
  predicate IsPhoneChar(c: char) { IsDigit(c) || IsJsWhitespace(c) || c == '-' }

  predicate AllPhoneChars(s: string) {
    forall i :: 0 <= i < |s| ==> IsPhoneChar(s[i])
  }

  /** The phone number after an optional leading '+'. */
  function PhoneBody(s: string): string {
    if |s| > 0 && s[0] == '+' then s[1..] else s
  }

  /** `/^\+?[\d\s-]+$/.test(s)`, decided by stripping one leading '+'. */
  predicate PhoneOk(s: string)
    ensures PhoneOk(s) ==> s != "" && s != "+"
    ensures PhoneOk(s) ==> s[0] == '+' || IsPhoneChar(s[0])
    ensures PhoneOk(s) ==> forall i :: 1 <= i < |s| ==> IsPhoneChar(s[i])
  {
    var b := PhoneBody(s);
    |b| > 0 && AllPhoneChars(b)
  }

  /**
   * The pattern's meaning as a match: `s` splits at `k` (0 or 1) into a part matched by
   * `\+?` and a non-empty part matched by `[\d\s-]+`.
   */
  ghost predicate MatchesPhonePattern(s: string) {
    exists k :: 0 <= k <= 1 && k < |s| && (k == 1 ==> s[0] == '+') && AllPhoneChars(s[k..])
  }

  /** The '+'-stripping check accepts exactly the strings the regular expression matches. */
  lemma PhoneOkMatchesPattern(s: string)
    ensures PhoneOk(s) <==> MatchesPhonePattern(s)
  {
    if PhoneOk(s) {
      var k := if |s| > 0 && s[0] == '+' then 1 else 0;
      assert s[k..] == PhoneBody(s);
    }
    if MatchesPhonePattern(s) {
      var k :| 0 <= k <= 1 && k < |s| && (k == 1 ==> s[0] == '+') && AllPhoneChars(s[k..]);
      if k == 0 {
        assert s[0..] == s;
        assert IsPhoneChar(s[0]) && s[0] != '+';
      }
      assert s[k..] == PhoneBody(s);
    }
  }

  /**
   * The pattern itself does not match the empty string. The profile form never applies
   * it to `''`, which reaches the schema as an absent value (see `MissingPhoneAllowed`).
   */
  lemma EmptyPhoneRejected()
    ensures !PhoneOk("")
  {
  }
}
