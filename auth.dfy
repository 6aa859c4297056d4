/**
 * `AuthViewModel`: the registration validators and the state machine of `register`.
 * The repository call runs in a coroutine; here `Register` returns the user it is about to
 * register, and `OnRegisterResponse` applies the outcome of that call when it completes.
 */
module Auth {
  import opened Wrappers
  import opened Text
  import opened Models

  const TERMS_MESSAGE := "Please accept terms and conditions"
  const INVALID_DATA_MESSAGE := "Please fill all required fields correctly"
  const REGISTRATION_FAILED := "Registration failed"
  const REGISTRATION_ERROR := "An error occurred during registration"
  const FEMALE := "female"

  /** `password.any { it.isUpperCase() }` and its three siblings. */
  predicate HasUpperCase(s: string) { exists i :: 0 <= i < |s| && IsUpperCase(s[i]) }
  predicate HasLowerCase(s: string) { exists i :: 0 <= i < |s| && IsLowerCase(s[i]) }
  predicate HasDigit(s: string) { exists i :: 0 <= i < |s| && IsDigit(s[i]) }
  predicate HasSpecial(s: string) { exists i :: 0 <= i < |s| && !IsLetterOrDigit(s[i]) }

  /** `s?.isNotEmpty() == true` */
  predicate Filled(s: Option<string>) { s.Some? && |s.value| > 0 }

  /** `pinCode != null && pinCode.toString().length == 6` */
  predicate PinCodeValid(pinCode: Option<int>) {
    pinCode.Some? && DecimalLength(pinCode.value) == 6
  }

  /** `isMedicalInfoValid`: nine fields present; a pregnancy status when the gender is "female". */
  predicate IsMedicalInfoValid(m: MedicalInfo) {
    && Filled(m.dob)
    && Filled(m.gender)
    && m.height.Some?
    && m.weight.Some?
    && Filled(m.bloodGroup)
    && Filled(m.allergies)
    && Filled(m.medicalConditions)
    && Filled(m.medications)
    && Filled(m.surgeries)
    && (m.gender.None? || Lowercase(m.gender.value) != FEMALE || Filled(m.pregnancyStatus))
  }

  /** The fields `isRegistrationDataValid` reads. */
  datatype Form = Form(
    user: User,
    address: Address,
    medicalInfo: MedicalInfo,
    emergencyContact: string,
    emergencyContactName: string,
    password: string,
    confirmPassword: string)

  /** `isRegistrationDataValid`, conjunct by conjunct. */
  predicate IsRegistrationDataValid(f: Form) {
    && |f.user.name| > 0
    && |f.user.email| > 0 && '@' in f.user.email
    && |f.user.phone| > 0 && Utf16Length(f.user.phone) >= 10
    && |f.user.govId| > 0 && Utf16Length(f.user.govId) >= 12
    && Utf16Length(f.password) >= 6 && f.password == f.confirmPassword
    && HasUpperCase(f.password)
    && HasLowerCase(f.password)
    && HasDigit(f.password)
    && HasSpecial(f.password)
    && |f.address.line1| > 0
    && PinCodeValid(f.address.pinCode)
    && |f.address.city| > 0
    && |f.address.state| > 0
    && |f.emergencyContact| > 0 && Utf16Length(f.emergencyContact) >= 10
    && |f.emergencyContactName| > 0
    && IsMedicalInfoValid(f.medicalInfo)
  }

  /**
   * The pin-code rule accepts exactly the six-digit numbers and, because `toString` writes
   * the sign, the negative five-digit ones.
   */
  lemma PinCodeRule(pinCode: Option<int>)
    ensures PinCodeValid(pinCode) <==>
      pinCode.Some? && (100000 <= pinCode.value <= 999999 || -99999 <= pinCode.value <= -10000)
  {
    if pinCode.Some? {
      SixCharacterNumbers(pinCode.value);
    }
  }

  /** A negative pin code such as -12345 passes; 12345 does not. */
  lemma NegativePinCodePasses()
    ensures PinCodeValid(Some(-12345))
    ensures !PinCodeValid(Some(12345))
  {
    PinCodeRule(Some(-12345));
    PinCodeRule(Some(12345));
  }

  /** With the nine fields filled, a pregnancy status is required iff the gender lowercases to "female". */
  lemma PregnancyRequiredIff(m: MedicalInfo)
    requires Filled(m.dob) && Filled(m.gender) && m.height.Some? && m.weight.Some?
    requires Filled(m.bloodGroup) && Filled(m.allergies) && Filled(m.medicalConditions)
    requires Filled(m.medications) && Filled(m.surgeries)
    ensures IsMedicalInfoValid(m) <==> (Lowercase(m.gender.value) == FEMALE ==> Filled(m.pregnancyStatus))
  {
  }

  /** "Female" and "FEMALE" both demand a pregnancy status; "male" does not. */
  lemma FemaleNeedsPregnancyStatus(m: MedicalInfo)
    ensures m.gender == Some("Female") || m.gender == Some("FEMALE") ==>
      (IsMedicalInfoValid(m) ==> Filled(m.pregnancyStatus))
    ensures m.gender == Some("male") ==> !FemaleGender(m)
  {
    if m.gender == Some("Female") {
      assert Lowercase("Female") == FEMALE;
    } else if m.gender == Some("FEMALE") {
      assert Lowercase("FEMALE") == FEMALE;
    } else if m.gender == Some("male") {
      assert Lowercase("male")[0] == 'm';
    }
  }

  /** The gender lowercases to "female". */
  predicate FemaleGender(m: MedicalInfo) {
    m.gender.Some? && Lowercase(m.gender.value) == FEMALE
  }

  /** The sealed class `RegistrationState`. */
  datatype RegistrationState = Idle | Loading | Success(user: User) | Error(message: string)

  /** The state `register` sets before launching the repository call. */
  function RegisterState(termsAccepted: bool, dataValid: bool): (s: RegistrationState)
    ensures s.Loading? <==> termsAccepted && dataValid
    ensures !termsAccepted ==> s == Error(TERMS_MESSAGE)
    ensures termsAccepted && !dataValid ==> s == Error(INVALID_DATA_MESSAGE)
  {
    if !termsAccepted then Error(TERMS_MESSAGE)
    else if !dataValid then Error(INVALID_DATA_MESSAGE)
    else Loading
  }

  /** `user.copy(address, medicalReport, emergencyContact, password)` */
  function CompleteUser(f: Form): (u: User)
    ensures u.address == f.address && u.medicalReport == f.medicalInfo
    ensures u.emergencyContact == f.emergencyContact && u.password == f.password
    ensures u.name == f.user.name && u.email == f.user.email && u.phone == f.user.phone
    ensures u.govId == f.user.govId && u.profileImage == f.user.profileImage
  {
    f.user.(address := f.address, medicalReport := f.medicalInfo,
            emergencyContact := f.emergencyContact, password := f.password)
  }

  /** The arguments of `repo.register(email, name, password)`. */
  function RegisterRequestFor(u: User): RegisterRequest {
    RegisterRequest(u.email, u.name, u.password)
  }

  /** How the repository call ended. */
  datatype RegisterOutcome =
    | Registered                          // `response.isSuccessful`
    | Rejected(message: Option<string>)   // an unsuccessful response and its `message()`
    | Threw(message: Option<string>)      // an exception and its `message`

  /** The state the coroutine sets when the call ends. */
  function StateAfterResponse(completeUser: User, outcome: RegisterOutcome): (s: RegistrationState)
    ensures s.Success? <==> outcome.Registered?
    ensures s.Success? ==> s.user == completeUser
    ensures outcome == Rejected(None) ==> s == Error(REGISTRATION_FAILED)
    ensures outcome == Threw(None) ==> s == Error(REGISTRATION_ERROR)
    ensures !outcome.Registered? && outcome.message.Some? ==> s == Error(outcome.message.value)
  {
    match outcome
    case Registered => RegistrationState.Success(completeUser)
    case Rejected(message) => Error(if message.Some? then message.value else REGISTRATION_FAILED)
    case Threw(message) => Error(if message.Some? then message.value else REGISTRATION_ERROR)
  }

  /**
   * A registration that reaches the repository sends the form's e-mail, name and password, the
   * password meets the full password rule, and a successful call ends with the completed user.
   */
  lemma RegisteredUserIsValid(f: Form)
    requires RegisterState(true, IsRegistrationDataValid(f)).Loading?
    ensures var u := CompleteUser(f);
      && Utf16Length(u.password) >= 6 && HasUpperCase(u.password) && HasLowerCase(u.password)
      && HasDigit(u.password) && HasSpecial(u.password)
      && IsMedicalInfoValid(u.medicalReport) && PinCodeValid(u.address.pinCode)
      && RegisterRequestFor(u) == RegisterRequest(f.user.email, f.user.name, f.password)
      && StateAfterResponse(u, Registered) == RegistrationState.Success(u)
  {
  }

  class AuthViewModel {
    var registrationState: RegistrationState
    var user: User
    var address: Address
    var medicalInfo: MedicalInfo
    var emergencyContact: string
    var emergencyContactName: string
    var password: string
    var confirmPassword: string
    var termsAccepted: bool

    /** The form as `isRegistrationDataValid` reads it. */
    function CurrentForm(): Form
      reads this
    {
      Form(user, address, medicalInfo, emergencyContact, emergencyContactName, password, confirmPassword)
    }

    constructor ()
      ensures registrationState == Idle
      ensures CurrentForm() == Form(DefaultUser, DefaultAddress, DefaultMedicalInfo, "", "", "", "")
      ensures !termsAccepted
    {
      registrationState := Idle;
      user := DefaultUser;
      address := DefaultAddress;
      medicalInfo := DefaultMedicalInfo;
      emergencyContact := "";
      emergencyContactName := "";
      password := "";
      confirmPassword := "";
      termsAccepted := false;
    }

    /**
     * `register`: the terms are checked first, then the data; only when both pass does the
     * state become `Loading` and the completed user go to the repository (`pending`).
     */
    method Register() returns (pending: Option<User>)
      modifies this
      ensures registrationState == RegisterState(termsAccepted, IsRegistrationDataValid(CurrentForm()))
      ensures pending.Some? <==> registrationState.Loading?
      ensures pending.Some? ==> pending.value == CompleteUser(CurrentForm())
      ensures CurrentForm() == old(CurrentForm()) && termsAccepted == old(termsAccepted)
    {
      if !termsAccepted {
        registrationState := Error(TERMS_MESSAGE);
        return None;
      }
      if !IsRegistrationDataValid(CurrentForm()) {
        registrationState := Error(INVALID_DATA_MESSAGE);
        return None;
      }
      registrationState := Loading;
      pending := Some(user.(address := address, medicalReport := medicalInfo,
                            emergencyContact := emergencyContact, password := password));
    }

    /** The end of the coroutine `register` launched for `completeUser`. */
    method OnRegisterResponse(completeUser: User, outcome: RegisterOutcome)
      modifies this
      ensures registrationState == StateAfterResponse(completeUser, outcome)
      ensures CurrentForm() == old(CurrentForm()) && termsAccepted == old(termsAccepted)
    {
      match outcome
      case Registered =>
        registrationState := RegistrationState.Success(completeUser);
      case Rejected(message) =>
        registrationState := Error(if message.Some? then message.value else REGISTRATION_FAILED);
      case Threw(message) =>
        registrationState := Error(if message.Some? then message.value else REGISTRATION_ERROR);
    }
  }
}
