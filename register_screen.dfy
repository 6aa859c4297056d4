/**
 * The four-step registration form of `RegisterScreen.kt`: the per-step validator, the password
 * requirement flags, the pin-code and emergency-phone input filters, the complete button's
 * guard and the `currentStep` navigation.
 */
module RegisterScreen {
  import opened Wrappers
  import opened Text
  import opened Models
  import opened Auth

  const TOTAL_STEPS := 4

  /** `isStepValid(step, user, password, confirmPassword, address)` */
  predicate IsStepValid(step: int, user: User, password: string, confirmPassword: string, address: Address) {
    if step == 1 then
      && |user.name| > 0
      && |user.email| > 0 && '@' in user.email
      && |user.phone| > 0 && Utf16Length(user.phone) >= 10
      && |user.govId| > 0 && Utf16Length(user.govId) >= 12
      && Utf16Length(password) >= 6 && password == confirmPassword
      && HasUpperCase(password)
      && HasLowerCase(password)
      && HasDigit(password)
      && HasSpecial(password)
    else if step == 2 then
      && |address.line1| > 0
      && PinCodeValid(address.pinCode)
      && |address.city| > 0
      && |address.state| > 0
    else
      true
  }

  /** The `met` flags `PasswordRequirements` shows, in display order. */
  function RequirementFlags(password: string): (flags: seq<bool>)
    ensures |flags| == 5
  {
    [Utf16Length(password) >= 6, HasUpperCase(password), HasLowerCase(password), HasDigit(password), HasSpecial(password)]
  }

  predicate AllRequirementsMet(password: string) {
    forall i :: 0 <= i < |RequirementFlags(password)| ==> RequirementFlags(password)[i]
  }

  /** Steps 3, 4 and any other number are always valid. */
  lemma OtherStepsAlwaysValid(step: int, user: User, password: string, confirmPassword: string, address: Address)
    requires step != 1 && step != 2
    ensures IsStepValid(step, user, password, confirmPassword, address)
  {
  }

  /**
   * The five flags all hold iff the password meets the step-1 password rule without the
   * confirmation check: with matching personal fields and confirmation, step 1 is valid
   * exactly when every requirement is shown as met.
   */
  lemma RequirementsMatchStepOne(user: User, password: string, address: Address)
    requires |user.name| > 0 && '@' in user.email && Utf16Length(user.phone) >= 10 && Utf16Length(user.govId) >= 12
    ensures IsStepValid(1, user, password, password, address) <==> AllRequirementsMet(password)
  {
    var flags := RequirementFlags(password);
    if AllRequirementsMet(password) {
      assert flags[0] && flags[1] && flags[2] && flags[3] && flags[4];
    }
  }

  /** "Ab1!" followed by an emoji meets all five requirements: its Kotlin `length` is 6. */
  lemma EmojiPasswordMeetsRequirements()
    ensures AllRequirementsMet("Ab1!\U{1F600}")
  {
    var p := "Ab1!\U{1F600}";
    SupplementaryCountsTwice();
    assert IsUpperCase(p[0]) && IsLowerCase(p[1]) && IsDigit(p[2]) && !IsLetterOrDigit(p[3]);
    var flags := RequirementFlags(p);
    assert flags[0] && flags[1] && flags[2] && flags[3] && flags[4];
  }

  /** A valid step 1 shows every requirement as met. */
  lemma StepOneMeetsRequirements(user: User, password: string, confirmPassword: string, address: Address)
    requires IsStepValid(1, user, password, confirmPassword, address)
    ensures AllRequirementsMet(password)
  {
  }

  /**
   * Full registration validity is exactly steps 1 and 2 plus the emergency contact and the
   * medical information: a form `register` accepts passes every step of this screen.
   */
  lemma StepsCoverRegistration(f: Form)
    ensures IsRegistrationDataValid(f) <==>
      && IsStepValid(1, f.user, f.password, f.confirmPassword, f.address)
      && IsStepValid(2, f.user, f.password, f.confirmPassword, f.address)
      && |f.emergencyContact| > 0 && Utf16Length(f.emergencyContact) >= 10
      && |f.emergencyContactName| > 0
      && IsMedicalInfoValid(f.medicalInfo)
  {
  }

  /** The pin-code field's `onValueChange`: at most six digits, parsed with `toIntOrNull`. */
  function PinCodeInput(address: Address, text: string): (a: Address)
    ensures |text| <= 6 && AllDigits(text) ==> a.pinCode == DigitsToIntOrNull(text)
    ensures !(|text| <= 6 && AllDigits(text)) ==> a == address
    ensures a == address.(pinCode := a.pinCode)
  {
    if |text| <= 6 && AllDigits(text) then address.(pinCode := DigitsToIntOrNull(text)) else address
  }

  /** Through the field the pin code is never negative: only digits are accepted. */
  lemma PinInputNeverNegative(address: Address, text: string)
    requires address.pinCode.None? || address.pinCode.value >= 0
    ensures PinCodeInput(address, text).pinCode.None? || PinCodeInput(address, text).pinCode.value >= 0
  {
  }

  /**
   * An accepted pin input passes the step-2 pin check iff it has six digits and does not
   * start with '0': "012345" is accepted by the field and parsed to 12345, which has five.
   */
  lemma {:induction false} PinInputPassesIff(address: Address, text: string)
    requires |text| <= 6 && AllDigits(text)
    ensures PinCodeValid(PinCodeInput(address, text).pinCode) <==> |text| == 6 && text[0] != '0'
  {
    if text != [] {
      var v := DigitsValue(text);
      ShortDigitsParse(text);
      DigitsValueBelow(text);
      DigitCountIs(v, 6);
      assert Pow10(5) == 100000 && Pow10(6) == 1000000;
      if |text| < 6 {
        Pow10Monotone(|text|, 5);
      } else {
        LeadingDigitBound(text);
      }
    }
  }

  /** A six-digit input with a leading zero fails step 2. */
  lemma LeadingZeroPinFailsStepTwo(user: User, password: string, confirmPassword: string, address: Address, text: string)
    requires |text| == 6 && AllDigits(text) && text[0] == '0'
    ensures !IsStepValid(2, user, password, confirmPassword, PinCodeInput(address, text))
  {
    PinInputPassesIff(address, text);
  }

  /** The emergency-phone field's `onValueChange`: at most ten digits, else the value is kept. */
  function EmergencyPhoneInput(current: string, text: string): (phone: string)
    ensures phone == text <==> (|text| <= 10 && AllDigits(text)) || text == current
    ensures phone == text || phone == current
  {
    if |text| <= 10 && AllDigits(text) then text else current
  }

  /** A phone entered through the field is at most ten digits, so a valid one has exactly ten. */
  lemma PhoneInputKeepsShape(current: string, text: string)
    requires |current| <= 10 && AllDigits(current)
    ensures var phone := EmergencyPhoneInput(current, text);
      && |phone| <= 10 && AllDigits(phone) && Utf16Length(phone) == |phone|
      && (Utf16Length(phone) >= 10 ==> |phone| == 10)
  {
    DigitsLength(EmergencyPhoneInput(current, text));
  }

  /** The complete button is enabled iff the medical information is valid, terms accepted and not loading. */
  predicate CompleteRegistrationEnabled(medicalInfo: MedicalInfo, termsAccepted: bool, state: RegistrationState) {
    IsMedicalInfoValid(medicalInfo) && termsAccepted && !state.Loading?
  }

  /**
   * The button's guard reads only the medical information: once it is enabled, `register`
   * reaches `Loading` exactly when steps 1 and 2 and the emergency contact are valid as well.
   */
  lemma EnabledButtonStillChecksForm(f: Form, state: RegistrationState)
    requires CompleteRegistrationEnabled(f.medicalInfo, true, state)
    ensures RegisterState(true, IsRegistrationDataValid(f)).Loading? <==>
      && IsStepValid(1, f.user, f.password, f.confirmPassword, f.address)
      && IsStepValid(2, f.user, f.password, f.confirmPassword, f.address)
      && Utf16Length(f.emergencyContact) >= 10 && |f.emergencyContactName| > 0
  {
    StepsCoverRegistration(f);
  }

  /** An enabled button with a too-short password still ends in the invalid-data error. */
  lemma ShortPasswordRejected(f: Form)
    requires IsMedicalInfoValid(f.medicalInfo) && Utf16Length(f.password) < 6
    ensures CompleteRegistrationEnabled(f.medicalInfo, true, Idle)
    ensures RegisterState(true, IsRegistrationDataValid(f)) == Error(INVALID_DATA_MESSAGE)
  {
  }

  /** The `currentStep` state of the form and its two buttons. */
  class RegisterSteps {
    var currentStep: int

    ghost predicate Valid()
      reads this
    {
      1 <= currentStep <= TOTAL_STEPS
    }

    constructor ()
      ensures Valid() && currentStep == 1
    {
      currentStep := 1;
    }

    /** The Back button (top bar or bottom row): shown only after step 1. */
    method Back() returns (moved: bool)
      requires Valid()
      modifies this
      ensures Valid()
      ensures moved <==> old(currentStep) > 1
      ensures currentStep == if moved then old(currentStep) - 1 else old(currentStep)
    {
      moved := currentStep > 1;
      if moved {
        currentStep := currentStep - 1;
      }
    }

    /** The Next button: shown before the last step, enabled only while the current step is valid. */
    method Next(user: User, password: string, confirmPassword: string, address: Address) returns (moved: bool)
      requires Valid()
      modifies this
      ensures Valid()
      ensures moved <==> old(currentStep) < TOTAL_STEPS && IsStepValid(old(currentStep), user, password, confirmPassword, address)
      ensures currentStep == if moved then old(currentStep) + 1 else old(currentStep)
    {
      moved := currentStep < TOTAL_STEPS && IsStepValid(currentStep, user, password, confirmPassword, address);
      if moved {
        currentStep := currentStep + 1;
      }
    }
  }
}
