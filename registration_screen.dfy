/**
 * The six-screen onboarding wizard of `RegistrationScreen.kt` (welcome, account, personal,
 * medical, address, summary): its `currentStep`, the OTP flags, the loading lock, and the
 * profile it hands to `PreferencesManager.saveUserData`. Each text field is shown, and can be
 * edited, only on its own step.
 */
module Registration {
  import opened Text
  import opened Preferences

  const LAST_STEP := 5
  const NOT_APPLICABLE := "Not Applicable"
  const PREGNANT := "Pregnant"
  const OTP_LENGTH := 6

  /** The wizard's text fields. */
  datatype TextField =
    | NameField | EmailField | OtpField | PasswordField
    | DobField | PhoneField | HeightField | WeightField
    | AllergiesField | MedicationsField | AddressField

  /** The step on which a text field is shown. */
  function StepOf(field: TextField): nat {
    match field
    case NameField | EmailField | OtpField | PasswordField => 1
    case DobField | PhoneField | HeightField | WeightField => 2
    case AllergiesField | MedicationsField => 3
    case AddressField => 4
  }

  /** What the user has entered so far. */
  datatype Entries = Entries(
    name: string, email: string, otp: string, password: string,
    dob: string, phone: string, height: string, weight: string,
    allergies: string, pregnancyStatus: string, medications: string, address: string)

  const EmptyEntries := Entries("", "", "", "", "", "", "", "", "", NOT_APPLICABLE, "", "")

  function Get(e: Entries, field: TextField): string {
    match field
    case NameField => e.name
    case EmailField => e.email
    case OtpField => e.otp
    case PasswordField => e.password
    case DobField => e.dob
    case PhoneField => e.phone
    case HeightField => e.height
    case WeightField => e.weight
    case AllergiesField => e.allergies
    case MedicationsField => e.medications
    case AddressField => e.address
  }

  /** A text field's `onValueChange = { field = it }`. */
  function Set(e: Entries, field: TextField, value: string): (r: Entries)
    ensures Get(r, field) == value
    ensures forall g :: g != field ==> Get(r, g) == Get(e, g)
    ensures r.pregnancyStatus == e.pregnancyStatus
  {
    match field
    case NameField => e.(name := value)
    case EmailField => e.(email := value)
    case OtpField => e.(otp := value)
    case PasswordField => e.(password := value)
    case DobField => e.(dob := value)
    case PhoneField => e.(phone := value)
    case HeightField => e.(height := value)
    case WeightField => e.(weight := value)
    case AllergiesField => e.(allergies := value)
    case MedicationsField => e.(medications := value)
    case AddressField => e.(address := value)
  }

  /** The wizard's state variables. */
  datatype Wizard = Wizard(step: int, entries: Entries, otpSent: bool, emailVerified: bool, isLoading: bool)

  const InitialWizard := Wizard(0, EmptyEntries, false, false, false)

  /** The user's interactions with the wizard. */
  datatype Action =
    | Next                         // "Let's Get Started" on step 0, "Next" on steps 1 to 4
    | Back                         // "Back" on steps 1 to 4, "Back to Edit" on step 5
    | SendOtp
    | VerifyOtp
    | Edit(field: TextField, value: string)
    | SelectPregnancy(pregnant: bool)
    | Complete                     // "Complete Registration" on step 5

  /** Whether the forward button of the current step is shown and enabled. */
  predicate NextEnabled(w: Wizard) {
    match w.step
    case 0 => true
    case 1 => |w.entries.name| > 0 && w.emailVerified && Utf16Length(w.entries.password) >= 6
    case 2 => |w.entries.dob| > 0 && |w.entries.phone| > 0
    case 3 => true
    case 4 => |w.entries.address| > 0
    case _ => false
  }

  /** Whether a back button is shown and enabled. */
  predicate BackEnabled(w: Wizard) {
    (1 <= w.step <= 4) || (w.step == LAST_STEP && !w.isLoading)
  }

  /** "Send OTP" is shown while no OTP was sent and the e-mail is unverified, enabled for an e-mail with '@'. */
  predicate SendOtpEnabled(w: Wizard) {
    w.step == 1 && !w.otpSent && !w.emailVerified && |w.entries.email| > 0 && '@' in w.entries.email
  }

  /** "Verify OTP" is shown once an OTP was sent and until verification, enabled for six characters. */
  predicate VerifyOtpEnabled(w: Wizard) {
    w.step == 1 && w.otpSent && !w.emailVerified && Utf16Length(w.entries.otp) == OTP_LENGTH
  }

  /** A text field is on screen: its own step, and for the OTP field only while verification is pending. */
  predicate FieldShown(w: Wizard, field: TextField) {
    w.step == StepOf(field) && (field == OtpField ==> w.otpSent && !w.emailVerified)
  }

  predicate CompleteEnabled(w: Wizard) {
    w.step == LAST_STEP && !w.isLoading
  }

  /** Whether an action has any effect: its control is on screen and enabled. */
  predicate Enabled(w: Wizard, a: Action) {
    match a
    case Next => NextEnabled(w)
    case Back => BackEnabled(w)
    case SendOtp => SendOtpEnabled(w)
    case VerifyOtp => VerifyOtpEnabled(w)
    case Edit(field, _) => FieldShown(w, field)
    case SelectPregnancy(_) => w.step == 3
    case Complete => CompleteEnabled(w)
  }

  /** The wizard after one action; a control that is hidden or disabled changes nothing. */
  function Apply(w: Wizard, a: Action): Wizard {
    if !Enabled(w, a) then w
    else match a
      case Next => w.(step := w.step + 1)
      case Back => w.(step := w.step - 1)
      case SendOtp => w.(otpSent := true)
      case VerifyOtp => w.(emailVerified := true)
      case Edit(field, value) => w.(entries := Set(w.entries, field, value))
      case SelectPregnancy(pregnant) =>
        w.(entries := w.entries.(pregnancyStatus := if pregnant then PREGNANT else NOT_APPLICABLE))
      case Complete => w.(isLoading := true)
  }

  /**
   * The wizard's invariant: the step is in 0..5; verification implies an OTP was sent; loading
   * happens only on the summary; and every step behind the user had its requirements met,
   * which stay met because a field can be edited only on its own step.
   */
  ghost predicate Consistent(w: Wizard) {
    && 0 <= w.step <= LAST_STEP
    && (w.emailVerified ==> w.otpSent)
    && (w.isLoading ==> w.step == LAST_STEP)
    && (w.step >= 2 ==> |w.entries.name| > 0 && w.emailVerified && Utf16Length(w.entries.password) >= 6)
    && (w.step >= 3 ==> |w.entries.dob| > 0 && |w.entries.phone| > 0)
    && (w.step == LAST_STEP ==> |w.entries.address| > 0)
  }

  lemma InitialConsistent()
    ensures Consistent(InitialWizard)
  {
  }

  /**
   * Every action keeps the invariant, moves the step by at most one, never clears `otpSent`
   * or `emailVerified`, and once loading nothing changes any more.
   */
  lemma ApplyKeepsConsistent(w: Wizard, a: Action)
    requires Consistent(w)
    ensures var w' := Apply(w, a);
      && Consistent(w')
      && -1 <= w'.step - w.step <= 1
      && (w.otpSent ==> w'.otpSent)
      && (w.emailVerified ==> w'.emailVerified)
      && (w.isLoading ==> w' == w)
  {
  }

  /** `emailVerified` becomes true only through Verify with a six-character OTP. */
  lemma VerificationNeedsOtp(w: Wizard, a: Action)
    requires !w.emailVerified && Apply(w, a).emailVerified
    ensures a == VerifyOtp && w.otpSent && Utf16Length(w.entries.otp) == OTP_LENGTH && w.step == 1
  {
  }

  /**
   * Editing the e-mail after it was verified keeps it verified: the flag belongs to no
   * particular address.
   */
  lemma EmailEditKeepsVerification(w: Wizard, email: string)
    requires w.step == 1 && w.emailVerified
    ensures Apply(w, Edit(EmailField, email)).entries.email == email
    ensures Apply(w, Edit(EmailField, email)).emailVerified
  {
  }

  /** The wizard after a sequence of actions. */
  function Run(w: Wizard, actions: seq<Action>): Wizard {
    if actions == [] then w else Apply(Run(w, actions[..|actions| - 1]), actions[|actions| - 1])
  }

  lemma {:induction false} RunKeepsConsistent(w: Wizard, actions: seq<Action>)
    requires Consistent(w)
    ensures Consistent(Run(w, actions))
  {
    if actions != [] {
      RunKeepsConsistent(w, actions[..|actions| - 1]);
      ApplyKeepsConsistent(Run(w, actions[..|actions| - 1]), actions[|actions| - 1]);
    }
  }

  /** Reaching a step takes at least that many actions: the step moves one at a time. */
  lemma {:induction false} StepsAreAdjacent(w: Wizard, actions: seq<Action>)
    requires Consistent(w)
    ensures Run(w, actions).step - w.step <= |actions|
  {
    if actions != [] {
      var init := actions[..|actions| - 1];
      StepsAreAdjacent(w, init);
      RunKeepsConsistent(w, init);
      ApplyKeepsConsistent(Run(w, init), actions[|actions| - 1]);
    }
  }

  /** The ten values `saveUserData` receives: everything collected except the OTP and the password. */
  function Collected(e: Entries): UserData {
    UserData(e.name, e.email, e.phone, e.dob, e.height, e.weight, e.allergies,
             e.pregnancyStatus, e.medications, e.address)
  }

  /**
   * From the welcome screen, whatever the user does, a completed registration saves a profile
   * with a name, a date of birth, a phone number and an address, after the e-mail was verified.
   */
  lemma {:induction false} CompletionSavesFilledProfile(actions: seq<Action>)
    requires CompleteEnabled(Run(InitialWizard, actions))
    ensures var w := Run(InitialWizard, actions);
      var saved := Collected(w.entries);
      && w.emailVerified
      && |saved.name| > 0 && |saved.dob| > 0 && |saved.phone| > 0 && |saved.address| > 0
      && GetUserData(Saved(EmptyPrefs, saved)) == saved
  {
    InitialConsistent();
    RunKeepsConsistent(InitialWizard, actions);
    SaveRoundTrip(EmptyPrefs, Collected(Run(InitialWizard, actions).entries));
  }

  class RegistrationWizard {
    var currentStep: int
    var entries: Entries
    var otpSent: bool
    var emailVerified: bool
    var isLoading: bool

    function State(): Wizard
      reads this
    {
      Wizard(currentStep, entries, otpSent, emailVerified, isLoading)
    }

    ghost predicate Valid()
      reads this
    {
      Consistent(State())
    }

    constructor ()
      ensures State() == InitialWizard && Valid()
    {
      currentStep := 0;
      entries := EmptyEntries;
      otpSent := false;
      emailVerified := false;
      isLoading := false;
    }

    /** The forward button of the current step. */
    method PressNext() returns (moved: bool)
      requires Valid()
      modifies this
      ensures Valid()
      ensures moved == NextEnabled(old(State()))
      ensures State() == Apply(old(State()), Next)
    {
      moved := match currentStep
        case 0 => true
        case 1 => |entries.name| > 0 && emailVerified && Utf16Length(entries.password) >= 6
        case 2 => |entries.dob| > 0 && |entries.phone| > 0
        case 3 => true
        case 4 => |entries.address| > 0
        case _ => false;
      if moved {
        currentStep := currentStep + 1;
      }
      ApplyKeepsConsistent(old(State()), Next);
    }

    /** "Back" on steps 1 to 4, "Back to Edit" on the summary unless loading. */
    method PressBack() returns (moved: bool)
      requires Valid()
      modifies this
      ensures Valid()
      ensures moved == BackEnabled(old(State()))
      ensures State() == Apply(old(State()), Back)
    {
      moved := (1 <= currentStep <= 4) || (currentStep == LAST_STEP && !isLoading);
      if moved {
        currentStep := currentStep - 1;
      }
      ApplyKeepsConsistent(old(State()), Back);
    }

    /** "Send OTP": marks the OTP as sent; the message itself is not part of this model. */
    method SendOtp() returns (sent: bool)
      requires Valid()
      modifies this
      ensures Valid()
      ensures sent == SendOtpEnabled(old(State()))
      ensures State() == Apply(old(State()), Action.SendOtp)
    {
      sent := currentStep == 1 && !otpSent && !emailVerified && |entries.email| > 0 && '@' in entries.email;
      if sent {
        otpSent := true;
      }
      ApplyKeepsConsistent(old(State()), Action.SendOtp);
    }

    /** "Verify OTP": any six characters verify the e-mail. */
    method VerifyOtp() returns (verified: bool)
      requires Valid()
      modifies this
      ensures Valid()
      ensures verified == VerifyOtpEnabled(old(State()))
      ensures State() == Apply(old(State()), Action.VerifyOtp)
    {
      verified := currentStep == 1 && otpSent && !emailVerified && Utf16Length(entries.otp) == OTP_LENGTH;
      if verified {
        emailVerified := true;
      }
      ApplyKeepsConsistent(old(State()), Action.VerifyOtp);
    }

    /** A text field's `onValueChange`, when that field is on screen. */
    method EditField(field: TextField, value: string) returns (changed: bool)
      requires Valid()
      modifies this
      ensures Valid()
      ensures changed == FieldShown(old(State()), field)
      ensures State() == Apply(old(State()), Edit(field, value))
    {
      changed := currentStep == StepOf(field) && (field == OtpField ==> otpSent && !emailVerified);
      if changed {
        entries := Set(entries, field, value);
      }
      ApplyKeepsConsistent(old(State()), Edit(field, value));
    }

    /** The two pregnancy-status radio buttons of step 3. */
    method SelectPregnancyStatus(pregnant: bool) returns (changed: bool)
      requires Valid()
      modifies this
      ensures Valid()
      ensures changed == (old(currentStep) == 3)
      ensures State() == Apply(old(State()), SelectPregnancy(pregnant))
    {
      changed := currentStep == 3;
      if changed {
        entries := entries.(pregnancyStatus := if pregnant then PREGNANT else NOT_APPLICABLE);
      }
      ApplyKeepsConsistent(old(State()), SelectPregnancy(pregnant));
    }

    /**
     * "Complete Registration": sets `isLoading`, then saves the ten collected fields and
     * navigates home (`navigated`). The 1500 ms delay between the two is not modelled.
     */
    method CompleteRegistration(preferences: PreferencesManager) returns (navigated: bool)
      requires Valid()
      modifies this, preferences
      ensures Valid()
      ensures navigated == CompleteEnabled(old(State()))
      ensures State() == Apply(old(State()), Complete)
      ensures preferences.prefs == if navigated then Saved(old(preferences.prefs), Collected(entries))
                                   else old(preferences.prefs)
    {
      navigated := currentStep == LAST_STEP && !isLoading;
      if navigated {
        isLoading := true;
        preferences.SaveUserData(entries.name, entries.email, entries.phone, entries.dob, entries.height,
                                 entries.weight, entries.allergies, entries.pregnancyStatus,
                                 entries.medications, entries.address);
      }
      ApplyKeepsConsistent(old(State()), Complete);
    }
  }
}
