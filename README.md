# SOS app: verified model of its SOS trigger, dispatch and registration logic

This Dafny project models the decision logic of the Android personal-safety app "SOS". A user
registers a profile and can then raise an SOS alert by pressing the power button five times in
quick succession. The model covers:

- **Power-button gesture detection.** The app has two detectors, and both are classes with the
  source's mutable fields.
  - `PowerButtonReceiver` is a sliding window over `pressTimestamps`: window 3000 ms,
    threshold 5 (module `PressReceiver`).
  - `PowerButtonService`'s receiver is a gap-reset counter over `count` and `lastTime`:
    gap 5000 ms inclusive, trigger at 5 (module `ButtonService`).
  - Each `onReceive` is proved equal to a pure step function (`Receive`, `Observe`). The
    properties of whole broadcast sequences are proved on a `Run` over that function:
    - the invariant bounds;
    - no trigger with fewer than five presses;
    - at least five further presses between two triggers, and for the sliding window all five
      inside the second trigger's 3000 ms window;
    - five clustered presses (within one window, or each within the gap of the one before)
      fire exactly once, on the fifth.
- **SOS dispatch.**
  - `PowerButtonService.triggerSos` (module `ButtonService`): location, then `sendSos`, then
    the notification, then the app launch.
  - `SOSManager.triggerSOS` (module `SosManager`): GPS, then public IP, then IP
    geolocation. It then sends and starts recording.
  - `UserRepository` (module `Repository`): the login session in the key-value store, and
    `sendSos` guarded by the stored credentials.
  - Every location, network or OS answer is an input to the model. The model states which
    calls are made, in what order and with what data.
- **Registration.**
  - `AuthViewModel` (module `Auth`): the validators and the state machine of `register`.
  - The four-step form of `RegisterScreen.kt` (module `RegisterScreen`): step validity,
    password requirement flags, the input filters, and the step navigation.
  - The six-screen wizard of `RegistrationScreen.kt` (module `Registration`): OTP flags,
    field guards, the loading lock, and what it saves.
- **Profile store.** `PreferencesManager` (module `Preferences`): ten profile fields and the
  `is_registered` flag.

Shared pieces:

- `Wrappers` holds `Option` and `Result`.
- `Text` holds the Kotlin character and string helpers the validators use. `String.length`
  is `Text.Utf16Length`, the number of UTF-16 code units, as in Kotlin.
- `Models` holds the data classes `User`, `Address`, `MedicalInfo`, `SosRequest` and the
  others, with their Kotlin defaults.
- `Intents` holds the broadcast actions.

The model follows the code:

- There is no countdown or cancel state machine. `SosCancelReceiver.kt` imports an
  `ACTION_CANCEL_SOS` that `PowerButtonService.kt` never defines.
- `SOSManager.triggerSOS` has no cached-location tier, no timeouts and no parallel location
  requests: it tries GPS, then IP geolocation, strictly in sequence. (`PowerButtonService`'s
  `triggerSos` uses only the cached last-known location, `ButtonService.LastLocation`.)
- The detector parameters are fixed constants, not configurable: 3000 ms and 5 for the
  receiver, 5000 ms and 5 for the service.

## Model

| member | source | states |
|---|---|---|
| Text.DecimalLength | app/src/main/java/com/example/sos/viewmodel/AuthViewModel.kt:94 | `n.toString().length`: the number of decimal digits, plus one for the sign of a negative number |
| Text.Lowercase | app/src/main/java/com/example/sos/viewmodel/AuthViewModel.kt:112 | `lowercase()` keeps the length and maps each character to its lower-case form (ASCII) |
| Text.Utf16Length | app/src/main/java/com/example/sos/viewmodel/AuthViewModel.kt:86-88 | `String.length` counts UTF-16 code units: at least the number of characters and at most twice it |
| Text.BmpLength | app/src/main/java/com/example/sos/viewmodel/AuthViewModel.kt:86-88 | for text inside the Basic Multilingual Plane `length` is the number of characters |
| Text.DigitsLength | app/src/main/java/com/example/sos/ui/screens/RegisterScreen.kt:507 | a digit string's `length` is its number of characters, so the digit-only field filters may count either way |
| Text.SupplementaryCountsTwice | app/src/main/java/com/example/sos/viewmodel/AuthViewModel.kt:88 | "Ab1!" followed by an emoji has five characters yet `length` 6, so it passes `password.length >= 6` |
| Text.SixCharacterNumbers | app/src/main/java/com/example/sos/viewmodel/AuthViewModel.kt:94 | `n.toString().length == 6` holds exactly for 100000..999999 and, counting the sign, for -99999..-10000 |
| Text.DigitsToIntOrNull | app/src/main/java/com/example/sos/ui/screens/RegisterScreen.kt:508 | `toIntOrNull` on a digit string is null exactly for the empty string and for a value above `Int.MAX_VALUE` (2147483647), and otherwise the string's value |
| Text.ShortDigitsParse | app/src/main/java/com/example/sos/ui/screens/RegisterScreen.kt:508 | a non-empty string of at most nine digits always parses to its value |
| Text.LongDigitsOverflow | app/src/main/java/com/example/sos/ui/screens/RegisterScreen.kt:508 | eleven or more digits without a leading zero overflow to null |
| PressReceiver.Prune | app/src/main/java/com/example/sos/util/receiver/PowerButtonReceiver.kt:29-30 | `removeAll { it < cutoff }` keeps exactly the timestamps at or after the cutoff and never grows the list |
| PressReceiver.PruneKeepsOrder | app/src/main/java/com/example/sos/util/receiver/PowerButtonReceiver.kt:30 | the survivors are a subsequence in original order, and position i survives iff its timestamp is at or after the cutoff |
| PressReceiver.Receive | app/src/main/java/com/example/sos/util/receiver/PowerButtonReceiver.kt:23-43 | one `onReceive`: other intents change nothing; a screen event appends the current time, prunes entries older than 3000 ms, and triggers and clears the list iff at least five remain |
| PressReceiver.OtherIntentIgnored | app/src/main/java/com/example/sos/util/receiver/PowerButtonReceiver.kt:24 | a broadcast other than screen on/off leaves the list unchanged and never triggers |
| PressReceiver.ScreenEventStep | app/src/main/java/com/example/sos/util/receiver/PowerButtonReceiver.kt:24-35 | a screen event appends `now` before pruning; it triggers iff at least 5 timestamps remain, and then the list is empty; otherwise the list is the pruned old list plus `now`, and shorter than 5 |
| PressReceiver.WindowBoundary | app/src/main/java/com/example/sos/util/receiver/PowerButtonReceiver.kt:29-30 | a timestamp exactly 3000 ms old is kept, one 3001 ms old is dropped (strict `<`) |
| PressReceiver.NoTriggerGrowth | app/src/main/java/com/example/sos/util/receiver/PowerButtonReceiver.kt:26-35 | without a trigger the list grows by at most one per screen event |
| PressReceiver.TriggerNeedsPresses | app/src/main/java/com/example/sos/util/receiver/PowerButtonReceiver.kt:33 | any trigger in a run needs pending plus new screen events to reach 5 |
| PressReceiver.FewPressesNeverTrigger | app/src/main/java/com/example/sos/util/receiver/PowerButtonReceiver.kt:19-35 | from the empty list, fewer than five screen events never trigger |
| PressReceiver.RecentPresses | app/src/main/java/com/example/sos/util/receiver/PowerButtonReceiver.kt:29-33 | the screen events of a run at or after a cutoff are at most all its screen events |
| PressReceiver.RunPressBound | app/src/main/java/com/example/sos/util/receiver/PowerButtonReceiver.kt:26-35 | each timestamp the list holds at or after a cutoff was pending before the run or is a distinct screen event of the run at or after that cutoff |
| PressReceiver.TriggerNeedsRecentPresses | app/src/main/java/com/example/sos/util/receiver/PowerButtonReceiver.kt:29-33 | a trigger at time T needs five presses in [T - 3000, T], counting those already pending |
| PressReceiver.TriggersAreSpaced | app/src/main/java/com/example/sos/util/receiver/PowerButtonReceiver.kt:33-35 | between any two triggers lie at least five further screen events, all inside the second trigger's 3000 ms window: one cluster fires once |
| PressReceiver.PressAppended | app/src/main/java/com/example/sos/util/receiver/PowerButtonReceiver.kt:26-33 | an in-window press with fewer than four pending is appended and does not trigger |
| PressReceiver.FifthPressFires | app/src/main/java/com/example/sos/util/receiver/PowerButtonReceiver.kt:26-35 | with four in-window timestamps pending, a press triggers and clears the list |
| PressReceiver.ClusterPending | app/src/main/java/com/example/sos/util/receiver/PowerButtonReceiver.kt:26-33 | up to four ordered presses within one window, from the empty list, are all kept and none triggers |
| PressReceiver.ClusterFiresOnFifth | app/src/main/java/com/example/sos/util/receiver/PowerButtonReceiver.kt:26-35 | five ordered presses within one window, from the empty list, trigger exactly once, on the fifth, and leave the list empty |
| PressReceiver.FivePressesExample | app/src/main/java/com/example/sos/util/receiver/PowerButtonReceiver.kt:15-35 | presses at 0, 500, 1000, 1500, 2000 ms trigger exactly once, at 2000 ms |
| PressReceiver.PowerButtonReceiver.constructor | app/src/main/java/com/example/sos/util/receiver/PowerButtonReceiver.kt:19 | the list starts empty |
| PressReceiver.PowerButtonReceiver.OnReceive | app/src/main/java/com/example/sos/util/receiver/PowerButtonReceiver.kt:23-43 | the in-place `add`/`removeAll`/`clear` leaves the list and trigger flag that `Receive` gives, and keeps the list below 5 |
| ButtonService.Observe | app/src/main/java/com/example/sos/service/PowerButtonService.kt:33-46 | one broadcast to the service's receiver: other intents change nothing; a screen event counts up within 5000 ms of the last (else restarts at 1), sets `lastTime`, and matches and resets at five |
| ButtonService.ObserveScreenEvent | app/src/main/java/com/example/sos/service/PowerButtonService.kt:33-46 | a screen event sets `lastTime` to `now`; within 5000 ms (inclusive) the count goes up by one, otherwise it restarts at 1; a match happens iff the count reaches 5, and then it is reset to 0; the count stays in 0..4 |
| ButtonService.OtherIntentIgnored | app/src/main/java/com/example/sos/service/PowerButtonService.kt:33 | other broadcasts change neither `count` nor `lastTime` |
| ButtonService.GapBoundary | app/src/main/java/com/example/sos/service/PowerButtonService.kt:35 | a gap of exactly 5000 ms still counts; 5001 ms restarts the count at 1 |
| ButtonService.RunKeepsCountInRange | app/src/main/java/com/example/sos/service/PowerButtonService.kt:24-46 | starting in 0..4 (as from `count = 0`), the count stays in 0..4 after any broadcasts |
| ButtonService.NoMatchGrowth | app/src/main/java/com/example/sos/service/PowerButtonService.kt:35-45 | without a match the count grows by at most one per screen event |
| ButtonService.MatchNeedsPresses | app/src/main/java/com/example/sos/service/PowerButtonService.kt:35-38 | a match needs the current count plus new screen events to reach 5 |
| ButtonService.MatchResets | app/src/main/java/com/example/sos/service/PowerButtonService.kt:38-45 | right after a match the count is 0, whether or not the SOS is sent |
| ButtonService.MatchesAreSpaced | app/src/main/java/com/example/sos/service/PowerButtonService.kt:35-46 | between any two matches lie at least five further screen events |
| ButtonService.ChainCounts | app/src/main/java/com/example/sos/service/PowerButtonService.kt:35-45 | a chain of screen events, each within 5000 ms of the one before, that stays below five counts up by one per press and never matches |
| ButtonService.ClusterFiresOnFifth | app/src/main/java/com/example/sos/service/PowerButtonService.kt:35-45 | a chain of presses, each within 5000 ms of the one before, that brings the count to five matches exactly once, on its last press, and resets the count; from `count = 0` that is the fifth of five |
| ButtonService.FivePressesExample | app/src/main/java/com/example/sos/service/PowerButtonService.kt:24-46 | from `count = 0, lastTime = 0`, presses at 0, 500, 1000, 1500, 2000 ms match exactly once, at 2000 ms |
| ButtonService.HasLocationPermissions | app/src/main/java/com/example/sos/service/PowerButtonService.kt:105-108 | the permission check always grants |
| ButtonService.TriggerSos | app/src/main/java/com/example/sos/service/PowerButtonService.kt:166-206 | a request is sent only with a location, and then it is `sendSos`'s request for the stored credentials; the notification is shown iff there is a location and `sendSos` returned normally; the app is launched iff notified and the keyguard is unlocked |
| ButtonService.NoLocationNoEffect | app/src/main/java/com/example/sos/service/PowerButtonService.kt:170-206 | a null or failed location only logs: nothing is sent, shown or launched |
| ButtonService.NotifiedWithoutSession | app/src/main/java/com/example/sos/service/PowerButtonService.kt:173-191 | with no stored session nothing is sent, yet the "emergency services have been notified" notification is shown and the app launched |
| ButtonService.PowerButtonService.OnReceive | app/src/main/java/com/example/sos/service/PowerButtonService.kt:30-49 | the field updates equal `Observe`, `triggerSos` runs iff matched and permitted, and the count stays in 0..4 |
| Repository.SosRequestFor | app/src/main/java/com/example/sos/repository/UserRepository.kt:39-43 | the request `sendSos` posts: none unless both the user id and the token are stored, else (userId, token, latitude, longitude) |
| Repository.AfterLogin | app/src/main/java/com/example/sos/repository/UserRepository.kt:23-27 | the store after `login`: the body's credentials saved on a successful response with a body, else unchanged |
| Repository.CredentialsRoundTrip | app/src/main/java/com/example/sos/repository/UserRepository.kt:29-37 | after `saveCredentials(u, t)`, `getUserId` is `u`, `getToken` is `t`, and every other key is unchanged |
| Repository.SendNeedsBothCredentials | app/src/main/java/com/example/sos/repository/UserRepository.kt:39-43 | `sendSos` posts iff both the user id and the token are stored, and the request is exactly (userId, token, latitude, longitude) |
| Repository.LoginThenSend | app/src/main/java/com/example/sos/repository/UserRepository.kt:23-43 | after a successful login with a body, the next SOS carries that body's user id and token |
| Repository.FailedLoginKeepsStore | app/src/main/java/com/example/sos/repository/UserRepository.kt:25 | an unsuccessful response, or one without a body, stores nothing |
| Repository.LogoutDisablesSend | app/src/main/java/com/example/sos/repository/UserRepository.kt:45-48 | after `logout` empties the store, `sendSos` makes no call |
| Repository.UserRepository.Login | app/src/main/java/com/example/sos/repository/UserRepository.kt:23-27 | returns the response body even when unsuccessful; the store becomes `AfterLogin` of the old one |
| Repository.UserRepository.SaveCredentials | app/src/main/java/com/example/sos/repository/UserRepository.kt:29-34 | writes the user id and the token keys |
| Repository.UserRepository.SendSos | app/src/main/java/com/example/sos/repository/UserRepository.kt:39-43 | returns early unless both keys are stored; otherwise hands (userId, token, latitude, longitude) to the HTTP client |
| Repository.UserRepository.Logout | app/src/main/java/com/example/sos/repository/UserRepository.kt:45-49 | clears every key |
| SosManager.CurrentLocation | app/src/main/java/com/example/sos/service/SOSManager.kt:63-83 | `getCurrentLocation` resumes with the location iff the client delivered a non-null fix; a null fix and a failure both throw |
| SosManager.RenderLocation | app/src/main/java/com/example/sos/service/SOSManager.kt:118-122 | a location is rendered as its coordinates, null as "Unknown location" |
| SosManager.FromGeolocation | app/src/main/java/com/example/sos/service/SOSManager.kt:40-49 | an absent reply gives a null location; a reply with "lat" and "lon" gives an "ip-geolocation" location; a reply missing either throws |
| SosManager.ResolveLocation | app/src/main/java/com/example/sos/service/SOSManager.kt:34-50 | the GPS fix if there is one, otherwise the IP-geolocation result for the looked-up address |
| SosManager.TriggerCalls | app/src/main/java/com/example/sos/service/SOSManager.kt:31-60 | the calls `triggerSOS` makes, in order: GPS, then on failure the IP and geolocation lookups, then the send and the recording unless the location step threw |
| SosManager.GpsFixWins | app/src/main/java/com/example/sos/service/SOSManager.kt:34-36 | with a GPS fix that location is used and no IP lookup is made: the calls are GPS, send, record |
| SosManager.NullFixFallsBack | app/src/main/java/com/example/sos/service/SOSManager.kt:74-81 | a null fix behaves exactly like a failed GPS request |
| SosManager.NoAddressUnknownLocation | app/src/main/java/com/example/sos/service/SOSManager.kt:37-53 | without a fix and a public IP no geolocation is queried and "Unknown location" is still sent |
| SosManager.GeolocationQueriedIff | app/src/main/java/com/example/sos/service/SOSManager.kt:34-40 | the public IP is looked up iff GPS failed; a geolocation for an address is queried iff GPS failed and the IP lookup returned that address |
| SosManager.IpGeolocationUsed | app/src/main/java/com/example/sos/service/SOSManager.kt:42-49 | a reply with "lat" and "lon" gives a location tagged "ip-geolocation" with those values; no reply gives null and "Unknown location" is sent |
| SosManager.MissingFieldAborts | app/src/main/java/com/example/sos/service/SOSManager.kt:32-60 | a reply lacking "lat" or "lon" throws to the outer handler: neither the send nor the recording happens |
| SosManager.SendThenRecord | app/src/main/java/com/example/sos/service/SOSManager.kt:52-56 | GPS is always asked first; the recording starts iff the location resolved (even to null); then the send and the recording are the last two calls, in that order, and the only send |
| SosManager.SOSManager.constructor | app/src/main/java/com/example/sos/service/SOSManager.kt:29 | no recording at first |
| SosManager.SOSManager.StopRecording | app/src/main/java/com/example/sos/service/SOSManager.kt:153-156 | stops the current recording, if any, and leaves `recording` null |
| Auth.PinCodeValid | app/src/main/java/com/example/sos/viewmodel/AuthViewModel.kt:94 | the pin code is non-null and its decimal text is six characters long |
| Auth.IsMedicalInfoValid | app/src/main/java/com/example/sos/viewmodel/AuthViewModel.kt:102-113 | the nine medical fields are present and, for a gender that lowercases to "female", a pregnancy status too |
| Auth.IsRegistrationDataValid | app/src/main/java/com/example/sos/viewmodel/AuthViewModel.kt:83-100 | `isRegistrationDataValid`, conjunct by conjunct, with each `length` bound on the UTF-16 length |
| Auth.PinCodeRule | app/src/main/java/com/example/sos/viewmodel/AuthViewModel.kt:94 | the pin code is valid iff it is non-null and six-digit, or negative five-digit |
| Auth.NegativePinCodePasses | app/src/main/java/com/example/sos/viewmodel/AuthViewModel.kt:94 | -12345 passes the pin check and 12345 fails it |
| Auth.PregnancyRequiredIff | app/src/main/java/com/example/sos/viewmodel/AuthViewModel.kt:102-113 | with the nine other fields filled, the medical info is valid iff a female gender (after lowercasing) comes with a non-empty pregnancy status |
| Auth.FemaleNeedsPregnancyStatus | app/src/main/java/com/example/sos/viewmodel/AuthViewModel.kt:112 | "Female" and "FEMALE" require a pregnancy status; "male" is not female |
| Auth.RegisterState | app/src/main/java/com/example/sos/viewmodel/AuthViewModel.kt:38-49 | terms are checked before data: without terms the error is "Please accept terms and conditions" whatever the data; with invalid data it is "Please fill all required fields correctly"; Loading iff both pass |
| Auth.CompleteUser | app/src/main/java/com/example/sos/viewmodel/AuthViewModel.kt:54-59 | the completed user takes address, medical report, emergency contact and password from the form and keeps name, e-mail, phone, government id and profile image |
| Auth.StateAfterResponse | app/src/main/java/com/example/sos/viewmodel/AuthViewModel.kt:68-79 | Success with the completed user iff the response is successful; otherwise Error with the message, or "Registration failed" / "An error occurred during registration" when there is none |
| Auth.RegisteredUserIsValid | app/src/main/java/com/example/sos/viewmodel/AuthViewModel.kt:83-100 | a registration that reaches the repository sends the form's e-mail, name and password, and the password meets the length and four character-class rules |
| Auth.AuthViewModel.constructor | app/src/main/java/com/example/sos/viewmodel/AuthViewModel.kt:18-29 | state Idle, default user, address and medical info, empty strings, terms not accepted |
| Auth.AuthViewModel.Register | app/src/main/java/com/example/sos/viewmodel/AuthViewModel.kt:38-59 | sets `RegisterState` of terms and data validity; hands the completed user to the repository iff the state is Loading; changes no form field |
| Auth.AuthViewModel.OnRegisterResponse | app/src/main/java/com/example/sos/viewmodel/AuthViewModel.kt:68-79 | sets the state `StateAfterResponse` gives; changes no form field |
| RegisterScreen.IsStepValid | app/src/main/java/com/example/sos/ui/screens/RegisterScreen.kt:746-764 | step 1 checks the personal fields and the password rule, step 2 the address and the pin code, every other step passes |
| RegisterScreen.RequirementFlags | app/src/main/java/com/example/sos/ui/screens/RegisterScreen.kt:425-431 | the five requirement flags shown under the password field, in display order |
| RegisterScreen.OtherStepsAlwaysValid | app/src/main/java/com/example/sos/ui/screens/RegisterScreen.kt:762-764 | step 3 and every step other than 1 and 2 are valid |
| RegisterScreen.RequirementsMatchStepOne | app/src/main/java/com/example/sos/ui/screens/RegisterScreen.kt:425-431 | with valid personal fields and a matching confirmation, step 1 is valid iff all five requirement flags are met |
| RegisterScreen.EmojiPasswordMeetsRequirements | app/src/main/java/com/example/sos/ui/screens/RegisterScreen.kt:425-431 | "Ab1!" followed by an emoji (five characters, `length` 6) shows all five requirements as met |
| RegisterScreen.StepOneMeetsRequirements | app/src/main/java/com/example/sos/ui/screens/RegisterScreen.kt:747-755 | a valid step 1 shows every requirement flag as met |
| RegisterScreen.StepsCoverRegistration | app/src/main/java/com/example/sos/ui/screens/RegisterScreen.kt:746-760 | `isRegistrationDataValid` holds iff steps 1 and 2 are valid, the emergency contact is filled (`length` 10+, with a name) and the medical info is valid |
| RegisterScreen.PinCodeInput | app/src/main/java/com/example/sos/ui/screens/RegisterScreen.kt:505-509 | input of at most six digits sets the pin to its parsed value (null for empty); other input is ignored; no other address field changes |
| RegisterScreen.PinInputNeverNegative | app/src/main/java/com/example/sos/ui/screens/RegisterScreen.kt:507-508 | the field never produces a negative pin code |
| RegisterScreen.PinInputPassesIff | app/src/main/java/com/example/sos/ui/screens/RegisterScreen.kt:507-508 | accepted input passes the pin check iff it has six digits and no leading '0' |
| RegisterScreen.LeadingZeroPinFailsStepTwo | app/src/main/java/com/example/sos/ui/screens/RegisterScreen.kt:757-760 | a six-digit input with a leading zero makes step 2 invalid |
| RegisterScreen.EmergencyPhoneInput | app/src/main/java/com/example/sos/ui/screens/RegisterScreen.kt:576 | input of at most ten digits replaces the phone; anything else leaves it unchanged |
| RegisterScreen.PhoneInputKeepsShape | app/src/main/java/com/example/sos/ui/screens/RegisterScreen.kt:576-582 | a phone entered through the field stays at most ten digits, its `length` is its number of digits, so one passing the length check has exactly ten |
| RegisterScreen.CompleteRegistrationEnabled | app/src/main/java/com/example/sos/ui/screens/RegisterScreen.kt:207-212 | the complete button is enabled iff the medical information is valid, the terms are accepted and the state is not Loading |
| RegisterScreen.EnabledButtonStillChecksForm | app/src/main/java/com/example/sos/ui/screens/RegisterScreen.kt:207-212 | the button reads only the medical information: once it is enabled, `register` reaches Loading iff steps 1 and 2 and the emergency contact are valid as well |
| RegisterScreen.ShortPasswordRejected | app/src/main/java/com/example/sos/ui/screens/RegisterScreen.kt:207-212 | valid medical information with a password under six characters enables the button yet ends in "Please fill all required fields correctly" |
| RegisterScreen.RegisterSteps.constructor | app/src/main/java/com/example/sos/ui/screens/RegisterScreen.kt:99 | the form starts at step 1 |
| RegisterScreen.RegisterSteps.Back | app/src/main/java/com/example/sos/ui/screens/RegisterScreen.kt:170-172 | Back moves one step back iff past step 1; the step stays in 1..4 |
| RegisterScreen.RegisterSteps.Next | app/src/main/java/com/example/sos/ui/screens/RegisterScreen.kt:185-194 | Next advances by exactly one iff before step 4 and the current step is valid; the step stays in 1..4 |
| Registration.Set | app/src/main/java/com/example/sos/ui/screens/RegistrationScreen.kt:185-566 | editing a field sets that field and no other |
| Registration.NextEnabled | app/src/main/java/com/example/sos/ui/screens/RegistrationScreen.kt:164-596 | each step's forward button: always on step 0; name, verified e-mail and a password of `length` 6+ on step 1; dob and phone on step 2; always on step 3; address on step 4; none on step 5 |
| Registration.BackEnabled | app/src/main/java/com/example/sos/ui/screens/RegistrationScreen.kt:311-759 | back buttons on steps 1..4, and on the summary only when not loading |
| Registration.SendOtpEnabled | app/src/main/java/com/example/sos/ui/screens/RegistrationScreen.kt:214-220 | "Send OTP" shown on step 1 before sending and verification, enabled for a non-empty e-mail with '@' |
| Registration.VerifyOtpEnabled | app/src/main/java/com/example/sos/ui/screens/RegistrationScreen.kt:262-269 | "Verify OTP" shown after sending and before verification, enabled for an OTP of `length` 6 |
| Registration.FieldShown | app/src/main/java/com/example/sos/ui/screens/RegistrationScreen.kt:185-566 | a text field is on screen on its own step only, the OTP field only while verification is pending |
| Registration.CompleteEnabled | app/src/main/java/com/example/sos/ui/screens/RegistrationScreen.kt:718-742 | "Complete Registration" is enabled on the summary when not loading |
| Registration.Apply | app/src/main/java/com/example/sos/ui/screens/RegistrationScreen.kt:163-761 | one interaction: a hidden or disabled control changes nothing, otherwise the step moves, a flag is set, a field is edited, or loading starts |
| Registration.InitialConsistent | app/src/main/java/com/example/sos/ui/screens/RegistrationScreen.kt:76-96 | the initial wizard (step 0, nothing sent, verified or loading) satisfies the invariant |
| Registration.ApplyKeepsConsistent | app/src/main/java/com/example/sos/ui/screens/RegistrationScreen.kt:163-761 | every interaction keeps step in 0..5, moves it by at most one, never clears `otpSent` or `emailVerified`, keeps verified ⇒ sent and loading ⇒ summary, and freezes everything once loading |
| Registration.VerificationNeedsOtp | app/src/main/java/com/example/sos/ui/screens/RegistrationScreen.kt:262-269 | `emailVerified` becomes true only by Verify on step 1 after an OTP was sent, with a six-character OTP |
| Registration.EmailEditKeepsVerification | app/src/main/java/com/example/sos/ui/screens/RegistrationScreen.kt:203-205 | changing the e-mail after verification keeps it verified |
| Registration.RunKeepsConsistent | app/src/main/java/com/example/sos/ui/screens/RegistrationScreen.kt:163-761 | the invariant holds after any sequence of interactions: every step behind the user had its requirements met (name, verified e-mail, password of 6+; dob and phone; address) |
| Registration.StepsAreAdjacent | app/src/main/java/com/example/sos/ui/screens/RegistrationScreen.kt:164-758 | the step advances by at most one per interaction |
| Registration.CompletionSavesFilledProfile | app/src/main/java/com/example/sos/ui/screens/RegistrationScreen.kt:718-739 | whatever the user did, completing saves a profile with a name, dob, phone and address after a verified e-mail, and `getUserData` reads it back |
| Registration.RegistrationWizard.constructor | app/src/main/java/com/example/sos/ui/screens/RegistrationScreen.kt:76-96 | step 0, empty fields, "Not Applicable" pregnancy status, nothing sent, verified or loading |
| Registration.RegistrationWizard.PressNext | app/src/main/java/com/example/sos/ui/screens/RegistrationScreen.kt:164-596 | moves forward iff the step's guard holds (step 0 always; step 1 name, verified e-mail, password of 6+; step 2 dob and phone; step 3 always; step 4 address; none on step 5) |
| Registration.RegistrationWizard.PressBack | app/src/main/java/com/example/sos/ui/screens/RegistrationScreen.kt:311-759 | moves back on steps 1..4, and from the summary only when not loading |
| Registration.RegistrationWizard.SendOtp | app/src/main/java/com/example/sos/ui/screens/RegistrationScreen.kt:214-220 | sets `otpSent` iff on step 1, nothing sent or verified yet, and the e-mail is non-empty with '@' |
| Registration.RegistrationWizard.VerifyOtp | app/src/main/java/com/example/sos/ui/screens/RegistrationScreen.kt:262-269 | sets `emailVerified` iff the OTP was sent, not yet verified, and six characters long |
| Registration.RegistrationWizard.EditField | app/src/main/java/com/example/sos/ui/screens/RegistrationScreen.kt:185-566 | a field changes only while shown on its own step (the OTP field only while verification is pending) |
| Registration.RegistrationWizard.SelectPregnancyStatus | app/src/main/java/com/example/sos/ui/screens/RegistrationScreen.kt:492-504 | on step 3 the radio buttons set "Pregnant" or "Not Applicable" |
| Registration.RegistrationWizard.CompleteRegistration | app/src/main/java/com/example/sos/ui/screens/RegistrationScreen.kt:718-742 | enabled only on the summary when not loading: sets `isLoading` and saves exactly the ten collected fields; otherwise changes nothing |
| Preferences.IsRegistered | app/src/main/java/com/example/sos/util/PreferenceManager.kt:32-35 | the `is_registered` flag, false when absent |
| Preferences.GetUserData | app/src/main/java/com/example/sos/util/PreferenceManager.kt:70-85 | the ten fields each read under its key, "" when absent |
| Preferences.Saved | app/src/main/java/com/example/sos/util/PreferenceManager.kt:37-62 | the store after `saveUserData`: the ten keys written and `is_registered` set |
| Preferences.LoggedOut | app/src/main/java/com/example/sos/util/PreferenceManager.kt:64-68 | the store after `logOut`: `is_registered` false, everything else kept |
| Preferences.KeysDistinct | app/src/main/java/com/example/sos/util/PreferenceManager.kt:19-29 | the ten fields have pairwise distinct keys |
| Preferences.GetUserDataReadsKey | app/src/main/java/com/example/sos/util/PreferenceManager.kt:70-85 | each `getUserData` field is the value under its key, or "" |
| Preferences.EmptyStoreDefaults | app/src/main/java/com/example/sos/util/PreferenceManager.kt:32-83 | on an empty store `isRegistered` is false and every field is "" |
| Preferences.SaveRoundTrip | app/src/main/java/com/example/sos/util/PreferenceManager.kt:49-83 | after `saveUserData`, `getUserData` returns exactly the ten values and `isRegistered` is true |
| Preferences.SaveKeepsOtherKeys | app/src/main/java/com/example/sos/util/PreferenceManager.kt:49-61 | `saveUserData` changes no key other than the ten fields and `is_registered` |
| Preferences.LogOutKeepsData | app/src/main/java/com/example/sos/util/PreferenceManager.kt:64-68 | `logOut` makes `isRegistered` false and leaves every stored string unchanged |
| Preferences.LastWriteWins | app/src/main/java/com/example/sos/util/PreferenceManager.kt:49-61 | a second save overwrites all ten fields |
| Preferences.SaveIdempotent | app/src/main/java/com/example/sos/util/PreferenceManager.kt:49-61 | saving the same data twice equals saving it once |
| Preferences.FieldsIndependent | app/src/main/java/com/example/sos/util/PreferenceManager.kt:19-29 | writing one field's key changes no other field's value |
| Preferences.PreferencesManager.SaveUserData | app/src/main/java/com/example/sos/util/PreferenceManager.kt:37-62 | the in-place `edit` leaves the store `Saved` gives |
| Preferences.PreferencesManager.LogOut | app/src/main/java/com/example/sos/util/PreferenceManager.kt:64-68 | the in-place `edit` leaves the store `LoggedOut` gives |

## Left out

- Countdown and cancellation: the code has no countdown. `CancelSosReceiver` refers to an
  undefined `ACTION_CANCEL_SOS`, so there is no cancel path to model.
- Android plumbing is not modelled: service lifecycle, restart, `SOSService`, wake lock and
  receiver registration. They are OS scheduling and have no decision logic.
- Notification channels and notification content: `showSosTriggeredNotification` is a single
  boolean effect in `ButtonService.TriggerSos`.
- Network, location and JSON clients are not modelled: Retrofit, the fused location client,
  the ipify and ip-api requests, and `JSONObject` parsing. Their results are inputs to the
  model.
  - A geolocation reply is a map from field names to numbers. A non-numeric "lat" or "lon"
    value, which would also throw, is not represented.
- Coroutines and threads are modelled as sequential steps. Interleavings of broadcasts with
  the launched coroutines are not modelled.
- `delay(1500)` before the wizard navigates home is not modelled.
- Kotlin's Unicode character classes (`isUpperCase`, `isLowerCase`, `isDigit`,
  `isLetterOrDigit`, `lowercase`) are approximated by their ASCII ranges.
- Doubles are not modelled as doubles: coordinates, height and weight are mathematical
  reals, and for height and weight only their presence matters. The `"lat,lon"` string is a
  `Coordinates` value rather than formatted text.
- `System.currentTimeMillis()` is a time parameter. 64-bit overflow of `now - lastTime` and
  `currentTime - 3000` is not modelled, because wall-clock times are far from the limits.
- Text.DigitsToIntOrNull: takes only strings of decimal digits. The sign that `toIntOrNull`
  also accepts ("-5", "+5") is not modelled, because its one caller, the pin field, passes it
  digits only.
- `AuthViewModel.login`, `sendSos` and `logout` only forward to `UserRepository`, which is
  modelled. `UserRepository.register` is a single HTTP call, and its arguments are
  `Auth.RegisterRequestFor`.
- `SOSManager.sendSOSRequest` only logs; its location text is `SosManager.RenderLocation`.
- `SOSManager.startRecording` is a logging stub, and nothing ever sets `recording`. The model
  has the field and `StopRecording` but no way to start a recording.
- The response of `RetrofitInstance.api.sendSos` is ignored by the source, and the model does
  not represent it.
- UI rendering and the trivial screens are not modelled: Compose layout, the progress bar,
  the summary texts, `HomeScreen`, `SplashScreen`, `LoginScreen` and the three single-field
  register screens. `RegisterPasswordScreen` calls a four-argument `register` that
  `AuthViewModel` does not define.
- ButtonService.TriggerSos: the outcomes of the location request and the network call are
  inputs. A `SecurityException` is the same as `LocationUnavailable`.
- ButtonService.PowerButtonService.OnReceive: `count` is a Kotlin `Int`, and its overflow is
  not modelled, because the count never leaves 0..5.
