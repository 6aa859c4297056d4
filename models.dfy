/**
 * The data classes of `model/` and `network/`, with their Kotlin default values.
 * Doubles (height, weight, coordinates) are `real`: only their presence matters here.
 */
module Models {
  import opened Wrappers

  datatype Address = Address(
    line1: string,
    line2: string,
    landmark: string,
    city: string,
    state: string,
    pinCode: Option<int>)

  const DefaultAddress := Address("", "", "", "", "", None)

  datatype MedicalInfo = MedicalInfo(
    dob: Option<string>,
    gender: Option<string>,
    height: Option<real>,
    weight: Option<real>,
    bloodGroup: Option<string>,
    allergies: Option<string>,
    medicalConditions: Option<string>,
    medications: Option<string>,
    surgeries: Option<string>,
    pregnancyStatus: Option<string>)

  const DefaultMedicalInfo := MedicalInfo(None, None, None, None, None, None, None, None, None, None)

  datatype User = User(
    name: string,
    email: string,
    phone: string,
    govId: string,
    address: Address,
    emergencyContact: string,
    password: string,
    medicalReport: MedicalInfo,
    profileImage: string)

  const DefaultProfileImage := "https://res.cloudinary.com/your-cloud/image/upload/default-profile.jpg"
  const DefaultUser := User("", "", "", "", DefaultAddress, "", "", DefaultMedicalInfo, DefaultProfileImage)

  /** The body of `POST sos`. */
  datatype SosRequest = SosRequest(userId: string, token: string, latitude: real, longitude: real)

  /** The body of a successful `POST login`. */
  datatype LoginResponse = LoginResponse(token: string, userId: string)

  /** The body of `POST register`. */
  datatype RegisterRequest = RegisterRequest(email: string, name: string, password: string)
}

/** The broadcasts the power-button detectors listen to. */
module Intents {

  /** The `action` of a broadcast intent, as far as the detectors distinguish it. */
  datatype IntentAction = ScreenOn | ScreenOff | OtherAction

  /** `intent.action == ACTION_SCREEN_ON || intent.action == ACTION_SCREEN_OFF` */
  predicate IsScreenEvent(a: IntentAction) {
    a == ScreenOn || a == ScreenOff
  }

  /** A broadcast delivered at wall-clock time `time` (milliseconds). */
  datatype Event = Event(action: IntentAction, time: int)

  /** How many of the broadcasts are screen events. */
  function ScreenEvents(events: seq<Event>): nat {
    if events == [] then 0
    else ScreenEvents(events[..|events| - 1]) + (if IsScreenEvent(events[|events| - 1].action) then 1 else 0)
  }
}
