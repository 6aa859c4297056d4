/**
 * `PreferencesManager`: the profile kept in the app's preferences data store. Keys are typed
 * in the source (`stringPreferencesKey`, `booleanPreferencesKey`), so the store is a pair of
 * maps, one per value type.
 */
module Preferences {

  const IS_REGISTERED := "is_registered"
  const NAME := "name"
  const EMAIL := "email"
  const PHONE := "phone"
  const DOB := "dob"
  const HEIGHT := "height"
  const WEIGHT := "weight"
  const ALLERGIES := "allergies"
  const PREGNANCY_STATUS := "pregnancy_status"
  const MEDICATIONS := "medications"
  const ADDRESS := "address"

  /** The preferences: string-typed and boolean-typed entries. */
  datatype Prefs = Prefs(strings: map<string, string>, flags: map<string, bool>)

  const EmptyPrefs := Prefs(map[], map[])

  /** The data class `UserData`. */
  datatype UserData = UserData(
    name: string,
    email: string,
    phone: string,
    dob: string,
    height: string,
    weight: string,
    allergies: string,
    pregnancyStatus: string,
    medications: string,
    address: string)

  /** The ten profile fields, each stored under its own key. */
  datatype Field = Name | Email | Phone | Dob | Height | Weight | Allergies | PregnancyStatus | Medications | Address

  function KeyOf(f: Field): string {
    match f
    case Name => NAME
    case Email => EMAIL
    case Phone => PHONE
    case Dob => DOB
    case Height => HEIGHT
    case Weight => WEIGHT
    case Allergies => ALLERGIES
    case PregnancyStatus => PREGNANCY_STATUS
    case Medications => MEDICATIONS
    case Address => ADDRESS
  }

  function FieldOf(d: UserData, f: Field): string {
    match f
    case Name => d.name
    case Email => d.email
    case Phone => d.phone
    case Dob => d.dob
    case Height => d.height
    case Weight => d.weight
    case Allergies => d.allergies
    case PregnancyStatus => d.pregnancyStatus
    case Medications => d.medications
    case Address => d.address
  }

  /** `preferences[key] ?: ""` */
  function StringOrEmpty(p: Prefs, key: string): string {
    if key in p.strings then p.strings[key] else ""
  }

  /** `isRegistered`: `preferences[IS_REGISTERED] ?: false` */
  function IsRegistered(p: Prefs): bool {
    if IS_REGISTERED in p.flags then p.flags[IS_REGISTERED] else false
  }

  /** `getUserData()` */
  function GetUserData(p: Prefs): UserData {
    UserData(
      StringOrEmpty(p, NAME), StringOrEmpty(p, EMAIL), StringOrEmpty(p, PHONE), StringOrEmpty(p, DOB),
      StringOrEmpty(p, HEIGHT), StringOrEmpty(p, WEIGHT), StringOrEmpty(p, ALLERGIES),
      StringOrEmpty(p, PREGNANCY_STATUS), StringOrEmpty(p, MEDICATIONS), StringOrEmpty(p, ADDRESS))
  }

  /** The store after `saveUserData`: the ten fields written and `is_registered` set. */
  function Saved(p: Prefs, d: UserData): Prefs {
    Prefs(
      p.strings[NAME := d.name][EMAIL := d.email][PHONE := d.phone][DOB := d.dob]
        [HEIGHT := d.height][WEIGHT := d.weight][ALLERGIES := d.allergies]
        [PREGNANCY_STATUS := d.pregnancyStatus][MEDICATIONS := d.medications][ADDRESS := d.address],
      p.flags[IS_REGISTERED := true])
  }

  /** The store after `logOut`. */
  function LoggedOut(p: Prefs): Prefs {
    p.(flags := p.flags[IS_REGISTERED := false])
  }

  /** Every field has its own key. */
  lemma KeysDistinct(f: Field, g: Field)
    ensures KeyOf(f) == KeyOf(g) <==> f == g
  {
  }

  /** A field of `getUserData` is the value stored under that field's key, or "". */
  lemma GetUserDataReadsKey(p: Prefs, f: Field)
    ensures FieldOf(GetUserData(p), f) == StringOrEmpty(p, KeyOf(f))
  {
  }

  /** On an empty store nobody is registered and every field reads as "". */
  lemma EmptyStoreDefaults()
    ensures !IsRegistered(EmptyPrefs)
    ensures GetUserData(EmptyPrefs) == UserData("", "", "", "", "", "", "", "", "", "")
  {
  }

  /** Round trip: `getUserData` after `saveUserData` returns exactly the saved values, and registers. */
  lemma SaveRoundTrip(p: Prefs, d: UserData)
    ensures GetUserData(Saved(p, d)) == d
    ensures IsRegistered(Saved(p, d))
  {
  }

  /** `saveUserData` touches only the ten field keys and `is_registered`. */
  lemma SaveKeepsOtherKeys(p: Prefs, d: UserData, key: string)
    requires forall f: Field :: KeyOf(f) != key
    ensures key in Saved(p, d).strings <==> key in p.strings
    ensures key in p.strings ==> Saved(p, d).strings[key] == p.strings[key]
    ensures Saved(p, d).flags == p.flags[IS_REGISTERED := true]
    ensures key != IS_REGISTERED ==> (key in Saved(p, d).flags <==> key in p.flags)
    ensures key != IS_REGISTERED && key in p.flags ==> Saved(p, d).flags[key] == p.flags[key]
  {
    assert KeyOf(Name) != key && KeyOf(Email) != key && KeyOf(Phone) != key && KeyOf(Dob) != key;
    assert KeyOf(Height) != key && KeyOf(Weight) != key && KeyOf(Allergies) != key;
    assert KeyOf(PregnancyStatus) != key && KeyOf(Medications) != key && KeyOf(Address) != key;
  }

  /** `logOut` clears only the registration flag: the profile stays readable. */
  lemma LogOutKeepsData(p: Prefs)
    ensures !IsRegistered(LoggedOut(p))
    ensures GetUserData(LoggedOut(p)) == GetUserData(p)
    ensures LoggedOut(p).strings == p.strings
  {
  }

  /** A second save overwrites all ten fields: the last write wins. */
  lemma LastWriteWins(p: Prefs, d1: UserData, d2: UserData)
    ensures Saved(Saved(p, d1), d2) == Saved(p, d2)
  {
  }

  /** Saving the same data twice is the same as saving it once. */
  lemma SaveIdempotent(p: Prefs, d: UserData)
    ensures Saved(Saved(p, d), d) == Saved(p, d)
  {
    LastWriteWins(p, d, d);
  }

  /** Writing one field's key never changes what another field reads. */
  lemma FieldsIndependent(p: Prefs, f: Field, g: Field, value: string)
    requires f != g
    ensures FieldOf(GetUserData(p.(strings := p.strings[KeyOf(f) := value])), g) == FieldOf(GetUserData(p), g)
    ensures FieldOf(GetUserData(p.(strings := p.strings[KeyOf(f) := value])), f) == value
  {
    GetUserDataReadsKey(p.(strings := p.strings[KeyOf(f) := value]), g);
    GetUserDataReadsKey(p.(strings := p.strings[KeyOf(f) := value]), f);
    GetUserDataReadsKey(p, g);
    KeysDistinct(f, g);
  }

  class PreferencesManager {
    var prefs: Prefs

    /** The data store is app-wide: a manager starts from whatever it holds. */
    constructor (store: Prefs)
      ensures prefs == store
    {
      prefs := store;
    }

    /** `saveUserData`: one `edit` transaction writing the ten fields and the flag. */
    method SaveUserData(name: string, email: string, phone: string, dob: string, height: string,
                        weight: string, allergies: string, pregnancyStatus: string,
                        medications: string, address: string)
      modifies this
      ensures prefs == Saved(old(prefs),
        UserData(name, email, phone, dob, height, weight, allergies, pregnancyStatus, medications, address))
    {
      var strings := prefs.strings;
      strings := strings[NAME := name];
      strings := strings[EMAIL := email];
      strings := strings[PHONE := phone];
      strings := strings[DOB := dob];
      strings := strings[HEIGHT := height];
      strings := strings[WEIGHT := weight];
      strings := strings[ALLERGIES := allergies];
      strings := strings[PREGNANCY_STATUS := pregnancyStatus];
      strings := strings[MEDICATIONS := medications];
      strings := strings[ADDRESS := address];
      prefs := Prefs(strings, prefs.flags[IS_REGISTERED := true]);
    }

    /** `logOut` */
    method LogOut()
      modifies this
      ensures prefs == LoggedOut(old(prefs))
    {
      prefs := prefs.(flags := prefs.flags[IS_REGISTERED := false]);
    }

    function Registered(): bool
      reads this
    {
      IsRegistered(prefs)
    }

    function UserDataNow(): UserData
      reads this
    {
      GetUserData(prefs)
    }
  }
}
