/**
 * `UserRepository`: the login session (user id and token) kept in the app's key-value
 * data store, and the SOS request that is posted only when both are present.
 * The HTTP client is a parameter: its response is an input, the request it is given an output.
 */
module Repository {
  import opened Wrappers
  import opened Models

  const KEY_TOKEN := "KEY_TOKEN"
  const KEY_USER_ID := "KEY_USER_ID"

  /** The preferences data store: string keys to string values. */
  type Store = map<string, string>

  /** `getUserId()` */
  function UserIdIn(store: Store): Option<string> {
    if KEY_USER_ID in store then Some(store[KEY_USER_ID]) else None
  }

  /** `getToken()` */
  function TokenIn(store: Store): Option<string> {
    if KEY_TOKEN in store then Some(store[KEY_TOKEN]) else None
  }

  /** `saveCredentials(userId, token)` */
  function WithCredentials(store: Store, userId: string, token: string): Store {
    store[KEY_USER_ID := userId][KEY_TOKEN := token]
  }

  /** The request `sendSos` posts, or `None` when it returns early. */
  function SosRequestFor(store: Store, latitude: real, longitude: real): Option<SosRequest> {
    match UserIdIn(store)
    case None => None
    case Some(userId) =>
      match TokenIn(store)
      case None => None
      case Some(token) => Some(SosRequest(userId, token, latitude, longitude))
  }

  /** What the HTTP client answers to `POST login`. */
  datatype LoginHttpResponse = LoginHttpResponse(isSuccessful: bool, body: Option<LoginResponse>)

  /** The store after `login`: credentials are saved only from a successful response with a body. */
  function AfterLogin(store: Store, response: LoginHttpResponse): Store {
    if response.isSuccessful && response.body.Some? then
      WithCredentials(store, response.body.value.userId, response.body.value.token)
    else store
  }

  /** Round trip: what `saveCredentials` writes, `getUserId` and `getToken` read back. */
  lemma CredentialsRoundTrip(store: Store, userId: string, token: string)
    ensures UserIdIn(WithCredentials(store, userId, token)) == Some(userId)
    ensures TokenIn(WithCredentials(store, userId, token)) == Some(token)
    ensures forall k :: k in store && k != KEY_USER_ID && k != KEY_TOKEN ==>
      k in WithCredentials(store, userId, token) && WithCredentials(store, userId, token)[k] == store[k]
  {
  }

  /**
   * `sendSos` makes a network call iff both the user id and the token are stored, and the
   * request carries exactly (user id, token, latitude, longitude).
   */
  lemma SendNeedsBothCredentials(store: Store, latitude: real, longitude: real)
    ensures SosRequestFor(store, latitude, longitude).Some? <==> KEY_USER_ID in store && KEY_TOKEN in store
    ensures SosRequestFor(store, latitude, longitude).Some? ==>
      SosRequestFor(store, latitude, longitude).value
        == SosRequest(store[KEY_USER_ID], store[KEY_TOKEN], latitude, longitude)
  {
  }

  /** After a successful login the next SOS carries the session it returned. */
  lemma LoginThenSend(store: Store, response: LoginHttpResponse, latitude: real, longitude: real)
    requires response.isSuccessful && response.body.Some?
    ensures SosRequestFor(AfterLogin(store, response), latitude, longitude)
         == Some(SosRequest(response.body.value.userId, response.body.value.token, latitude, longitude))
  {
  }

  /** A failed login, or one without a body, leaves the store as it was. */
  lemma FailedLoginKeepsStore(store: Store, response: LoginHttpResponse)
    requires !response.isSuccessful || response.body.None?
    ensures AfterLogin(store, response) == store
  {
  }

  /** After `logout` clears the store, `sendSos` is a no-op. */
  lemma LogoutDisablesSend(latitude: real, longitude: real)
    ensures SosRequestFor(map[], latitude, longitude) == None
  {
  }

  class UserRepository {
    var prefs: Store

    /** The data store is app-wide: a repository starts from whatever it holds. */
    constructor (store: Store)
      ensures prefs == store
    {
      prefs := store;
    }

    /** `login`: returns the response body, successful or not. */
    method Login(response: LoginHttpResponse) returns (body: Option<LoginResponse>)
      modifies this
      ensures body == response.body
      ensures prefs == AfterLogin(old(prefs), response)
    {
      if response.isSuccessful && response.body.Some? {
        SaveCredentials(response.body.value.userId, response.body.value.token);
      }
      body := response.body;
    }

    method SaveCredentials(userId: string, token: string)
      modifies this
      ensures prefs == WithCredentials(old(prefs), userId, token)
    {
      prefs := prefs[KEY_USER_ID := userId];
      prefs := prefs[KEY_TOKEN := token];
    }

    function GetUserId(): Option<string>
      reads this
    {
      UserIdIn(prefs)
    }

    function GetToken(): Option<string>
      reads this
    {
      TokenIn(prefs)
    }

    /** `sendSos`: the request handed to the HTTP client, or `None` when it returns early. */
    method SendSos(latitude: real, longitude: real) returns (request: Option<SosRequest>)
      ensures request.Some? <==> KEY_USER_ID in prefs && KEY_TOKEN in prefs
      ensures request.Some? ==> request.value == SosRequest(prefs[KEY_USER_ID], prefs[KEY_TOKEN], latitude, longitude)
      ensures request == SosRequestFor(prefs, latitude, longitude)
    {
      var userId := GetUserId();
      if userId.None? {
        return None;
      }
      var token := GetToken();
      if token.None? {
        return None;
      }
      request := Some(SosRequest(userId.value, token.value, latitude, longitude));
    }

    /** `logout`: clears every key. */
    method Logout()
      modifies this
      ensures prefs == map[]
    {
      prefs := map[];
    }
  }
}
