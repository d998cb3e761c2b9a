/**
 * store/authStore.ts: the session store (tokens, device id, user), whose
 * actions overwrite some of its fields, and the subset of it that is
 * persisted under "auth-storage".
 */
module AuthStore {
  import opened Common
  import opened Types

  /** The localStorage key the device id is read from at start-up. */
  const DEVICE_ID_KEY := "X-Device-Id"
  /** The localStorage key of the persisted subset. */
  const STORAGE_NAME := "auth-storage"

  datatype AuthState = AuthState(
    accessToken: Option<string>,
    refreshToken: Option<string>,
    deviceId: Option<string>,
    user: Option<User>)

  /** What `partialize` writes to storage. */
  datatype Persisted = Persisted(
    accessToken: Option<string>,
    refreshToken: Option<string>,
    user: Option<User>)

  /** The state before rehydration: no session, the device id found under `X-Device-Id`. */
  function InitialState(storedDeviceId: Option<string>): (s: AuthState)
    ensures s.accessToken == None && s.refreshToken == None && s.user == None
    ensures s.deviceId == storedDeviceId
  {
    AuthState(None, None, storedDeviceId, None)
  }

  /** `partialize`: the two tokens and the user, and nothing else. */
  function Partialize(s: AuthState): (p: Persisted)
    ensures p.accessToken == s.accessToken && p.refreshToken == s.refreshToken && p.user == s.user
  {
    Persisted(s.accessToken, s.refreshToken, s.user)
  }

  /** The persist middleware's rehydration: the stored fields are spread over the current state. */
  function Rehydrate(current: AuthState, stored: Option<Persisted>): (s: AuthState)
    ensures s.deviceId == current.deviceId
    ensures stored.None? ==> s == current
  {
    match stored
    case None => current
    case Some(p) => current.(accessToken := p.accessToken, refreshToken := p.refreshToken, user := p.user)
  }

  /** The device id is not part of what is persisted. */
  lemma DeviceIdNotPersisted(s: AuthState, d: Option<string>)
    ensures Partialize(s.(deviceId := d)) == Partialize(s)
  {
  }

  /** Reloading restores every persisted field exactly; the device id comes from `X-Device-Id`
      instead of from the persisted state. */
  lemma ReloadRoundTrip(s: AuthState, storedDeviceId: Option<string>)
    ensures Rehydrate(InitialState(storedDeviceId), Some(Partialize(s))) == s.(deviceId := storedDeviceId)
  {
  }

  /** The store. Each action overwrites the fields it names and no others. */
  class Store {
    var accessToken: Option<string>
    var refreshToken: Option<string>
    var deviceId: Option<string>
    var user: Option<User>

    function State(): AuthState
      reads this
    {
      AuthState(accessToken, refreshToken, deviceId, user)
    }

    constructor (storedDeviceId: Option<string>)
      ensures State() == InitialState(storedDeviceId)
    {
      accessToken, refreshToken, deviceId, user := None, None, storedDeviceId, None;
    }

    /** `setAuth`: both tokens replaced; user and device id kept. */
    method SetAuth(access: string, refresh: string)
      modifies this
      ensures State() == old(State()).(accessToken := Some(access), refreshToken := Some(refresh))
    {
      accessToken, refreshToken := Some(access), Some(refresh);
    }

    /** `setUser` */
    method SetUser(u: Option<User>)
      modifies this
      ensures State() == old(State()).(user := u)
    {
      user := u;
    }

    /** `setDeviceId` */
    method SetDeviceId(id: string)
      modifies this
      ensures State() == old(State()).(deviceId := Some(id))
    {
      deviceId := Some(id);
    }

    /** `logout`: the session is forgotten, the device id is kept. */
    method Logout()
      modifies this
      ensures State() == old(State()).(accessToken := None, refreshToken := None, user := None)
      ensures Partialize(State()) == Persisted(None, None, None)
    {
      accessToken, refreshToken, user := None, None, None;
    }
  }
}
