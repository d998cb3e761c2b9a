/**
 * pages/SettingsChangeUsername.tsx: changing the username. The trimmed name must have 3 to 40
 * characters; an accepted one is sent, and on success the user is reloaded from the server.
 * The submit button is disabled while loading.
 */
module SettingsChangeUsername {
  import opened Common
  import opened JsString
  import opened Types
  import opened AuthStore
  import opened Forms

  const MIN_LENGTH := 3
  const MAX_LENGTH := 40

  const ERROR_LENGTH := "Kullanıcı adı 3 ile 40 karakter arasında olmalı"
  const ERROR_CHANGE := "Kullanıcı adı değiştirilemedi"
  const UPDATED := "Kullanıcı adı güncellendi"

  /** The length guard of `handleSubmit`: the name to send, if any. */
  function CheckUsername(name: string): (r: Option<string>)
    ensures r.Some? <==> MIN_LENGTH <= |Trim(name)| <= MAX_LENGTH
    ensures r.Some? ==> var u := r.value;
      && MIN_LENGTH <= |u| <= MAX_LENGTH
      && !IsSpace(u[0]) && !IsSpace(u[|u| - 1])
      && Contains(name, u)
  {
    TrimShape(name);
    var trimmed := Trim(name);
    assert OccursAt(name, trimmed, |name| - |TrimStart(name)|);
    if |trimmed| < MIN_LENGTH || |trimmed| > MAX_LENGTH then None else Some(trimmed)
  }

  /** White space around a name never decides the length check: a name of only white space is
      refused, and one of 3 to 40 characters that neither starts nor ends with white space is
      sent as it is. */
  lemma CheckUsernameTrimmed(name: string)
    ensures (forall i :: 0 <= i < |name| ==> IsSpace(name[i])) ==> CheckUsername(name).None?
    ensures MIN_LENGTH <= |name| <= MAX_LENGTH && !IsSpace(name[0]) && !IsSpace(name[|name| - 1]) ==>
      CheckUsername(name) == Some(name)
  {
    BlankIffAllSpace(name);
    TrimShape(name);
    if MIN_LENGTH <= |name| && !IsSpace(name[0]) && !IsSpace(name[|name| - 1]) {
      TrimStartShape(name);
      TrimEndShape(TrimStart(name));
    }
  }

  datatype UsernameState = UsernameState(newUsername: string, loading: bool, error: string, success: string)

  class UsernameScreen {
    var newUsername: string
    var loading: bool
    var error: string
    var success: string

    function State(): UsernameState
      reads this
    {
      UsernameState(newUsername, loading, error, success)
    }

    /** The input starts from `user?.username || ''`. */
    constructor (store: Store)
      ensures State() == UsernameState(if store.user.Some? then store.user.value.username else "", false, "", "")
    {
      newUsername := if store.user.Some? then store.user.value.username else "";
      loading := false;
      error := "";
      success := "";
    }

    method SetUsername(value: string)
      modifies this
      ensures State() == old(State()).(newUsername := value)
    {
      newUsername := value;
    }

    /** The first half of `handleSubmit`: both messages are cleared; a name of the wrong length
        shows the length error and sends nothing, any other starts loading and sends the trimmed
        name. */
    method Submit() returns (request: Option<string>)
      requires !loading
      modifies this
      ensures request == CheckUsername(old(newUsername))
      ensures request.None? ==> State() == old(State()).(error := ERROR_LENGTH, success := "")
      ensures request.Some? ==> State() == old(State()).(error := "", success := "", loading := true)
    {
      error, success := "", "";
      request := CheckUsername(newUsername);
      if request.None? {
        error := ERROR_LENGTH;
        return;
      }
      loading := true;
    }

    /** The rest of `handleSubmit`: on success the reloaded user is stored and the success text
        shown; a refusal or a throw (also of the reload) shows the server's message or the default
        one. Loading ends. */
    method SubmitDone(store: Store, res: Outcome<()>, me: Outcome<User>)
      modifies this, store
      ensures Succeeded(res) && me.Answered? ==>
        store.State() == old(store.State()).(user := me.res.data)
        && State() == old(State()).(success := UPDATED, loading := false)
      ensures Succeeded(res) && me.Threw? ==>
        store.State() == old(store.State()) && State() == old(State()).(error := ErrorText(me, ERROR_CHANGE), loading := false)
      ensures !Succeeded(res) ==>
        store.State() == old(store.State()) && State() == old(State()).(error := ErrorText(res, ERROR_CHANGE), loading := false)
    {
      if !Succeeded(res) {
        error := ErrorText(res, ERROR_CHANGE);
      } else if me.Threw? {
        error := ErrorText(me, ERROR_CHANGE);
      } else {
        store.SetUser(me.res.data);
        success := UPDATED;
      }
      loading := false;
    }
  }
}
