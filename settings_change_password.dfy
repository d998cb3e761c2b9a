/**
 * pages/SettingsChangePassword.tsx: changing the password. The new password must be typed twice
 * the same; the server answers with fresh tokens, which replace the session's. Each of the three
 * fields has its own show/hide toggle. The submit button is disabled while loading.
 */
module SettingsChangePassword {
  import opened Common
  import opened AuthStore
  import opened Forms

  const ERROR_MISMATCH := "Yeni şifreler eşleşmiyor"
  const ERROR_CHANGE := "Şifre değiştirilemedi"
  const UPDATED := "Şifre güncellendi"

  /** `pwdForm`, which is also the request body of `changePassword`. */
  datatype PasswordForm = PasswordForm(oldPassword: string, newPassword: string, confirmPassword: string)

  const EMPTY_FORM := PasswordForm("", "", "")

  datatype Field = OldField | NewField | ConfirmField

  /** `pwdVisible` (`{ old, neu, confirm }`): whether each field shows its text. */
  datatype Visibility = Visibility(oldShown: bool, newShown: bool, confirmShown: bool)

  function Shown(v: Visibility, f: Field): bool
  {
    match f
    case OldField => v.oldShown
    case NewField => v.newShown
    case ConfirmField => v.confirmShown
  }

  /** The eye button of field `f`: `{ ...v, [key]: !v[key] }`. */
  function Toggled(v: Visibility, f: Field): (r: Visibility)
    ensures Shown(r, f) == !Shown(v, f)
    ensures forall g :: g != f ==> Shown(r, g) == Shown(v, g)
  {
    match f
    case OldField => v.(oldShown := !v.oldShown)
    case NewField => v.(newShown := !v.newShown)
    case ConfirmField => v.(confirmShown := !v.confirmShown)
  }

  /** Pressing the same eye twice puts the field back as it was. */
  lemma ToggleTwice(v: Visibility, f: Field)
    ensures Toggled(Toggled(v, f), f) == v
  {
  }

  /** `{ ...pwdForm, [key]: value }` */
  function WithField(form: PasswordForm, f: Field, value: string): (r: PasswordForm)
  {
    match f
    case OldField => form.(oldPassword := value)
    case NewField => form.(newPassword := value)
    case ConfirmField => form.(confirmPassword := value)
  }

  datatype PasswordState = PasswordState(form: PasswordForm, visible: Visibility, loading: bool, error: string, success: string)

  class PasswordScreen {
    var form: PasswordForm
    var visible: Visibility
    var loading: bool
    var error: string
    var success: string

    function State(): PasswordState
      reads this
    {
      PasswordState(form, visible, loading, error, success)
    }

    constructor ()
      ensures State() == PasswordState(EMPTY_FORM, Visibility(false, false, false), false, "", "")
    {
      form := EMPTY_FORM;
      visible := Visibility(false, false, false);
      loading := false;
      error := "";
      success := "";
    }

    /** A field's `onChange`. */
    method SetField(f: Field, value: string)
      modifies this
      ensures State() == old(State()).(form := WithField(old(form), f, value))
    {
      form := WithField(form, f, value);
    }

    /** A field's eye button: only that field's visibility flips. */
    method Toggle(f: Field)
      modifies this
      ensures State() == old(State()).(visible := Toggled(old(visible), f))
    {
      visible := Toggled(visible, f);
    }

    /** The first half of `handleSubmit`: both messages are cleared; two different new passwords
        show the mismatch error and send nothing, otherwise the whole form is sent. */
    method Submit() returns (request: Option<PasswordForm>)
      requires !loading
      modifies this
      ensures request.Some? <==> old(form.newPassword) == old(form.confirmPassword)
      ensures request.None? ==> State() == old(State()).(error := ERROR_MISMATCH, success := "")
      ensures request.Some? ==> request.value == old(form) && State() == old(State()).(error := "", success := "", loading := true)
    {
      error, success := "", "";
      if form.newPassword != form.confirmPassword {
        error := ERROR_MISMATCH;
        return None;
      }
      loading := true;
      return Some(form);
    }

    /** The rest of `handleSubmit`. Only a successful response that carries data replaces the
        tokens; then the form is emptied and the success text shown. Anything else shows the
        server's message or the default one and keeps the form. Loading ends. */
    method SubmitDone(store: Store, res: Outcome<Tokens>)
      modifies this, store
      ensures Succeeded(res) && res.res.data.Some? ==>
        var t := res.res.data.value;
        && store.State() == old(store.State()).(accessToken := Some(t.accessToken), refreshToken := Some(t.refreshToken))
        && State() == old(State()).(success := OrDefault(res.res.message, UPDATED), form := EMPTY_FORM, loading := false)
      ensures !(Succeeded(res) && res.res.data.Some?) ==>
        && store.State() == old(store.State())
        && State() == old(State()).(error := ErrorText(res, ERROR_CHANGE), loading := false)
    {
      if Succeeded(res) && res.res.data.Some? {
        var t := res.res.data.value;
        store.SetAuth(t.accessToken, t.refreshToken);
        success, form := OrDefault(res.res.message, UPDATED), EMPTY_FORM;
      } else {
        error := ErrorText(res, ERROR_CHANGE);
      }
      loading := false;
    }
  }
}
