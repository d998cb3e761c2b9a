/**
 * pages/SettingsChangeEmail.tsx: changing the account's e-mail address in two steps. "Send"
 * checks the new address and asks for a code to be mailed to it; "verify" sends the address and
 * the code, and on success reloads the user.
 *
 * The current address is the store's `user?.email || ''`. Each handler is split at its first
 * await: the first half returns the request it issues, the second takes the outcomes. The send
 * button and the reset link are disabled while loading.
 */
module SettingsChangeEmail {
  import opened Common
  import opened JsString
  import opened Types
  import opened AuthStore
  import opened Forms

  const ERROR_REQUIRED := "Yeni e-posta gerekli"
  const ERROR_SAME := "Yeni e-posta mevcut e-posta ile aynı olamaz"
  const ERROR_SEND := "Kod gönderilemedi"
  const ERROR_VERIFY := "Kod doğrulanmadı"
  const SENT := "Kod e-postaya gönderildi"
  const UPDATED := "E-posta güncellendi"

  datatype Step = InputStep | VerifyStep

  /** The form object `{ newEmail, code }`. */
  datatype EmailForm = EmailForm(newEmail: string, code: string)

  /** `changeEmailVerify({ newEmail, code })` */
  datatype VerifyRequest = VerifyRequest(newEmail: string, code: string)

  /** `user?.email || ''` */
  function CurrentEmail(user: Option<User>): string
  {
    if user.Some? then user.value.email else ""
  }

  /** The guards of `handleSend`. */
  datatype EmailCheck = BlankEmail | SameEmail | SendTo(email: string)

  function CheckNewEmail(newEmail: string, current: string): (r: EmailCheck)
    ensures r == BlankEmail <==> forall i :: 0 <= i < |newEmail| ==> IsSpace(newEmail[i])
    ensures r == SameEmail <==> Trim(newEmail) != [] && current != [] && ToLower(Trim(newEmail)) == ToLower(current)
    ensures r.SendTo? ==> r.email == Trim(newEmail) && r.email != [] && !IsSpace(r.email[0]) && !IsSpace(r.email[|r.email| - 1])
  {
    BlankIffAllSpace(newEmail);
    TrimShape(newEmail);
    var trimmed := Trim(newEmail);
    if trimmed == [] then BlankEmail
    else if current != [] && ToLower(trimmed) == ToLower(current) then SameEmail
    else SendTo(trimmed)
  }

  /** The comparison with the current address ignores letter case: lower-casing the typed
      address gives the same verdict, and lower-cases the address that would be sent. */
  lemma CheckIgnoresCase(newEmail: string, current: string)
    ensures CheckNewEmail(ToLower(newEmail), current) ==
      match CheckNewEmail(newEmail, current)
      case SendTo(e) => SendTo(ToLower(e))
      case other => other
  {
    TrimLower(newEmail);
    CaseFolds(Trim(newEmail));
    BlankIffAllSpace(newEmail);
    BlankIffAllSpace(ToLower(newEmail));
  }

  datatype EmailState = EmailState(step: Step, form: EmailForm, loading: bool, error: string, success: string)

  class EmailScreen {
    var step: Step
    var form: EmailForm
    var loading: bool
    var error: string
    var success: string

    function State(): EmailState
      reads this
    {
      EmailState(step, form, loading, error, success)
    }

    constructor (store: Store)
      ensures State() == EmailState(InputStep, EmailForm(CurrentEmail(store.user), ""), false, "", "")
    {
      step := InputStep;
      form := EmailForm(CurrentEmail(store.user), "");
      loading := false;
      error := "";
      success := "";
    }

    /** The address input's `onChange`. */
    method SetNewEmail(value: string)
      modifies this
      ensures State() == old(State()).(form := old(form).(newEmail := value))
    {
      form := form.(newEmail := value);
    }

    /** The code input's `onChange`: only the digits are kept. */
    method SetCode(value: string)
      modifies this
      ensures State() == old(State()).(form := old(form).(code := DigitsOnly(value)))
      ensures AllDigits(form.code)
    {
      form := form.(code := DigitsOnly(value));
    }

    /** The first half of `handleSend`. A blank address or the current one is refused with no
        request and the step left as it was; otherwise the step moves to verify before the
        request for the trimmed address goes out. */
    method Send(store: Store) returns (request: Option<string>)
      requires !loading
      modifies this
      ensures var check := CheckNewEmail(old(form.newEmail), CurrentEmail(store.user));
        && (check == BlankEmail ==> request.None? && State() == old(State()).(error := ERROR_REQUIRED, success := ""))
        && (check == SameEmail ==> request.None? && State() == old(State()).(error := ERROR_SAME, success := ""))
        && (check.SendTo? ==>
              request == Some(check.email)
              && State() == old(State()).(error := "", success := "", loading := true, step := VerifyStep))
    {
      error, success := "", "";
      match CheckNewEmail(form.newEmail, CurrentEmail(store.user)) {
        case BlankEmail =>
          error := ERROR_REQUIRED;
          return None;
        case SameEmail =>
          error := ERROR_SAME;
          return None;
        case SendTo(email) =>
          loading, step := true, VerifyStep;
          return Some(email);
      }
    }

    /** The rest of `handleSend`: success shows the server's text or the default one; a refusal
        or a throw shows the error and goes back to the address step. Loading ends. */
    method SendDone(o: Outcome<()>)
      modifies this
      ensures Succeeded(o) ==> State() == old(State()).(success := OrDefault(o.res.message, SENT), loading := false)
      ensures !Succeeded(o) ==> State() == old(State()).(error := ErrorText(o, ERROR_SEND), step := InputStep, loading := false)
    {
      if Succeeded(o) {
        success := OrDefault(o.res.message, SENT);
      } else {
        error, step := ErrorText(o, ERROR_SEND), InputStep;
      }
      loading := false;
    }

    /** The first half of `handleVerify`: the trimmed address and code are sent. */
    method Verify() returns (request: VerifyRequest)
      requires !loading
      modifies this
      ensures request == VerifyRequest(Trim(old(form.newEmail)), Trim(old(form.code)))
      ensures State() == old(State()).(error := "", success := "", loading := true)
    {
      error, success, loading := "", "", true;
      return VerifyRequest(Trim(form.newEmail), Trim(form.code));
    }

    /** The rest of `handleVerify`. On success the user is fetched and stored, the step returns to
        the address and the form restarts from the new address with no code. A refusal, a throw
        or a throwing user fetch shows the error and keeps the verify step. Loading ends. */
    method VerifyDone(store: Store, res: Outcome<()>, me: Outcome<User>)
      modifies this, store
      ensures Succeeded(res) && me.Answered? ==>
        && store.State() == old(store.State()).(user := me.res.data)
        && State() == old(State()).(success := OrDefault(res.res.message, UPDATED), step := InputStep,
             form := EmailForm(CurrentEmail(me.res.data), ""), loading := false)
      ensures Succeeded(res) && me.Threw? ==>
        store.State() == old(store.State()) && State() == old(State()).(error := ErrorText(me, ERROR_VERIFY), loading := false)
      ensures !Succeeded(res) ==>
        store.State() == old(store.State()) && State() == old(State()).(error := ErrorText(res, ERROR_VERIFY), loading := false)
    {
      if !Succeeded(res) {
        error := ErrorText(res, ERROR_VERIFY);
      } else if me.Threw? {
        error := ErrorText(me, ERROR_VERIFY);
      } else {
        store.SetUser(me.res.data);
        Updated(OrDefault(res.res.message, UPDATED), CurrentEmail(me.res.data));
      }
      loading := false;
    }

    method Updated(text: string, email: string)
      modifies this
      ensures State() == old(State()).(success := text, step := InputStep, form := EmailForm(email, ""))
    {
      success, step, form := text, InputStep, EmailForm(email, "");
    }

    /** The "new address" link: back to the address step with the current address, no code and
        no messages. */
    method Reset(store: Store)
      requires !loading
      modifies this
      ensures State() == EmailState(InputStep, EmailForm(CurrentEmail(store.user), ""), false, "", "")
    {
      step, form := InputStep, EmailForm(CurrentEmail(store.user), "");
      error, success := "", "";
    }
  }
}
