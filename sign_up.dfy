/**
 * pages/SignUp.tsx: creating an account. The password must have at least 8 characters; a
 * successful sign-up goes on to the code screen for the new address. The submit button is
 * disabled while loading.
 */
module SignUp {
  import opened Common
  import opened Forms
  import opened OtpVerify

  const MIN_PASSWORD := 8

  const ERROR_SHORT := "Parol kamida 8 ta belgidan iborat bo'lishi kerak"
  const ERROR_FAILED := "Xatolik yuz berdi"

  /** `formData`, which is also the request body of `signUp`. */
  datatype SignUpForm = SignUpForm(firstname: string, lastname: string, username: string, email: string, password: string)

  const EMPTY_FORM := SignUpForm("", "", "", "", "")

  /** The `name` attribute of an input. */
  datatype Field = Firstname | Lastname | Username | Email | Password

  function FieldValue(form: SignUpForm, f: Field): string
  {
    match f
    case Firstname => form.firstname
    case Lastname => form.lastname
    case Username => form.username
    case Email => form.email
    case Password => form.password
  }

  /** `{ ...prev, [e.target.name]: e.target.value }` */
  function WithField(form: SignUpForm, f: Field, value: string): (r: SignUpForm)
    ensures FieldValue(r, f) == value
    ensures forall g :: g != f ==> FieldValue(r, g) == FieldValue(form, g)
  {
    match f
    case Firstname => form.(firstname := value)
    case Lastname => form.(lastname := value)
    case Username => form.(username := value)
    case Email => form.(email := value)
    case Password => form.(password := value)
  }

  /** Where a successful sign-up navigates: `/verify` with `{ identifier, type }`. */
  datatype VerifyRoute = VerifyRoute(identifier: string, kind: string)

  /** The code screen opened after a sign-up checks the code with the sign-up endpoint, for the
      address that was signed up. */
  lemma SignUpVerifies(request: SignUpForm)
    ensures var route := VerifyRoute(request.email, "signup");
      EndpointFor(Some(route.kind)) == VerifySignUp && route.identifier == request.email
  {
  }

  datatype SignUpState = SignUpState(form: SignUpForm, error: string, loading: bool)

  class SignUpScreen {
    var form: SignUpForm
    var error: string
    var loading: bool

    function State(): SignUpState
      reads this
    {
      SignUpState(form, error, loading)
    }

    constructor ()
      ensures State() == SignUpState(EMPTY_FORM, "", false)
    {
      form := EMPTY_FORM;
      error := "";
      loading := false;
    }

    /** `handleChange`: only the named field changes. */
    method Change(f: Field, value: string)
      modifies this
      ensures State() == old(State()).(form := WithField(old(form), f, value))
    {
      form := WithField(form, f, value);
    }

    /** The first half of `handleSubmit`: a password shorter than 8 characters shows the error
        and sends nothing; 8 or more starts loading and sends the form. */
    method Submit() returns (request: Option<SignUpForm>)
      requires !loading
      modifies this
      ensures request.Some? <==> |old(form.password)| >= MIN_PASSWORD
      ensures request.None? ==> State() == old(State()).(error := ERROR_SHORT)
      ensures request.Some? ==> request.value == old(form) && State() == old(State()).(error := "", loading := true)
    {
      error := "";
      if |form.password| < MIN_PASSWORD {
        error := ERROR_SHORT;
        return None;
      }
      loading := true;
      return Some(form);
    }

    /** The rest of `handleSubmit`, for the form that was sent: success goes to the code screen
        for its address; a refusal shows the server's message as it is, a throw the server's
        message or the default one. Loading ends in every case. */
    method SubmitDone(request: SignUpForm, o: Outcome<()>) returns (route: Option<VerifyRoute>)
      modifies this
      ensures Succeeded(o) ==> route == Some(VerifyRoute(request.email, "signup")) && State() == old(State()).(loading := false)
      ensures o.Answered? && !o.res.success ==> route.None? && State() == old(State()).(error := o.res.message, loading := false)
      ensures o.Threw? ==> route.None? && State() == old(State()).(error := ErrorText(o, ERROR_FAILED), loading := false)
    {
      route := None;
      if Succeeded(o) {
        route := Some(VerifyRoute(request.email, "signup"));
      } else if o.Answered? {
        error := o.res.message;
      } else {
        error := ErrorText(o, ERROR_FAILED);
      }
      loading := false;
    }
  }
}
