/**
 * pages/OTPVerify.tsx: entering the six-digit code, one box per digit or by pasting, verifying
 * it against the sign-up or the sign-in endpoint, the two-minute resend countdown and the resend
 * request.
 *
 * `identifier`, `type` and `password` come from the navigation state and do not change; the code
 * boxes are the sequence `code`. Each firing of the one-second interval is a `Tick`. The awaited
 * calls are outcomes handed to the second half of each handler; the session store is the
 * `AuthStore.Store` they write to. Focus moves between the boxes are not modelled.
 */
module OtpVerify {
  import opened Common
  import opened JsString
  import opened Types
  import opened AuthStore
  import opened Forms

  const CODE_LENGTH := 6
  /** Seconds before a code may be requested again. */
  const RESEND_SECONDS := 120

  const ERROR_CODE := "Kod hatali"
  const ERROR_RESEND := "Kod yeniden gönderilemedi"
  const ERROR_GO_BACK := "Kodu yeniden göndermek için lütfen giriş sayfasına dönün."

  datatype Endpoint = VerifySignUp | SignInVerify

  datatype VerifyRequest = VerifyRequest(endpoint: Endpoint, identifier: Option<string>, code: string)

  /** `signInInit({ identifier, password })` */
  datatype SignInRequest = SignInRequest(identifier: string, password: string)

  /** `type === 'signup'` picks the sign-up endpoint; any other type verifies a sign-in. */
  function EndpointFor(kind: Option<string>): Endpoint
  {
    if kind == Some("signup") then VerifySignUp else SignInVerify
  }

  // ---------------------------------------------------------------- the code boxes

  /** `value.slice(-1)`: the last character, or nothing. */
  function LastChar(value: string): (r: string)
    ensures |r| <= 1
    ensures r == [] <==> value == []
    ensures r != [] ==> r[0] == value[|value| - 1]
  {
    if value == [] then [] else [value[|value| - 1]]
  }

  /** `text.split('')`: one box per character. */
  function Chars(text: string): (r: seq<string>)
    ensures |r| == |text|
    ensures forall i :: 0 <= i < |text| ==> r[i] == [text[i]]
  {
    seq(|text|, i requires 0 <= i < |text| => [text[i]])
  }

  /** `text.replace(/\D/g, '').slice(0, 6)`: the first six digits of a paste. */
  function PastedDigits(text: string): (r: string)
    ensures |r| <= CODE_LENGTH && AllDigits(r)
    ensures |r| <= |DigitsOnly(text)| && r == DigitsOnly(text)[..|r|]
    ensures |r| < CODE_LENGTH ==> r == DigitsOnly(text)
  {
    Prefix(DigitsOnly(text), CODE_LENGTH)
  }

  /** At most six boxes, each empty or holding one digit. */
  predicate WellFormedCode(code: seq<string>)
  {
    |code| <= CODE_LENGTH && forall i :: 0 <= i < |code| ==> |code[i]| <= 1 && AllDigits(code[i])
  }

  /** With boxes of one character at most, the joined code is as long as there are filled boxes;
      it reaches six characters exactly when there are six boxes and all are filled. */
  lemma CodeComplete(code: seq<string>)
    requires WellFormedCode(code)
    ensures |Join(code, "")| >= CODE_LENGTH <==> |code| == CODE_LENGTH && forall i :: 0 <= i < |code| ==> code[i] != []
  {
    JoinShortParts(code);
  }

  lemma {:induction false} JoinShortParts(p: seq<string>)
    requires forall i :: 0 <= i < |p| ==> |p[i]| <= 1
    ensures |Join(p, "")| <= |p|
    ensures |Join(p, "")| == |p| <==> forall i :: 0 <= i < |p| ==> p[i] != []
  {
    if |p| > 1 {
      JoinShortParts(p[1..]);
      assert Join(p, "") == p[0] + "" + Join(p[1..], "");
      if p[0] != [] && forall i :: 0 <= i < |p[1..]| ==> p[1..][i] != [] {
        forall i | 0 <= i < |p| ensures p[i] != [] {
          if i > 0 {
            assert p[i] == p[1..][i - 1];
          }
        }
      }
    }
  }

  /** The boxes a paste fills give back exactly the pasted digits. */
  lemma {:induction false} PasteJoins(text: string)
    ensures Join(Chars(text), "") == text
  {
    if |text| > 1 {
      PasteJoins(text[1..]);
      assert Chars(text)[1..] == Chars(text[1..]);
      assert text == [text[0]] + text[1..];
    }
  }

  // ---------------------------------------------------------------- the countdown text

  /** `Math.floor(timer / 60)` and `(timer % 60).toString().padStart(2, '0')` around a colon. */
  function TimerText(timer: nat): string
  {
    NatToString(timer / 60) + ":" + PadStart2(NatToString(timer % 60))
  }

  /** The countdown text reads back as the number of seconds left: minutes, a colon, and the
      seconds as exactly two digits. */
  lemma TimerTextReadsBack(timer: nat)
    ensures var parts := Split(TimerText(timer), ':');
      && |parts| == 2 && AllDigits(parts[0]) && AllDigits(parts[1]) && |parts[1]| == 2
      && DecimalValue(parts[0]) * 60 + DecimalValue(parts[1]) == timer
  {
    var m := NatToString(timer / 60);
    var s := PadStart2(NatToString(timer % 60));
    TwoDigits(timer % 60);
    assert TimerText(timer) == m + (":" + s);
    SplitAt(m, ":" + s, ':');
    assert (":" + s)[1..] == s;
    SplitWithoutSeparator(s, ':');
  }

  /** A number of seconds below 60, padded to two characters, is two digits of that value. */
  lemma TwoDigits(n: nat)
    requires n < 60
    ensures var s := PadStart2(NatToString(n));
      |s| == 2 && AllDigits(s) && DecimalValue(s) == n
  {
    var s := PadStart2(NatToString(n));
    if n < 10 {
      assert s == "0" + [DigitChar(n)];
      assert s[..1] == "0";
      assert DecimalValue(s[..1]) == 10 * DecimalValue(s[..1][..0]) + 0;
    } else {
      assert NatToString(n) == NatToString(n / 10) + [DigitChar(n % 10)];
      assert |NatToString(n / 10)| == 1;
    }
  }

  // ---------------------------------------------------------------- the screen

  datatype OtpState = OtpState(code: seq<string>, error: string, timer: int, loading: bool)

  class OtpScreen {
    const identifier: Option<string>
    const kind: Option<string>
    const password: Option<string>
    var code: seq<string>
    var error: string
    var timer: int
    var loading: bool

    function State(): OtpState
      reads this
    {
      OtpState(code, error, timer, loading)
    }

    /** The boxes are always well formed and the countdown never negative. */
    ghost predicate Valid()
      reads this
    {
      WellFormedCode(code) && timer >= 0
    }

    constructor (identifier: Option<string>, kind: Option<string>, password: Option<string>)
      ensures Valid()
      ensures this.identifier == identifier && this.kind == kind && this.password == password
      ensures State() == OtpState(["", "", "", "", "", ""], "", RESEND_SECONDS, false)
    {
      this.identifier := identifier;
      this.kind := kind;
      this.password := password;
      code := ["", "", "", "", "", ""];
      error := "";
      timer := RESEND_SECONDS;
      loading := false;
    }

    /** One firing of the interval, which runs only with a truthy identifier (an empty one starts
        no interval): down by one, never below 0. */
    method Tick()
      requires Valid() && Truthy(identifier)
      modifies this
      ensures Valid()
      ensures State() == old(State()).(timer := if old(timer) > 0 then old(timer) - 1 else 0)
    {
      timer := if timer > 0 then timer - 1 else 0;
    }

    /** `handleChange(index, value)`: anything but digits is ignored; otherwise the box keeps the
        last character typed and the other boxes stay as they are. */
    method Change(index: nat, value: string)
      requires Valid() && index < |code|
      modifies this
      ensures Valid()
      ensures AllDigits(value) ==> State() == old(State()).(code := old(code)[index := LastChar(value)])
      ensures !AllDigits(value) ==> State() == old(State())
    {
      if !AllDigits(value) {
        return;
      }
      code := code[index := LastChar(value)];
    }

    /** `handlePaste`: the first six digits of the pasted text fill one box each. `padEnd(6, '')`
        pads with nothing, so fewer digits leave fewer boxes. A paste without digits does
        nothing. */
    method Paste(text: string)
      requires Valid()
      modifies this
      ensures Valid()
      ensures PastedDigits(text) == [] ==> State() == old(State())
      ensures PastedDigits(text) != [] ==> State() == old(State()).(code := Chars(PastedDigits(text)))
      ensures PastedDigits(text) != [] ==> Join(code, "") == PastedDigits(text)
    {
      var digits := PastedDigits(text);
      if digits == [] {
        return;
      }
      code := Chars(digits);
      PasteJoins(digits);
    }

    /** The first half of `handleVerify` (the button is disabled while loading): a joined code
        shorter than six characters does nothing; otherwise loading starts, the error is cleared
        and the code goes to the endpoint `type` selects. */
    method Verify() returns (request: Option<VerifyRequest>)
      requires Valid() && !loading
      modifies this
      ensures Valid()
      ensures request.Some? <==> |old(code)| == CODE_LENGTH && forall i :: 0 <= i < |old(code)| ==> old(code)[i] != []
      ensures request.None? ==> State() == old(State())
      ensures request.Some? ==>
        && request.value == VerifyRequest(EndpointFor(kind), identifier, Join(old(code), ""))
        && State() == old(State()).(loading := true, error := "")
    {
      CodeComplete(code);
      var finalCode := Join(code, "");
      if |finalCode| < CODE_LENGTH {
        return None;
      }
      loading := true;
      error := "";
      return Some(VerifyRequest(EndpointFor(kind), identifier, finalCode));
    }

    /** The rest of `handleVerify`. Tokens in a successful response go to the store and the user
        is fetched; a fetched user is stored and the page goes home (`home`). A refused code shows
        the server's message; a throw, including a success without tokens, shows it or the
        default text. A user fetch that resolves without success leaves no error. Loading ends in
        every case. */
    method VerifyDone(store: Store, res: Outcome<Tokens>, me: Outcome<User>) returns (home: bool)
      requires Valid()
      modifies this, store
      ensures Valid()
      ensures home <==> Succeeded(res) && res.res.data.Some? && Succeeded(me)
      ensures !Succeeded(res) || res.res.data.None? ==>
        && store.State() == old(store.State())
        && State() == old(State()).(loading := false,
             error := if res.Answered? && res.res.success then ERROR_CODE      // reading tokens of no data throws
                      else if res.Answered? then res.res.message
                      else ErrorText(res, ERROR_CODE))
      ensures Succeeded(res) && res.res.data.Some? ==>
        var t := res.res.data.value;
        && store.State() == old(store.State()).(accessToken := Some(t.accessToken), refreshToken := Some(t.refreshToken),
             user := if Succeeded(me) then me.res.data else old(store.user))
        && State() == old(State()).(loading := false, error := if me.Threw? then ErrorText(me, ERROR_CODE) else old(error))
    {
      home := false;
      if res.Threw? {
        error := ErrorText(res, ERROR_CODE);
      } else if !res.res.success {
        error := res.res.message;
      } else if res.res.data.None? {
        error := ERROR_CODE;
      } else {
        var t := res.res.data.value;
        store.SetAuth(t.accessToken, t.refreshToken);
        if me.Threw? {
          error := ErrorText(me, ERROR_CODE);
        } else if me.res.success {
          store.SetUser(me.res.data);
          home := true;
        }
      }
      loading := false;
    }

    /** The first half of `handleResend` (the button is disabled while the countdown runs): with
        time left or no identifier nothing happens. Otherwise the error is cleared; only a sign-in
        with a password asks for a new code, any other case tells the user to go back. */
    method Resend() returns (request: Option<SignInRequest>)
      requires Valid()
      modifies this
      ensures Valid()
      ensures old(timer) > 0 || !Truthy(identifier) ==> request.None? && State() == old(State())
      ensures old(timer) == 0 && Truthy(identifier) ==>
        if kind == Some("signin") && password.Some? && password != Some("") then
          request == Some(SignInRequest(identifier.value, password.value)) && State() == old(State()).(error := "")
        else
          request.None? && State() == old(State()).(error := ERROR_GO_BACK)
    {
      if timer > 0 || !Truthy(identifier) {
        return None;
      }
      if kind == Some("signin") && password.Some? && password != Some("") {
        error := "";
        return Some(SignInRequest(identifier.value, password.value));
      }
      error := ERROR_GO_BACK;
      return None;
    }

    /** The end of a resend request: success restarts the two-minute countdown, anything else
        shows the server's message or the default text. */
    method ResendDone(o: Outcome<()>)
      requires Valid()
      modifies this
      ensures Valid()
      ensures Succeeded(o) ==> State() == old(State()).(timer := RESEND_SECONDS)
      ensures !Succeeded(o) ==> State() == old(State()).(error := ErrorText(o, ERROR_RESEND))
    {
      if Succeeded(o) {
        timer := RESEND_SECONDS;
      } else {
        error := ErrorText(o, ERROR_RESEND);
      }
    }
  }
}
