/**
 * The login form (src/Login.js): its `error` and `successMessage` state and the
 * submit handler. The handler's network answer and the geolocation answer are
 * inputs; everything it does is recorded, in order, as a sequence of effects,
 * and the form's new state is that sequence replayed on the old state.
 */
module Login {
  import opened Browser
  import Validation

  const InvalidEmailMessage := "Invalid email format."
  const InvalidPasswordMessage :=
    "Password must be at least 8 characters, include one special character, and one number."
  const LoginFailedMessage := "Login failed. Please check your credentials."
  const LocationDeniedMessage := "Location access denied. Please enable it in your browser settings."
  const LocationUnavailableMessage := "Unable to retrieve your location. Please try again later."
  const GeolocationUnsupportedMessage := "Geolocation is not supported by this browser."
  const LoginSuccessMessage := "Login Successful!"
  const Role := "super_admin"
  const DashboardPath := "/dashboard"

  /** The geolocation error code for a refused permission. */
  const PermissionDenied := 1

  /**
   * The decoded body of an ok response. `Body(token)` holds what `data.token`
   * converts to as a string (None where it is undefined); `Unreadable` is a
   * body that `response.json()` or the destructuring of `data` throws on.
   */
  datatype LoginBody = Body(token: Option<string>) | Unreadable(message: string)

  /** The answer to the login request: ok with a body, a non-ok status, or a rejected fetch. */
  datatype LoginResponse = OkResponse(body: LoginBody) | ErrorStatus | FetchFailed(message: string)

  /**
   * The answer to the geolocation step: no `navigator.geolocation`, the success
   * callback with the serialised coordinates, the error callback with its code,
   * or no callback run (yet).
   */
  datatype GeoOutcome = Unsupported | Located(coordinates: string) | LocateFailed(code: int) | Pending

  datatype Effect = SetError(message: string) | SetSuccessMessage(message: string) | Page(action: Action)

  /** What the submit handler can change: the form's two messages and the page. */
  datatype View = View(error: string, successMessage: string, host: HostState)

  function Step(v: View, e: Effect): View {
    match e
    case SetError(m) => v.(error := m)
    case SetSuccessMessage(m) => v.(successMessage := m)
    case Page(a) => v.(host := Perform(v.host, a))
  }

  /** The view after the effects, applied first to last. */
  function Replay(v: View, effects: seq<Effect>): View
    decreases |effects|
  {
    if effects == [] then v
    else Step(Replay(v, effects[..|effects| - 1]), effects[|effects| - 1])
  }

  lemma ReplaySnoc(v: View, effects: seq<Effect>, e: Effect)
    ensures Replay(v, effects + [e]) == Step(Replay(v, effects), e)
  {
    assert (effects + [e])[..|effects|] == effects;
  }

  /** Replaying two runs of effects one after the other is replaying their concatenation. */
  lemma {:induction false} ReplayAppend(v: View, a: seq<Effect>, b: seq<Effect>)
    ensures Replay(v, a + b) == Replay(Replay(v, a), b)
    decreases |b|
  {
    if b == [] {
      assert a + b == a;
    } else {
      var b' := b[..|b| - 1];
      var e := b[|b| - 1];
      assert b == b' + [e];
      assert a + b == (a + b') + [e];
      ReplaySnoc(v, a + b', e);
      ReplayAppend(v, a, b');
      ReplaySnoc(Replay(v, a), b', e);
    }
  }

  lemma ReplayTwo(v: View, a: Effect, b: Effect)
    ensures Replay(v, [a, b]) == Step(Step(v, a), b)
  {
    ReplaySnoc(v, [], a);
    ReplaySnoc(v, [a], b);
  }

  lemma ReplayThree(v: View, a: Effect, b: Effect, c: Effect)
    ensures Replay(v, [a, b, c]) == Step(Step(Step(v, a), b), c)
  {
    ReplayTwo(v, a, b);
    ReplaySnoc(v, [a, b], c);
    assert [a, b] + [c] == [a, b, c];
  }

  lemma ReplayFour(v: View, a: Effect, b: Effect, c: Effect, d: Effect)
    ensures Replay(v, [a, b, c, d]) == Step(Step(Step(Step(v, a), b), c), d)
  {
    ReplayThree(v, a, b, c);
    ReplaySnoc(v, [a, b, c], d);
    assert [a, b, c] + [d] == [a, b, c, d];
  }

  /** `String(data.token)` as `localStorage.setItem` stores it. */
  function TokenText(token: Option<string>): (r: string)
    ensures token.None? ==> r == "undefined"
    ensures token.Some? ==> r == token.value
    ensures r != "undefined" ==> token == Some(r)
  {
    if token.Some? then token.value else "undefined"
  }

  /** The geolocation step and whichever callback answers it. */
  function GeolocationEffects(geo: GeoOutcome): (r: seq<Effect>)
    ensures r != [] && (r[0] == Page(GetCurrentPosition) <==> !geo.Unsupported?)
    ensures forall i | 0 < i < |r| :: r[i] != Page(GetCurrentPosition)
    ensures r[|r| - 1] == Page(Navigate(DashboardPath)) <==> geo != Pending
    ensures forall i | 0 <= i < |r| - 1 :: !(r[i].Page? && r[i].action.Navigate?)
    ensures forall i | 0 <= i < |r| :: !IsLoginRequest(r[i])
  {
    match geo
    case Unsupported =>
      [SetError(GeolocationUnsupportedMessage), Page(Navigate(DashboardPath))]
    case Located(coordinates) =>
      [Page(GetCurrentPosition), Page(SetItem("geolocation", coordinates)),
       SetSuccessMessage(LoginSuccessMessage), Page(Navigate(DashboardPath))]
    case LocateFailed(code) =>
      [Page(GetCurrentPosition),
       SetError(if code == PermissionDenied then LocationDeniedMessage else LocationUnavailableMessage),
       Page(Navigate(DashboardPath))]
    case Pending =>
      [Page(GetCurrentPosition)]
  }

  /** What the handler does once the login request has been issued. */
  function ResponseEffects(response: LoginResponse, geo: GeoOutcome): (r: seq<Effect>)
    ensures forall i | 0 <= i < |r| :: !IsLoginRequest(r[i])
    ensures !TokenReceived(response) ==> r == [SetError(FailureMessage(response))]
    ensures TokenReceived(response) ==>
      r != [] && r[0] == Page(SetItem("token", TokenText(response.body.token))) && r[1..] == GeolocationEffects(geo)
  {
    match response
    case FetchFailed(m) => [SetError(m)]
    case ErrorStatus => [SetError(LoginFailedMessage)]
    case OkResponse(Unreadable(m)) => [SetError(m)]
    case OkResponse(Body(token)) => [Page(SetItem("token", TokenText(token)))] + GeolocationEffects(geo)
  }

  /** Clearing both messages, then issuing the login request. */
  function RequestEffects(email: string, password: string): seq<Effect> {
    [SetError(""), SetSuccessMessage(""), Page(Send(LoginPost(email, password, Role)))]
  }

  /** Everything `handleSubmit` does, in order. */
  function SubmitEffects(email: string, password: string, response: LoginResponse, geo: GeoOutcome): (r: seq<Effect>)
    ensures r != [] && r[0].SetError?
    ensures (exists i | 0 <= i < |r| :: IsLoginRequest(r[i])) <==> Accepted(email, password)
    ensures forall i | 0 <= i < |r| && IsLoginRequest(r[i]) :: i == 2 && r[i] == Page(Send(LoginPost(email, password, Role)))
  {
    if !Validation.ValidateEmail(email) then
      [SetError(InvalidEmailMessage)]
    else if !Validation.ValidatePassword(password) then
      [SetError(InvalidPasswordMessage)]
    else
      var effects := RequestEffects(email, password) + ResponseEffects(response, geo);
      assert IsLoginRequest(effects[2]);
      effects
  }

  predicate Accepted(email: string, password: string) {
    Validation.ValidateEmail(email) && Validation.ValidatePassword(password)
  }

  lemma AcceptedEffects(email: string, password: string, response: LoginResponse, geo: GeoOutcome)
    requires Accepted(email, password)
    ensures SubmitEffects(email, password, response, geo) == RequestEffects(email, password) + ResponseEffects(response, geo)
  {
  }

  /** The response carried a body the token could be taken from. */
  predicate TokenReceived(response: LoginResponse) {
    response.OkResponse? && response.body.Body?
  }

  /** The message a failed login request leaves in `error`. */
  function FailureMessage(response: LoginResponse): string
    requires !TokenReceived(response)
  {
    match response
    case FetchFailed(m) => m
    case ErrorStatus => LoginFailedMessage
    case OkResponse(body) => body.message
  }

  predicate IsGeolocationStep(e: Effect) {
    e == Page(GetCurrentPosition) || (e.Page? && e.action.SetItem? && e.action.key == "geolocation")
  }

  predicate IsLoginRequest(e: Effect) {
    e.Page? && e.action.Send?
  }

  // ---- What a submission does -------------------------------------------------

  /** The view reached once the token has been stored and the geolocation step has been answered. */
  function GeolocationView(u: View, geo: GeoOutcome): View {
    match geo
    case Unsupported =>
      u.(error := GeolocationUnsupportedMessage, host := u.host.(location := DashboardPath))
    case Located(c) =>
      u.(successMessage := LoginSuccessMessage,
         host := u.host.(storage := WithItem(u.host.storage, "geolocation", c), location := DashboardPath))
    case LocateFailed(code) =>
      u.(error := if code == PermissionDenied then LocationDeniedMessage else LocationUnavailableMessage,
         host := u.host.(location := DashboardPath))
    case Pending => u
  }

  lemma ReplayGeolocation(u: View, geo: GeoOutcome)
    ensures Replay(u, GeolocationEffects(geo)) == GeolocationView(u, geo)
  {
    match geo
    case Unsupported =>
      ReplayTwo(u, SetError(GeolocationUnsupportedMessage), Page(Navigate(DashboardPath)));
    case Located(c) =>
      ReplayFour(u, Page(GetCurrentPosition), Page(SetItem("geolocation", c)),
                 SetSuccessMessage(LoginSuccessMessage), Page(Navigate(DashboardPath)));
    case LocateFailed(code) =>
      ReplayThree(u, Page(GetCurrentPosition),
                  SetError(if code == PermissionDenied then LocationDeniedMessage else LocationUnavailableMessage),
                  Page(Navigate(DashboardPath)));
    case Pending =>
      ReplaySnoc(u, [], Page(GetCurrentPosition));
  }

  /** The view after the response: a failure message, or the token stored and geolocation answered. */
  function ResponseView(u: View, response: LoginResponse, geo: GeoOutcome): View {
    if TokenReceived(response) then
      GeolocationView(u.(host := u.host.(storage := WithItem(u.host.storage, "token", TokenText(response.body.token)))), geo)
    else
      u.(error := FailureMessage(response))
  }

  lemma {:induction false} ReplayResponse(u: View, response: LoginResponse, geo: GeoOutcome)
    ensures Replay(u, ResponseEffects(response, geo)) == ResponseView(u, response, geo)
  {
    if TokenReceived(response) {
      var store := Page(SetItem("token", TokenText(response.body.token)));
      ReplayAppend(u, [store], GeolocationEffects(geo));
      ReplaySnoc(u, [], store);
      ReplayGeolocation(Step(u, store), geo);
    } else {
      assert ResponseEffects(response, geo) == [SetError(FailureMessage(response))];
      ReplaySnoc(u, [], SetError(FailureMessage(response)));
    }
  }

  /** The view after an accepted submission. */
  lemma {:induction false} ReplayAccepted(v: View, email: string, password: string,
                                          response: LoginResponse, geo: GeoOutcome)
    requires Accepted(email, password)
    ensures Replay(v, SubmitEffects(email, password, response, geo)) ==
      ResponseView(v.(error := "", successMessage := "",
                      host := v.host.(sent := v.host.sent + [LoginPost(email, password, Role)])), response, geo)
  {
    var request := RequestEffects(email, password);
    ReplayAppend(v, request, ResponseEffects(response, geo));
    ReplayThree(v, request[0], request[1], request[2]);
    ReplayResponse(Replay(v, request), response, geo);
  }

  /**
   * A rejected email or password ends the handler at once: only `error` changes
   * (the email is checked first), no request is issued and the page is untouched.
   */
  lemma RejectedInputChangesOnlyError(v: View, email: string, password: string,
                                      response: LoginResponse, geo: GeoOutcome)
    requires !Accepted(email, password)
    ensures var effects := SubmitEffects(email, password, response, geo);
      var w := Replay(v, effects);
      w.host == v.host && w.successMessage == v.successMessage &&
      w.error == (if !Validation.ValidateEmail(email) then InvalidEmailMessage else InvalidPasswordMessage) &&
      forall i | 0 <= i < |effects| :: !IsLoginRequest(effects[i])
  {
    var message := if !Validation.ValidateEmail(email) then InvalidEmailMessage else InvalidPasswordMessage;
    assert SubmitEffects(email, password, response, geo) == [SetError(message)];
    ReplaySnoc(v, [], SetError(message));
  }

  /** Accepted input: both messages are cleared, then exactly one request goes out, with the role tag. */
  lemma AcceptedInputClearsThenSends(v: View, email: string, password: string,
                                     response: LoginResponse, geo: GeoOutcome)
    requires Accepted(email, password)
    ensures var effects := SubmitEffects(email, password, response, geo);
      |effects| > 3 &&
      effects[0] == SetError("") && effects[1] == SetSuccessMessage("") &&
      effects[2] == Page(Send(LoginPost(email, password, Role))) &&
      (forall i | 3 <= i < |effects| :: !IsLoginRequest(effects[i])) &&
      Replay(v, effects).host.sent == v.host.sent + [LoginPost(email, password, Role)]
  {
    ReplayAccepted(v, email, password, response, geo);
  }

  /**
   * A non-ok status, a rejected fetch or an unreadable body leaves the thrown
   * message in `error`, writes no storage key and does not navigate.
   */
  lemma FailedLoginStoresNothing(v: View, email: string, password: string,
                                 response: LoginResponse, geo: GeoOutcome)
    requires Accepted(email, password) && !TokenReceived(response)
    ensures var w := Replay(v, SubmitEffects(email, password, response, geo));
      w.error == FailureMessage(response) && w.successMessage == "" &&
      w.host.storage == v.host.storage && w.host.location == v.host.location
  {
    ReplayAccepted(v, email, password, response, geo);
  }

  /** Once the token is taken from the body it is stored first, before any geolocation step. */
  lemma TokenStoredBeforeGeolocation(email: string, password: string, response: LoginResponse, geo: GeoOutcome)
    requires Accepted(email, password) && TokenReceived(response)
    ensures var effects := SubmitEffects(email, password, response, geo);
      |effects| > 3 && effects[3] == Page(SetItem("token", TokenText(response.body.token))) &&
      forall i | 0 <= i < |effects| && IsGeolocationStep(effects[i]) :: 3 < i
  {
    AcceptedEffects(email, password, response, geo);
    StepsAfterPrefix(RequestEffects(email, password), ResponseEffects(response, geo));
  }

  /** No geolocation step in a prefix of three and in the first effect after it: any such step comes later. */
  lemma StepsAfterPrefix(request: seq<Effect>, answer: seq<Effect>)
    requires |request| == 3 && forall i | 0 <= i < 3 :: !IsGeolocationStep(request[i])
    requires answer != [] && !IsGeolocationStep(answer[0])
    ensures var effects := request + answer;
      effects[3] == answer[0] && forall i | 0 <= i < |effects| && IsGeolocationStep(effects[i]) :: 3 < i
  {
    var effects := request + answer;
    forall i | 0 <= i <= 3 ensures !IsGeolocationStep(effects[i]) {
      if i < 3 {
        assert effects[i] == request[i];
      }
    }
  }

  /**
   * After a token is received it is in storage whatever geolocation answers, and
   * every answered branch (success, error callback, unsupported) lands on the dashboard.
   */
  lemma TokenKeptAndAnsweredGeolocationNavigates(v: View, email: string, password: string,
                                                 response: LoginResponse, geo: GeoOutcome)
    requires Accepted(email, password) && TokenReceived(response)
    ensures var w := Replay(v, SubmitEffects(email, password, response, geo));
      GetItem(w.host.storage, "token") == Some(TokenText(response.body.token)) &&
      (geo != Pending ==> w.host.location == DashboardPath) &&
      (geo == Pending ==> w.host.location == v.host.location)
  {
    ReplayAccepted(v, email, password, response, geo);
  }

  /** The handler navigates exactly when the input is accepted, a token arrives and geolocation answers. */
  lemma NavigationIff(email: string, password: string, response: LoginResponse, geo: GeoOutcome)
    ensures var effects := SubmitEffects(email, password, response, geo);
      (exists i | 0 <= i < |effects| :: effects[i].Page? && effects[i].action.Navigate?) <==>
      Accepted(email, password) && TokenReceived(response) && geo != Pending
  {
    var effects := SubmitEffects(email, password, response, geo);
    if Accepted(email, password) && TokenReceived(response) && geo != Pending {
      assert effects[|effects| - 1] == Page(Navigate(DashboardPath));
    }
  }

  /** The 'geolocation' key is written only by the success callback, and then with its coordinates. */
  lemma GeolocationKeyOnlyOnSuccess(v: View, email: string, password: string,
                                    response: LoginResponse, geo: GeoOutcome)
    ensures var w := Replay(v, SubmitEffects(email, password, response, geo));
      GetItem(w.host.storage, "geolocation") ==
        if Accepted(email, password) && TokenReceived(response) && geo.Located?
        then Some(geo.coordinates)
        else GetItem(v.host.storage, "geolocation")
  {
    if !Accepted(email, password) {
      RejectedInputChangesOnlyError(v, email, password, response, geo);
    } else {
      ReplayAccepted(v, email, password, response, geo);
    }
  }

  /**
   * The messages the geolocation answer leaves behind: code 1 means access
   * denied, any other code unavailable; only success sets the success message.
   */
  lemma GeolocationMessages(v: View, email: string, password: string,
                            response: LoginResponse, geo: GeoOutcome)
    requires Accepted(email, password) && TokenReceived(response)
    ensures var w := Replay(v, SubmitEffects(email, password, response, geo));
      match geo
      case Unsupported => w.error == GeolocationUnsupportedMessage && w.successMessage == ""
      case Located(_) => w.error == "" && w.successMessage == LoginSuccessMessage
      case LocateFailed(code) =>
        w.successMessage == "" &&
        (code == 1 ==> w.error == LocationDeniedMessage) &&
        (code != 1 ==> w.error == LocationUnavailableMessage)
      case Pending => w.error == "" && w.successMessage == ""
  {
    ReplayAccepted(v, email, password, response, geo);
  }

  /** A token-less body still stores something under 'token': the text "undefined". */
  lemma MissingTokenStoredAsUndefined(v: View, email: string, password: string, geo: GeoOutcome)
    requires Accepted(email, password)
    ensures var w := Replay(v, SubmitEffects(email, password, OkResponse(Body(None)), geo));
      GetItem(w.host.storage, "token") == Some("undefined")
  {
    ReplayAccepted(v, email, password, OkResponse(Body(None)), geo);
  }

  /** Sample credentials a@b.com / Passw0rd! with token tok123: the token is stored. */
  lemma SampleLogin(v: View, geo: GeoOutcome)
    ensures var w := Replay(v, SubmitEffects("a@b.com", "Passw0rd!", OkResponse(Body(Some("tok123"))), geo));
      GetItem(w.host.storage, "token") == Some("tok123") &&
      (geo != Pending ==> w.host.location == DashboardPath)
  {
    Validation.EmailExamples();
    Validation.PasswordAccepted();
    ReplayAccepted(v, "a@b.com", "Passw0rd!", OkResponse(Body(Some("tok123"))), geo);
  }

  // ---- The component -----------------------------------------------------------

  class LoginForm {
    var email: string
    var password: string
    var error: string
    var successMessage: string
    /** Every effect the form has performed, in order. */
    ghost var trace: seq<Effect>

    constructor ()
      ensures email == "" && password == "" && error == "" && successMessage == "" && trace == []
    {
      email, password, error, successMessage := "", "", "", "";
      trace := [];
    }

    function ViewOf(host: Host): View
      reads this, host
    {
      View(error, successMessage, host.State())
    }

    /** The email input's change handler. */
    method SetEmail(value: string)
      modifies this`email
      ensures email == value
    {
      email := value;
    }

    /** The password input's change handler. */
    method SetPassword(value: string)
      modifies this`password
      ensures password == value
    {
      password := value;
    }

    /** Changes the form's messages or the page as one effect says. */
    method Enact(host: Host, e: Effect)
      modifies this, host
      ensures email == old(email) && password == old(password) && trace == old(trace)
      ensures ViewOf(host) == Step(old(ViewOf(host)), e)
    {
      match e {
        case SetError(m) => error := m;
        case SetSuccessMessage(m) => successMessage := m;
        case Page(a) => host.Do(a);
      }
    }

    /** Applies one effect and records it; the replay from `origin` keeps pace. */
    method Apply(host: Host, e: Effect, ghost origin: View, ghost from: nat)
      requires from <= |trace| && ViewOf(host) == Replay(origin, trace[from..])
      modifies this, host
      ensures email == old(email) && password == old(password)
      ensures trace == old(trace) + [e] && from <= |trace|
      ensures ViewOf(host) == Replay(origin, trace[from..])
    {
      ghost var before := trace[from..];
      Enact(host, e);
      trace := trace + [e];
      assert trace[from..] == before + [e];
      ReplaySnoc(origin, before, e);
    }

    /** `handleSubmit` up to the request, then its continuation on the response. */
    method HandleSubmit(host: Host, response: LoginResponse, geo: GeoOutcome)
      modifies this, host
      ensures email == old(email) && password == old(password)
      ensures trace == old(trace) + SubmitEffects(email, password, response, geo)
      ensures ViewOf(host) == Replay(old(ViewOf(host)), SubmitEffects(email, password, response, geo))
    {
      ghost var origin, from := ViewOf(host), |trace|;
      ghost var effects := SubmitEffects(email, password, response, geo);
      assert trace[from..] == [];
      if !Validation.ValidateEmail(email) {
        assert effects == [SetError(InvalidEmailMessage)];
        Apply(host, SetError(InvalidEmailMessage), origin, from);
        assert trace[from..] == effects;
        return;
      }
      if !Validation.ValidatePassword(password) {
        assert effects == [SetError(InvalidPasswordMessage)];
        Apply(host, SetError(InvalidPasswordMessage), origin, from);
        assert trace[from..] == effects;
        return;
      }
      AcceptedEffects(email, password, response, geo);
      Apply(host, SetError(""), origin, from);
      Apply(host, SetSuccessMessage(""), origin, from);
      Apply(host, Page(Send(LoginPost(email, password, Role))), origin, from);
      assert trace == old(trace) + RequestEffects(email, password);
      ReceiveResponse(host, response, geo, origin, from);
      assert trace[from..] == effects;
    }

    /** The body of the `try` after the request: the failure paths, or storing the token and locating the user. */
    method ReceiveResponse(host: Host, response: LoginResponse, geo: GeoOutcome, ghost origin: View, ghost from: nat)
      requires from <= |trace| && ViewOf(host) == Replay(origin, trace[from..])
      modifies this, host
      ensures email == old(email) && password == old(password)
      ensures trace == old(trace) + ResponseEffects(response, geo)
      ensures ViewOf(host) == Replay(origin, trace[from..])
    {
      match response
      case FetchFailed(m) =>
        Apply(host, SetError(m), origin, from);
      case ErrorStatus =>
        Apply(host, SetError(LoginFailedMessage), origin, from);
      case OkResponse(Unreadable(m)) =>
        Apply(host, SetError(m), origin, from);
      case OkResponse(Body(token)) =>
        assert ResponseEffects(response, geo) == [Page(SetItem("token", TokenText(token)))] + GeolocationEffects(geo);
        Apply(host, Page(SetItem("token", TokenText(token))), origin, from);
        LocateUser(host, geo, origin, from);
    }

    /** The geolocation branch and the callback that answers it. */
    method LocateUser(host: Host, geo: GeoOutcome, ghost origin: View, ghost from: nat)
      requires from <= |trace| && ViewOf(host) == Replay(origin, trace[from..])
      modifies this, host
      ensures email == old(email) && password == old(password)
      ensures trace == old(trace) + GeolocationEffects(geo)
      ensures ViewOf(host) == Replay(origin, trace[from..])
    {
      match geo
      case Unsupported =>
        assert GeolocationEffects(geo) == [SetError(GeolocationUnsupportedMessage), Page(Navigate(DashboardPath))];
        Apply(host, SetError(GeolocationUnsupportedMessage), origin, from);
        Apply(host, Page(Navigate(DashboardPath)), origin, from);
      case Located(coordinates) =>
        assert GeolocationEffects(geo) == [Page(GetCurrentPosition)] + [Page(SetItem("geolocation", coordinates)),
                                           SetSuccessMessage(LoginSuccessMessage), Page(Navigate(DashboardPath))];
        Apply(host, Page(GetCurrentPosition), origin, from);
        OnPosition(host, coordinates, origin, from);
      case LocateFailed(code) =>
        ghost var message := if code == PermissionDenied then LocationDeniedMessage else LocationUnavailableMessage;
        assert GeolocationEffects(geo) == [Page(GetCurrentPosition)] + [SetError(message), Page(Navigate(DashboardPath))];
        Apply(host, Page(GetCurrentPosition), origin, from);
        OnPositionError(host, code, origin, from);
      case Pending =>
        assert GeolocationEffects(geo) == [Page(GetCurrentPosition)];
        Apply(host, Page(GetCurrentPosition), origin, from);
    }

    /** The success callback of `getCurrentPosition`. */
    method OnPosition(host: Host, coordinates: string, ghost origin: View, ghost from: nat)
      requires from <= |trace| && ViewOf(host) == Replay(origin, trace[from..])
      modifies this, host
      ensures email == old(email) && password == old(password)
      ensures trace == old(trace) + [Page(SetItem("geolocation", coordinates)),
                                     SetSuccessMessage(LoginSuccessMessage), Page(Navigate(DashboardPath))]
      ensures ViewOf(host) == Replay(origin, trace[from..])
    {
      Apply(host, Page(SetItem("geolocation", coordinates)), origin, from);
      Apply(host, SetSuccessMessage(LoginSuccessMessage), origin, from);
      Apply(host, Page(Navigate(DashboardPath)), origin, from);
    }

    /** The error callback of `getCurrentPosition`: code 1 is a refused permission. */
    method OnPositionError(host: Host, code: int, ghost origin: View, ghost from: nat)
      requires from <= |trace| && ViewOf(host) == Replay(origin, trace[from..])
      modifies this, host
      ensures email == old(email) && password == old(password)
      ensures trace == old(trace) +
        [SetError(if code == PermissionDenied then LocationDeniedMessage else LocationUnavailableMessage),
         Page(Navigate(DashboardPath))]
      ensures ViewOf(host) == Replay(origin, trace[from..])
    {
      if code == PermissionDenied {
        Apply(host, SetError(LocationDeniedMessage), origin, from);
      } else {
        Apply(host, SetError(LocationUnavailableMessage), origin, from);
      }
      Apply(host, Page(Navigate(DashboardPath)), origin, from);
    }
  }
}
