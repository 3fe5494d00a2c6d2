/**
 * The dashboard (src/Dashboard.js): the brand list state `brands`, `error` and
 * `loading`, the brand fetch, the effect that runs it when the page is online,
 * Retry, Logout, and the choice of what to render. As in the login form, each
 * handler is recorded as an ordered sequence of effects and the new state is
 * that sequence replayed on the old one.
 */
module Dashboard {
  import opened Browser

  const FetchBrandsFailedMessage := "Failed to fetch brands"
  /** The fixed page window of the brand request (`skip=1&limit=10`). */
  const BrandsSkip: nat := 1
  const BrandsLimit: nat := 10
  const LoginPath := "/"
  const DefaultName := "User"

  /**
   * The answer to the brand request: ok with the decoded list, a non-ok status,
   * a rejected fetch, or a body `response.json()` throws on.
   */
  datatype BrandsResponse = Fetched(data: seq<Brand>) | ErrorStatus | FetchFailed(message: string) | Unreadable(message: string)

  datatype Effect = SetBrands(brands: seq<Brand>) | SetError(error: Option<string>) | SetLoading(loading: bool) | Page(action: Action)

  /** The component's state and the page. */
  datatype View = View(brands: seq<Brand>, error: Option<string>, loading: bool, host: HostState)

  function Step(v: View, e: Effect): View {
    match e
    case SetBrands(b) => v.(brands := b)
    case SetError(m) => v.(error := m)
    case SetLoading(l) => v.(loading := l)
    case Page(a) => v.(host := Perform(v.host, a))
  }

  /**
   * The view after the effects, applied first to last. The login form has its
   * own `Step` and `Replay`: the two components have different state and
   * different effects, so each module replays its own.
   */
  function Replay(v: View, effects: seq<Effect>): View
    decreases |effects|
  {
    if effects == [] then v
    else Step(Replay(v, effects[..|effects| - 1]), effects[|effects| - 1])
  }

  lemma ReplaySnoc(v: View, effects: seq<Effect>, e: Effect)
    ensures Replay(v, effects + [e]) == Step(Replay(v, effects), e)
  {
    assert (effects + [e])[..|effects|] == effects;
  }

  lemma ReplayTwo(v: View, a: Effect, b: Effect)
    ensures Replay(v, [a, b]) == Step(Step(v, a), b)
  {
    ReplaySnoc(v, [], a);
    ReplaySnoc(v, [a], b);
  }

  lemma ReplayThree(v: View, a: Effect, b: Effect, c: Effect)
    ensures Replay(v, [a, b, c]) == Step(Step(Step(v, a), b), c)
  {
    ReplayTwo(v, a, b);
    ReplaySnoc(v, [a, b], c);
    assert [a, b] + [c] == [a, b, c];
  }

  lemma ReplayFour(v: View, a: Effect, b: Effect, c: Effect, d: Effect)
    ensures Replay(v, [a, b, c, d]) == Step(Step(Step(Step(v, a), b), c), d)
  {
    ReplayThree(v, a, b, c);
    ReplaySnoc(v, [a, b, c], d);
    assert [a, b, c] + [d] == [a, b, c, d];
  }

  /** The message a failed fetch leaves in `error`. */
  function FailureMessage(response: BrandsResponse): string
    requires !response.Fetched?
  {
    match response
    case ErrorStatus => FetchBrandsFailedMessage
    case FetchFailed(m) => m
    case Unreadable(m) => m
  }

  /** The `try` body or the `catch` of `fetchBrands`. */
  function Outcome(response: BrandsResponse): Effect {
    if response.Fetched? then SetBrands(response.data) else SetError(Some(FailureMessage(response)))
  }

  /** `fetchBrands` with the token read from storage: the request, the outcome, then `finally`. */
  function FetchEffects(token: Option<string>, response: BrandsResponse): (r: seq<Effect>)
    ensures r != [] && r[|r| - 1] == SetLoading(false)
    ensures forall i | 0 <= i < |r| && r[i].Page? :: i == 0 && r[i] == Page(Send(BrandsGet(token, BrandsSkip, BrandsLimit)))
    ensures (exists i | 0 <= i < |r| :: r[i].SetBrands?) <==> response.Fetched?
    ensures (exists i | 0 <= i < |r| :: r[i].SetError?) <==> !response.Fetched?
    ensures response.Fetched? ==> exists i | 0 <= i < |r| :: r[i] == SetBrands(response.data)
    ensures forall i | 0 <= i < |r| && r[i].SetLoading? :: !r[i].loading
  {
    var effects := [Page(Send(BrandsGet(token, BrandsSkip, BrandsLimit))), Outcome(response), SetLoading(false)];
    assert effects[1] == Outcome(response);
    effects
  }

  /** The effect on `[isOnline]`: fetch only when online. */
  function ConnectivityEffects(isOnline: bool, token: Option<string>, response: BrandsResponse): (r: seq<Effect>)
    ensures r == [] <==> !isOnline
    ensures forall i | 0 <= i < |r| && r[i].Page? :: r[i] == Page(Send(BrandsGet(token, BrandsSkip, BrandsLimit)))
  {
    if isOnline then FetchEffects(token, response) else []
  }

  /** `handleRetry`: clear the error, then fetch, online or not. */
  function RetryEffects(token: Option<string>, response: BrandsResponse): (r: seq<Effect>)
    ensures r != [] && r[0] == SetError(None) && r[|r| - 1] == SetLoading(false)
    ensures forall i | 0 <= i < |r| && r[i].Page? :: i == 1 && r[i] == Page(Send(BrandsGet(token, BrandsSkip, BrandsLimit)))
    ensures forall i | 0 <= i < |r| && r[i].SetLoading? :: !r[i].loading
  {
    [SetError(None)] + FetchEffects(token, response)
  }

  /** `handleLogout`. */
  function LogoutEffects(): (r: seq<Effect>)
    ensures forall i | 0 <= i < |r| :: r[i].Page? && !r[i].action.Send? && !r[i].action.SetItem?
    ensures exists i | 0 <= i < |r| :: r[i] == Page(RemoveItem("token"))
    ensures exists i | 0 <= i < |r| :: r[i] == Page(RemoveItem("geolocation"))
    ensures r[|r| - 1] == Page(Navigate(LoginPath))
  {
    var effects := [Page(RemoveItem("token")), Page(RemoveItem("geolocation")), Page(Navigate(LoginPath))];
    assert effects[0] == Page(RemoveItem("token")) && effects[1] == Page(RemoveItem("geolocation"));
    effects
  }

  // ---- What the handlers do ----------------------------------------------------

  /**
   * One fetch issues exactly one request carrying the stored token as it is
   * (absent included), and always ends with `loading` false. Success replaces
   * `brands` and keeps `error`; failure sets `error` and keeps `brands`.
   */
  lemma FetchOutcome(v: View, response: BrandsResponse)
    ensures var token := GetItem(v.host.storage, "token");
      var w := Replay(v, FetchEffects(token, response));
      !w.loading &&
      w.host == v.host.(sent := v.host.sent + [BrandsGet(token, BrandsSkip, BrandsLimit)]) &&
      (response.Fetched? ==> w.brands == response.data && w.error == v.error) &&
      (!response.Fetched? ==> w.brands == v.brands && w.error == Some(FailureMessage(response)))
  {
    var token := GetItem(v.host.storage, "token");
    ReplayThree(v, Page(Send(BrandsGet(token, BrandsSkip, BrandsLimit))), Outcome(response), SetLoading(false));
  }

  /** Offline, the effect does nothing at all; online, it is one fetch. */
  lemma ConnectivityFetchesOnlyOnline(v: View, isOnline: bool, response: BrandsResponse)
    ensures var token := GetItem(v.host.storage, "token");
      var w := Replay(v, ConnectivityEffects(isOnline, token, response));
      (!isOnline ==> w == v) &&
      (isOnline ==> w.host.sent == v.host.sent + [BrandsGet(token, BrandsSkip, BrandsLimit)] && !w.loading)
  {
    if isOnline {
      FetchOutcome(v, response);
    }
  }

  /**
   * Retry clears `error` before the request goes out, fetches whatever the
   * connectivity, and ends with the error of this attempt only.
   */
  lemma RetryOutcome(v: View, response: BrandsResponse)
    ensures var token := GetItem(v.host.storage, "token");
      var effects := RetryEffects(token, response);
      var w := Replay(v, effects);
      effects[0] == SetError(None) && effects[1] == Page(Send(BrandsGet(token, BrandsSkip, BrandsLimit))) &&
      !w.loading && w.host.sent == v.host.sent + [BrandsGet(token, BrandsSkip, BrandsLimit)] &&
      w.error == (if response.Fetched? then None else Some(FailureMessage(response))) &&
      w.brands == (if response.Fetched? then response.data else v.brands)
  {
    var token := GetItem(v.host.storage, "token");
    ReplayFour(v, SetError(None), Page(Send(BrandsGet(token, BrandsSkip, BrandsLimit))), Outcome(response), SetLoading(false));
    assert RetryEffects(token, response) ==
      [SetError(None), Page(Send(BrandsGet(token, BrandsSkip, BrandsLimit))), Outcome(response), SetLoading(false)];
  }

  /** Logout removes exactly 'token' and 'geolocation', keeps every other key, and goes to the login route. */
  lemma LogoutClearsSession(v: View)
    ensures var w := Replay(v, LogoutEffects());
      GetItem(w.host.storage, "token") == None && GetItem(w.host.storage, "geolocation") == None &&
      (forall k | k != "token" && k != "geolocation" :: GetItem(w.host.storage, k) == GetItem(v.host.storage, k)) &&
      w.host.location == LoginPath &&
      w.host.sent == v.host.sent && w.brands == v.brands && w.error == v.error && w.loading == v.loading
  {
    ReplayThree(v, Page(RemoveItem("token")), Page(RemoveItem("geolocation")), Page(Navigate(LoginPath)));
  }

  // ---- What is rendered ----------------------------------------------------------

  datatype Screen = NoInternet | Loading | ErrorPanel(message: string) | BrandList(greeting: string, brands: seq<Brand>)

  /** `localStorage.getItem('fullName') || 'User'`: an absent or empty name gives 'User'. */
  function Greeting(storage: map<string, string>): (name: string)
    ensures "fullName" in storage && storage["fullName"] != "" ==> name == storage["fullName"]
    ensures "fullName" !in storage || storage["fullName"] == "" ==> name == DefaultName
  {
    match GetItem(storage, "fullName")
    case Some(n) => if n != "" then n else DefaultName
    case None => DefaultName
  }

  /**
   * The render branch: offline first, then loading, then an error (a truthy,
   * that is non-empty, message), and otherwise the greeting and the list.
   */
  function SelectScreen(isOnline: bool, v: View): (s: Screen)
    ensures s == NoInternet <==> !isOnline
    ensures s == Loading <==> isOnline && v.loading
    ensures s.ErrorPanel? <==> isOnline && !v.loading && v.error.Some? && v.error.value != ""
    ensures s.ErrorPanel? ==> s.message == v.error.value
    ensures s.BrandList? <==> isOnline && !v.loading && (v.error == None || v.error == Some(""))
    ensures s.BrandList? ==> s.brands == v.brands && s.greeting == Greeting(v.host.storage)
  {
    if !isOnline then NoInternet
    else if v.loading then Loading
    else if v.error.Some? && v.error.value != "" then ErrorPanel(v.error.value)
    else BrandList(Greeting(v.host.storage), v.brands)
  }

  /** The state the component mounts with shows Loading while online. */
  lemma InitialStateShowsLoading(h: HostState)
    ensures SelectScreen(true, View([], None, true, h)) == Loading
    ensures SelectScreen(false, View([], None, true, h)) == NoInternet
  {
  }

  /**
   * A fetch that succeeds after an earlier failure does not clear `error`: for
   * the component on its own, when `isOnline` turns true again new brands
   * arrive but the old error stays on screen.
   */
  lemma ReconnectKeepsStaleError(v: View, data: seq<Brand>, message: string)
    requires v.error == Some(message) && message != ""
    ensures var w := Replay(v, ConnectivityEffects(true, GetItem(v.host.storage, "token"), Fetched(data)));
      w.brands == data && SelectScreen(true, w) == ErrorPanel(message)
  {
    FetchOutcome(v, Fetched(data));
  }

  /**
   * `fetchBrands` never sets `loading` back to true: while a retry is in flight
   * (error cleared, request sent) the old brand list is on screen, not Loading.
   */
  lemma RetryInFlightShowsList(v: View, response: BrandsResponse)
    requires !v.loading
    ensures var w := Replay(v, RetryEffects(GetItem(v.host.storage, "token"), response)[..2]);
      SelectScreen(true, w) == BrandList(Greeting(v.host.storage), v.brands)
  {
    var token := GetItem(v.host.storage, "token");
    assert RetryEffects(token, response)[..2] == [SetError(None), Page(Send(BrandsGet(token, BrandsSkip, BrandsLimit)))];
    ReplayTwo(v, SetError(None), Page(Send(BrandsGet(token, BrandsSkip, BrandsLimit))));
  }

  // ---- The component -----------------------------------------------------------

  class Dashboard {
    var brands: seq<Brand>
    var error: Option<string>
    var loading: bool
    /** Every effect the component has performed, in order. */
    ghost var trace: seq<Effect>

    constructor ()
      ensures brands == [] && error == None && loading && trace == []
    {
      brands, error, loading := [], None, true;
      trace := [];
    }

    function ViewOf(host: Host): View
      reads this, host
    {
      View(brands, error, loading, host.State())
    }

    /** Changes the component's state or the page as one effect says. */
    method Enact(host: Host, e: Effect)
      modifies this, host
      ensures trace == old(trace)
      ensures ViewOf(host) == Step(old(ViewOf(host)), e)
    {
      match e {
        case SetBrands(b) => brands := b;
        case SetError(m) => error := m;
        case SetLoading(l) => loading := l;
        case Page(a) => host.Do(a);
      }
    }

    /** Applies one effect and records it; the replay from `origin` keeps pace. */
    method Apply(host: Host, e: Effect, ghost origin: View, ghost from: nat)
      requires from <= |trace| && ViewOf(host) == Replay(origin, trace[from..])
      modifies this, host
      ensures trace == old(trace) + [e] && from <= |trace|
      ensures ViewOf(host) == Replay(origin, trace[from..])
    {
      ghost var before := trace[from..];
      Enact(host, e);
      trace := trace + [e];
      assert trace[from..] == before + [e];
      ReplaySnoc(origin, before, e);
    }

    /** The part of `fetchBrands` after the token is read: request, outcome, `finally`. */
    method Fetch(host: Host, response: BrandsResponse, ghost origin: View, ghost from: nat)
      requires from <= |trace| && ViewOf(host) == Replay(origin, trace[from..])
      modifies this, host
      ensures trace == old(trace) + FetchEffects(GetItem(old(host.storage), "token"), response)
      ensures ViewOf(host) == Replay(origin, trace[from..])
    {
      var token := GetItem(host.storage, "token");
      Apply(host, Page(Send(BrandsGet(token, BrandsSkip, BrandsLimit))), origin, from);
      match response {
        case Fetched(data) => Apply(host, SetBrands(data), origin, from);
        case ErrorStatus => Apply(host, SetError(Some(FetchBrandsFailedMessage)), origin, from);
        case FetchFailed(m) => Apply(host, SetError(Some(m)), origin, from);
        case Unreadable(m) => Apply(host, SetError(Some(m)), origin, from);
      }
      Apply(host, SetLoading(false), origin, from);
    }

    /** `fetchBrands`, with the response given. */
    method FetchBrands(host: Host, response: BrandsResponse)
      modifies this, host
      ensures trace == old(trace) + FetchEffects(GetItem(old(host.storage), "token"), response)
      ensures ViewOf(host) == Replay(old(ViewOf(host)), FetchEffects(GetItem(old(host.storage), "token"), response))
    {
      ghost var origin, from := ViewOf(host), |trace|;
      assert trace[from..] == [];
      Fetch(host, response, origin, from);
    }

    /** The effect run on mount and whenever `isOnline` changes. */
    method OnConnectivity(host: Host, isOnline: bool, response: BrandsResponse)
      modifies this, host
      ensures trace == old(trace) + ConnectivityEffects(isOnline, GetItem(old(host.storage), "token"), response)
      ensures ViewOf(host) ==
        Replay(old(ViewOf(host)), ConnectivityEffects(isOnline, GetItem(old(host.storage), "token"), response))
    {
      if isOnline {
        FetchBrands(host, response);
      }
    }

    /** `handleRetry`: no connectivity check, the offline screen's button included. */
    method HandleRetry(host: Host, response: BrandsResponse)
      modifies this, host
      ensures trace == old(trace) + RetryEffects(GetItem(old(host.storage), "token"), response)
      ensures ViewOf(host) == Replay(old(ViewOf(host)), RetryEffects(GetItem(old(host.storage), "token"), response))
    {
      ghost var origin, from := ViewOf(host), |trace|;
      assert trace[from..] == [];
      Apply(host, SetError(None), origin, from);
      Fetch(host, response, origin, from);
      assert trace[from..] == RetryEffects(GetItem(old(host.storage), "token"), response);
    }

    /** `handleLogout`. */
    method HandleLogout(host: Host)
      modifies this, host
      ensures trace == old(trace) + LogoutEffects()
      ensures ViewOf(host) == Replay(old(ViewOf(host)), LogoutEffects())
    {
      ghost var origin, from := ViewOf(host), |trace|;
      assert trace[from..] == [];
      Apply(host, Page(RemoveItem("token")), origin, from);
      Apply(host, Page(RemoveItem("geolocation")), origin, from);
      Apply(host, Page(Navigate(LoginPath)), origin, from);
      assert trace[from..] == LogoutEffects();
    }
  }
}
