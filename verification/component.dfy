/** `QuantumLeapComponent`, the MonoBehaviour every feature component
    derives from: its serialized settings, input validation, request
    headers, `Initialize`, `Cleanup`, the setters and the two request
    coroutines.  The static logger and manager the component configures are
    passed in and returned explicitly (`Runtime`).  The coroutines await the
    manager's retrying fetch and post as written (`Retry`). */
module Component {
  import opened Wrappers
  import Text
  import Logger
  import Manager
  import opened Retry
  import RetryProperties

  /** The component's serialized fields and its initialised flag. */
  datatype State = State(autoInitialize: bool, logToConsole: bool, logLevel: Logger.LogLevel,
                         apiUrl: Option<string>, apiKey: Option<string>,
                         requestTimeout: real, maxRetries: int, retryDelay: real,
                         initialized: bool)

  /** The field initialisers: auto-initialise and console logging on, level
      Info, no URL or key, timeout 30 s, 3 retries, 1 s delay. */
  const Fresh := State(true, true, Logger.Info, None, None, 30.0, 3, 1.0, false)

  const UrlMissing := "Default API URL is not set"
  const TimeoutNotPositive := "Request timeout must be greater than 0"

  /** `ValidateInput`: `None` when it returns, `Some(message)` when it
      throws.  A missing URL is reported before a non-positive timeout. */
  function ValidateInput(s: State): (r: Option<string>)
    ensures r.None? <==> !Text.IsNullOrEmpty(s.apiUrl) && s.requestTimeout > 0.0
    ensures Text.IsNullOrEmpty(s.apiUrl) ==> r == Some(UrlMissing)
    ensures !Text.IsNullOrEmpty(s.apiUrl) && s.requestTimeout <= 0.0 ==> r == Some(TimeoutNotPositive)
  {
    if Text.IsNullOrEmpty(s.apiUrl) then Some(UrlMissing)
    else if s.requestTimeout <= 0.0 then Some(TimeoutNotPositive)
    else None
  }

  /** `GetHeaders`: always the JSON content type, and the API key exactly
      when one is set; no other header. */
  function GetHeaders(s: State): (r: map<string, string>)
    ensures "Content-Type" in r && r["Content-Type"] == "application/json"
    ensures "x-api-key" in r <==> !Text.IsNullOrEmpty(s.apiKey)
    ensures "x-api-key" in r ==> r["x-api-key"] == s.apiKey.value
    ensures forall k :: k in r ==> k == "Content-Type" || k == "x-api-key"
  {
    var headers := map["Content-Type" := "application/json"];
    if Text.IsNullOrEmpty(s.apiKey) then headers else headers["x-api-key" := s.apiKey.value]
  }

  /** The component together with the static logger settings and the static
      manager it configures. */
  datatype Runtime = Runtime(component: State, logger: Logger.Settings, manager: Manager.State)

  /** The state after `Initialize` and which of `OnComponentInitialized`
      and the manager's `OnInitialized` were raised. */
  datatype InitStep = InitStep(runtime: Runtime, raisedComponentInitialized: bool, raisedManagerInitialized: bool)

  /** `Initialize`: validation runs first, on every call, and its exception
      reaches the caller (`Err`).  An initialised component then returns
      without effect.  Otherwise the logger is set to the component's level
      with timestamps and level tags, the manager is initialised with the
      component's settings (kept as they are if the manager already was),
      and `OnComponentInitialized` is raised. */
  function Initialize(w: Runtime): (r: Result<InitStep, string>)
    ensures ValidateInput(w.component).Some? ==> r == Err(ValidateInput(w.component).value)
    ensures ValidateInput(w.component).None? && w.component.initialized ==> r == Ok(InitStep(w, false, false))
    ensures ValidateInput(w.component).None? && !w.component.initialized ==>
              r.Ok? && r.value.raisedComponentInitialized
              && r.value.runtime.component == w.component.(initialized := true)
              && r.value.runtime.logger == Logger.Settings(w.component.logLevel, true, true)
              && r.value.runtime.manager.initialized
              && (r.value.raisedManagerInitialized <==> !w.manager.initialized)
              && (w.manager.initialized ==> r.value.runtime.manager == w.manager)
              && (!w.manager.initialized ==>
                    r.value.runtime.manager == Manager.State(true, w.component.requestTimeout,
                                                             w.component.maxRetries, w.component.retryDelay))
  {
    match ValidateInput(w.component)
    case Some(message) => Err(message)
    case None =>
      if w.component.initialized then Ok(InitStep(w, false, false))
      else
        var c := w.component;
        var step := Manager.Initialize(w.manager, c.requestTimeout, c.maxRetries, c.retryDelay);
        Ok(InitStep(Runtime(c.(initialized := true), Logger.Settings(c.logLevel, true, true), step.state),
                    true, step.raisedInitialized))
  }

  /** `Cleanup`: the component is no longer initialised; its settings stay. */
  function Cleanup(s: State): (r: State)
    ensures !r.initialized
    ensures r.(initialized := s.initialized) == s
  {
    s.(initialized := false)
  }

  /** `SetApiUrl`: stores the argument verbatim (null included); nothing
      else changes. */
  function SetApiUrl(s: State, url: Option<string>): (r: State)
    ensures r.apiUrl == url
    ensures r.(apiUrl := s.apiUrl) == s
  {
    s.(apiUrl := url)
  }

  /** `SetApiKey`: stores the argument verbatim; nothing else changes. */
  function SetApiKey(s: State, key: Option<string>): (r: State)
    ensures r.apiKey == key
    ensures r.(apiKey := s.apiKey) == s
  {
    s.(apiKey := key)
  }

  /** `SetRequestTimeout`: a positive value is stored, any other is refused
      with a warning and changes nothing. */
  function SetRequestTimeout(s: State, seconds: real): (r: State)
    ensures seconds <= 0.0 ==> r == s
    ensures seconds > 0.0 ==> r == s.(requestTimeout := seconds)
  {
    if seconds <= 0.0 then s else s.(requestTimeout := seconds)
  }

  /** A run of `SetRequestTimeout` calls, first to last. */
  function SetRequestTimeouts(s: State, values: seq<real>): State
    decreases |values|
  {
    if |values| == 0 then s else SetRequestTimeouts(SetRequestTimeout(s, values[0]), values[1..])
  }

  /** The setter can never make a positive timeout non-positive, so after any
      run of calls the timeout check of `ValidateInput` still passes, and the
      timeout is the original or one of the positive values given. */
  lemma {:induction false} TimeoutStaysPositive(s: State, values: seq<real>)
    ensures var r := SetRequestTimeouts(s, values);
            r.(requestTimeout := s.requestTimeout) == s
            && (s.requestTimeout > 0.0 ==> r.requestTimeout > 0.0 && ValidateInput(r) != Some(TimeoutNotPositive))
            && (r.requestTimeout == s.requestTimeout || exists i :: 0 <= i < |values| && values[i] == r.requestTimeout && values[i] > 0.0)
    decreases |values|
  {
    if |values| > 0 {
      var next := SetRequestTimeout(s, values[0]);
      TimeoutStaysPositive(next, values[1..]);
      var r := SetRequestTimeouts(next, values[1..]);
      if r.requestTimeout != next.requestTimeout {
        var i :| 0 <= i < |values[1..]| && values[1..][i] == r.requestTimeout && values[1..][i] > 0.0;
        assert values[i + 1] == r.requestTimeout;
      }
    }
  }

  /** A second `Initialize` after a successful one changes nothing and
      raises nothing. */
  lemma InitializeIsIdempotent(w: Runtime)
    requires Initialize(w).Ok?
    ensures var first := Initialize(w).value.runtime;
            Initialize(first) == Ok(InitStep(first, false, false))
  {
  }

  /** Validation comes before the initialised check: clearing the URL of an
      initialised component makes the next `Initialize` throw. */
  lemma ValidationPrecedesInitializedCheck(w: Runtime, url: Option<string>)
    requires w.component.initialized && Text.IsNullOrEmpty(url)
    ensures Initialize(w.(component := SetApiUrl(w.component, url))) == Err(UrlMissing)
  {
  }

  /** After `Cleanup` a valid component initialises again and raises
      `OnComponentInitialized` once more. */
  lemma CleanupAllowsReinitialize(w: Runtime)
    requires ValidateInput(w.component).None?
    ensures var r := Initialize(w.(component := Cleanup(w.component)));
            r.Ok? && r.value.raisedComponentInitialized && r.value.runtime.component.initialized
  {
  }

  /** A component initialised after another one leaves the manager with the
      first component's timeout and retry settings. */
  lemma FirstComponentConfiguresManager(w: Runtime, other: State)
    requires Initialize(w).Ok? && !w.component.initialized
    ensures var first := Initialize(w).value.runtime;
            var second := Initialize(first.(component := other));
            second.Ok? ==> second.value.runtime.manager == first.manager && !second.value.raisedManagerInitialized
  {
  }

  /** What a feature component hands to a request coroutine: the action
      tag (only the UDI and statistics components pass one), the endpoint
      and, for a post, the payload before serialisation. */
  datatype Call<P> = Call(action: Option<string>, endpoint: string, payload: Option<P>)

  /** What a request coroutine ends with: it stopped at the initialised
      guard before any request, raised `OnDataReceived(data)`, or raised
      `OnErrorOccurred(message)`. */
  datatype Delivery = NotStarted | Delivered(data: string) | Reported(message: string)

  function FetchFailure(url: string, cause: string): string {
    "Failed to fetch data from " + url + ": " + cause
  }

  function PostFailure(url: string, cause: string): string {
    "Failed to post data to " + url + ": " + cause
  }

  /** `FetchDataCoroutine(url)`: the guard, then the manager's fetch, as
      written, with the component's headers; a failed call is reported with
      the URL and the call's error text, a successful one delivers the body. */
  function FetchDataCoroutine(s: State, m: Manager.State, url: string, oracle: Oracle): (r: Delivery)
    ensures !s.initialized ==> r == NotStarted
    ensures s.initialized ==> !r.NotStarted?
    ensures s.initialized && !m.initialized ==>
              r == Reported(FetchFailure(url, "QuantumLeapManager must be initialized before fetching data"))
  {
    if !s.initialized then NotStarted
    else
      var call := FetchDataAsync(m, url, GetHeaders(s), oracle);
      match call.result
      case Ok(body) => Delivered(body)
      case Err(e) => Reported(FetchFailure(url, ErrorText(e)))
  }

  /** `PostDataCoroutine(url, data)`: as the fetch coroutine, with the
      manager's post. */
  function PostDataCoroutine(s: State, m: Manager.State, url: string, data: string, oracle: Oracle): (r: Delivery)
    ensures !s.initialized ==> r == NotStarted
    ensures s.initialized ==> !r.NotStarted?
    ensures s.initialized && !m.initialized ==>
              r == Reported(PostFailure(url, "QuantumLeapManager must be initialized before posting data"))
  {
    if !s.initialized then NotStarted
    else
      var call := PostDataAsync(m, url, data, GetHeaders(s), oracle);
      match call.result
      case Ok(body) => Delivered(body)
      case Err(e) => Reported(PostFailure(url, ErrorText(e)))
  }

  /** Whatever a fetch coroutine delivers is the body of the last response
      received, and every earlier attempt failed. */
  lemma FetchDeliversAResponseBody(s: State, m: Manager.State, url: string, oracle: Oracle)
    ensures var r := FetchDataCoroutine(s, m, url, oracle);
            r.Delivered? ==>
              var call := FetchDataAsync(m, url, GetHeaders(s), oracle);
              oracle(call.next - 1) == Success(r.data) && RetryProperties.AllFailed(oracle, 0, call.next - 1)
  {
    var req := Request(Get, url, None, GetHeaders(s));
    RetryProperties.ResultIsLastOutcome(m, req, oracle, 0, 0);
    RetryProperties.NoEarlierSuccess(m, req, oracle, 0, 0);
  }

  /** When the first success comes within the budget, the fetch coroutine
      delivers exactly that body. */
  lemma FetchDeliversFirstSuccess(s: State, m: Manager.State, url: string, oracle: Oracle, j: nat)
    requires s.initialized && m.initialized && j <= Remaining(m, 0)
    requires RetryProperties.AllFailed(oracle, 0, j) && oracle(j).Success?
    ensures FetchDataCoroutine(s, m, url, oracle) == Delivered(oracle(j).body)
  {
    RetryProperties.FirstSuccessWithinBudget(m, Request(Get, url, None, GetHeaders(s)), oracle, 0, 0, j);
  }

  /** A fetch coroutine delivers a body even after the manager has raised
      `OnError` on the way: with one retry and outcomes 503, 503, 200 the
      component receives "ok". */
  lemma FetchDeliversAfterReportedErrors(s: State, url: string)
    requires s.initialized
    ensures var m := Manager.State(true, 30.0, 1, 1.0);
            var oracle: Oracle := j => if j < 2 then NonSuccessStatus("503") else Success("ok");
            FetchDataCoroutine(s, m, url, oracle) == Delivered("ok")
  {
    RetryProperties.SuccessAfterReportedErrors(url, GetHeaders(s));
  }

  /** When every attempt fails, the post coroutine reports a failure for its
      URL and delivers nothing. */
  lemma PostReportsPersistentFailure(s: State, m: Manager.State, url: string, data: string, oracle: Oracle)
    requires s.initialized && m.initialized
    requires forall j :: 0 <= j ==> !oracle(j).Success?
    ensures var r := PostDataCoroutine(s, m, url, data, oracle);
            r.Reported? && Text.StartsWith(r.message, "Failed to post data to " + url + ": ")
  {
    var req := Request(Post, url, Some(data), GetHeaders(s));
    RetryProperties.ResultIsLastOutcome(m, req, oracle, 0, 0);
    var call := PostDataAsync(m, url, data, GetHeaders(s), oracle);
    assert !oracle(call.next - 1).Success?;
    var prefix := "Failed to post data to " + url + ": ";
    assert PostFailure(url, ErrorText(call.result.error)) == prefix + ErrorText(call.result.error);
  }
}
