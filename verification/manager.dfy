/** The process-wide manager's configuration and lifecycle: `Initialize`
    (three overloads), `Shutdown` and `SetRetryConfiguration`.  The static
    fields become one immutable `State`; every operation returns the next
    state.  The lock around the transitions is left out (single-threaded). */
module Manager {

  datatype State = State(initialized: bool, requestTimeout: real, maxRetries: int, retryDelay: real)

  /** The static field initialisers: not initialised, timeout 30 s, 3 retries, 1 s delay. */
  const Initial := State(false, 30.0, 3, 1.0)

  /** The next state, and whether `OnInitialized` was raised. */
  datatype InitStep = InitStep(state: State, raisedInitialized: bool)

  /** `Initialize(timeout, maxRetries, retryDelay)`: a first call stores the
      three values verbatim - nothing is validated or clamped - and raises
      `OnInitialized`; a call on an initialised manager changes nothing. */
  function Initialize(s: State, timeout: real, maxRetries: int, retryDelay: real): (r: InitStep)
    ensures r.state.initialized
    ensures s.initialized ==> r.state == s && !r.raisedInitialized
    ensures !s.initialized ==> (r.raisedInitialized && r.state.requestTimeout == timeout
                                && r.state.maxRetries == maxRetries && r.state.retryDelay == retryDelay)
  {
    if s.initialized then InitStep(s, false)
    else InitStep(State(true, timeout, maxRetries, retryDelay), true)
  }

  /** `Initialize(timeout)`: 3 retries, 1 s delay. */
  function InitializeWithTimeout(s: State, timeout: real): (r: InitStep)
    ensures !s.initialized ==> r.state == State(true, timeout, 3, 1.0) && r.raisedInitialized
    ensures s.initialized ==> r.state == s && !r.raisedInitialized
  {
    Initialize(s, timeout, 3, 1.0)
  }

  /** `Initialize()`: timeout 30 s, 3 retries, 1 s delay. */
  function InitializeDefault(s: State): (r: InitStep)
    ensures !s.initialized ==> r.state == State(true, 30.0, 3, 1.0) && r.raisedInitialized
    ensures s.initialized ==> r.state == s && !r.raisedInitialized
  {
    InitializeWithTimeout(s, 30.0)
  }

  /** A second `Initialize`, whatever its arguments, keeps the settings of the
      first and raises nothing. */
  lemma InitializeIsIdempotent(s: State, t1: real, m1: int, d1: real, t2: real, m2: int, d2: real)
    ensures var first := Initialize(s, t1, m1, d1);
            var second := Initialize(first.state, t2, m2, d2);
            second.state == first.state && !second.raisedInitialized
  {
  }

  /** `SetRetryConfiguration`: each field is clamped at zero on its own,
      a non-negative value is stored as given; it works whether or not the
      manager is initialised and touches nothing else. */
  function SetRetryConfiguration(s: State, maxRetries: int, retryDelay: real): (r: State)
    ensures r.maxRetries >= 0 && r.retryDelay >= 0.0
    ensures maxRetries >= 0 ==> r.maxRetries == maxRetries
    ensures maxRetries < 0 ==> r.maxRetries == 0
    ensures retryDelay >= 0.0 ==> r.retryDelay == retryDelay
    ensures retryDelay < 0.0 ==> r.retryDelay == 0.0
    ensures r.initialized == s.initialized && r.requestTimeout == s.requestTimeout
  {
    s.(maxRetries := if maxRetries < 0 then 0 else maxRetries,
       retryDelay := if retryDelay < 0.0 then 0.0 else retryDelay)
  }

  /** Re-applying the stored configuration is a no-op: clamped values are
      already fixed points. */
  lemma SetRetryConfigurationIsStable(s: State, maxRetries: int, retryDelay: real)
    ensures var r := SetRetryConfiguration(s, maxRetries, retryDelay);
            SetRetryConfiguration(r, r.maxRetries, r.retryDelay) == r
  {
  }

  /** `Shutdown`: clears the initialised flag and nothing else; on a manager
      that is not initialised it is a no-op. */
  function Shutdown(s: State): (r: State)
    ensures !r.initialized
    ensures r.requestTimeout == s.requestTimeout && r.maxRetries == s.maxRetries && r.retryDelay == s.retryDelay
    ensures !s.initialized ==> r == s
  {
    if !s.initialized then s else s.(initialized := false)
  }

  /** After a shutdown the manager can be initialised again, with new
      settings and a fresh `OnInitialized`. */
  lemma ShutdownAllowsReinitialize(s: State, timeout: real, maxRetries: int, retryDelay: real)
    ensures var r := Initialize(Shutdown(s), timeout, maxRetries, retryDelay);
            r.raisedInitialized && r.state == State(true, timeout, maxRetries, retryDelay)
  {
  }
}
