/** The retry engine as its attempt numbering says it is meant to behave:
    every failed attempt, whatever its kind, is followed by one wait and one
    further attempt until the budget is spent, and the last failure is
    reported once.  A non-success status at the budget is reported with the
    per-attempt text and fails with that text; a thrown exception keeps the
    as-written handling. */
module IntendedRetry {
  import opened Wrappers
  import opened Retry
  import RetryProperties
  import Manager

  /** One frame of the corrected recursion: at most one deeper frame. */
  function IntendedFrom(m: Manager.State, req: Request, oracle: Oracle, pos: nat, retry: nat): (r: Run)
    decreases Remaining(m, retry)
    ensures m.initialized ==> r.next > pos
  {
    if !m.initialized then Run(Err(NotInitialized(req.verb)), pos, [])
    else
      match oracle(pos)
      case Success(body) =>
        Run(Ok(body), pos + 1, [Attempt(retry), ResponseReceived(req.url, body)])
      case NonSuccessStatus(error) =>
        var message := AttemptFailure(req.verb, req.url, retry, m.maxRetries, Reason(error));
        if retry < m.maxRetries then
          var rest := IntendedFrom(m, req, oracle, pos + 1, retry + 1);
          Run(rest.result, rest.next, [Attempt(retry), Delay(m.retryDelay)] + rest.trace)
        else
          Run(Err(Failed(message)), pos + 1, [Attempt(retry), ErrorRaised(message)])
      case Thrown(error) =>
        var message := AttemptFailure(req.verb, req.url, retry, m.maxRetries, Reason(error));
        if retry < m.maxRetries then
          var rest := IntendedFrom(m, req, oracle, pos + 1, retry + 1);
          Run(rest.result, rest.next, [Attempt(retry), Delay(m.retryDelay)] + rest.trace)
        else
          Run(Err(Failed(Reason(error))), pos + 1, [Attempt(retry), ErrorRaised(message)])
  }

  /** The corrected fetch: the corrected recursion from counter 0. */
  function IntendedFetch(m: Manager.State, url: string, headers: map<string, string>, oracle: Oracle): (r: Run)
    ensures !m.initialized ==> r.result == Err(NotInitialized(Get)) && r.trace == []
    ensures m.initialized ==> r.next >= 1
  {
    IntendedFrom(m, Request(Get, url, None, headers), oracle, 0, 0)
  }

  /** The corrected post: the corrected recursion from counter 0. */
  function IntendedPost(m: Manager.State, url: string, data: string, headers: map<string, string>, oracle: Oracle): (r: Run)
    ensures !m.initialized ==> r.result == Err(NotInitialized(Post)) && r.trace == []
    ensures m.initialized ==> r.next >= 1
  {
    IntendedFrom(m, Request(Post, url, Some(data), headers), oracle, 0, 0)
  }

  /** The result is decided by the last outcome consumed, and no earlier
      outcome was a success. */
  lemma {:induction false} IntendedOutcome(m: Manager.State, req: Request, oracle: Oracle, pos: nat, retry: nat)
    ensures var r := IntendedFrom(m, req, oracle, pos, retry);
            m.initialized ==>
              (r.result.Ok? <==> oracle(r.next - 1).Success?)
              && (r.result.Ok? ==> oracle(r.next - 1) == Success(r.result.value))
              && RetryProperties.AllFailed(oracle, pos, r.next - 1)
    decreases Remaining(m, retry)
  {
    if m.initialized && !oracle(pos).Success? && retry < m.maxRetries {
      var rest := IntendedFrom(m, req, oracle, pos + 1, retry + 1);
      IntendedOutcome(m, req, oracle, pos + 1, retry + 1);
      RetryProperties.ExtendAllFailed(oracle, pos, rest.next - 1);
    }
  }

  /** Exactly one attempt per outcome consumed, never more than budget+1,
      and one wait before every attempt but the first. */
  lemma {:induction false} IntendedAttempts(m: Manager.State, req: Request, oracle: Oracle, pos: nat, retry: nat)
    ensures var r := IntendedFrom(m, req, oracle, pos, retry);
            m.initialized ==>
              Count(r.trace, AttemptKind) == r.next - pos <= Remaining(m, retry) + 1
              && Count(r.trace, DelayKind) + 1 == r.next - pos
    decreases Remaining(m, retry)
  {
    if m.initialized {
      var d := m.retryDelay;
      if oracle(pos).Success? {
        var body := oracle(pos).body;
        RetryProperties.CountTwo(Attempt(retry), ResponseReceived(req.url, body), AttemptKind);
        RetryProperties.CountTwo(Attempt(retry), ResponseReceived(req.url, body), DelayKind);
      } else if retry < m.maxRetries {
        var rest := IntendedFrom(m, req, oracle, pos + 1, retry + 1);
        RetryProperties.RemainingStep(m, retry);
        IntendedAttempts(m, req, oracle, pos + 1, retry + 1);
        RetryProperties.CountLead(retry, d, rest.trace, AttemptKind);
        RetryProperties.CountLead(retry, d, rest.trace, DelayKind);
      } else {
        var message := AttemptFailure(req.verb, req.url, retry, m.maxRetries, Reason(oracle(pos).error));
        RetryProperties.CountTwo(Attempt(retry), ErrorRaised(message), AttemptKind);
        RetryProperties.CountTwo(Attempt(retry), ErrorRaised(message), DelayKind);
      }
    }
  }

  /** `OnError` is raised once by a failed call and never by a successful
      one; `OnApiResponseReceived` the other way round. */
  lemma {:induction false} IntendedReports(m: Manager.State, req: Request, oracle: Oracle, pos: nat, retry: nat)
    ensures var r := IntendedFrom(m, req, oracle, pos, retry);
            m.initialized ==>
              Count(r.trace, ErrorKind) == (if r.result.Err? then 1 else 0)
              && Count(r.trace, ResponseKind) == (if r.result.Ok? then 1 else 0)
    decreases Remaining(m, retry)
  {
    if m.initialized {
      var d := m.retryDelay;
      if oracle(pos).Success? {
        var body := oracle(pos).body;
        RetryProperties.CountTwo(Attempt(retry), ResponseReceived(req.url, body), ErrorKind);
        RetryProperties.CountTwo(Attempt(retry), ResponseReceived(req.url, body), ResponseKind);
      } else if retry < m.maxRetries {
        var rest := IntendedFrom(m, req, oracle, pos + 1, retry + 1);
        IntendedReports(m, req, oracle, pos + 1, retry + 1);
        RetryProperties.CountLead(retry, d, rest.trace, ErrorKind);
        RetryProperties.CountLead(retry, d, rest.trace, ResponseKind);
      } else {
        var message := AttemptFailure(req.verb, req.url, retry, m.maxRetries, Reason(oracle(pos).error));
        RetryProperties.CountTwo(Attempt(retry), ErrorRaised(message), ErrorKind);
        RetryProperties.CountTwo(Attempt(retry), ErrorRaised(message), ResponseKind);
      }
    }
  }

  /** When every attempt fails, the call gives up after exactly budget+1
      attempts. */
  lemma {:induction false} PersistentFailureIsBounded(m: Manager.State, req: Request, oracle: Oracle, pos: nat, retry: nat)
    requires m.initialized
    requires forall j :: pos <= j ==> !oracle(j).Success?
    ensures var r := IntendedFrom(m, req, oracle, pos, retry);
            r.result.Err? && r.next == pos + Remaining(m, retry) + 1
    decreases Remaining(m, retry)
  {
    if retry < m.maxRetries {
      RetryProperties.RemainingStep(m, retry);
      PersistentFailureIsBounded(m, req, oracle, pos + 1, retry + 1);
    }
  }

  /** If the first success comes `j` outcomes in and `j` is within the
      budget, the call returns that body after exactly j+1 attempts. */
  lemma {:induction false} FirstSuccessWins(m: Manager.State, req: Request, oracle: Oracle, pos: nat, retry: nat, j: nat)
    requires m.initialized
    requires j <= Remaining(m, retry)
    requires RetryProperties.AllFailed(oracle, pos, pos + j) && oracle(pos + j).Success?
    ensures var r := IntendedFrom(m, req, oracle, pos, retry);
            r.result == Ok(oracle(pos + j).body) && r.next == pos + j + 1
    decreases j
  {
    if j > 0 {
      RetryProperties.RemainingStep(m, retry);
      FirstSuccessWins(m, req, oracle, pos + 1, retry + 1, j - 1);
    }
  }

  /** Where no attempt returns a non-success status, the as-written engine
      and the corrected one coincide, events included. */
  lemma {:induction false} AgreesWithoutStatusFailures(m: Manager.State, req: Request, oracle: Oracle, pos: nat, retry: nat)
    requires forall j :: pos <= j ==> !oracle(j).NonSuccessStatus?
    ensures RetryFrom(m, req, oracle, pos, retry) == IntendedFrom(m, req, oracle, pos, retry)
    decreases Remaining(m, retry)
  {
    if m.initialized && oracle(pos).Thrown? && retry < m.maxRetries {
      AgreesWithoutStatusFailures(m, req, oracle, pos + 1, retry + 1);
    }
  }

  /** On the input that shows the as-written amplification, the corrected
      fetch makes two attempts and raises `OnError` once. */
  lemma IntendedOnAmplifyingInput(url: string)
    ensures var m := Manager.State(true, 30.0, 1, 1.0);
            var r := IntendedFetch(m, url, map[], j => NonSuccessStatus("503"));
            r.result.Err? && r.next == 2 && Count(r.trace, AttemptKind) == 2
            && Count(r.trace, ErrorKind) == 1
  {
    var m := Manager.State(true, 30.0, 1, 1.0);
    var oracle: Oracle := j => NonSuccessStatus("503");
    var req := Request(Get, url, None, map[]);
    PersistentFailureIsBounded(m, req, oracle, 0, 0);
    IntendedAttempts(m, req, oracle, 0, 0);
    IntendedReports(m, req, oracle, 0, 0);
  }
}
