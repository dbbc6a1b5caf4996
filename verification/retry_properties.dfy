/** What the as-written retry recursion does, over every oracle: how a
    call's result follows from the outcomes it consumed, how many attempts,
    waits and notifications it produces, and the exact counts under
    persistent failure of each kind. */
module RetryProperties {
  import opened Wrappers
  import opened Retry
  import Manager

  function Pow2(n: nat): (r: nat)
    ensures r >= 1
  {
    if n == 0 then 1 else 2 * Pow2(n - 1)
  }

  /** Below the budget, the deeper frame has one retry fewer, and the
      attempt bound halves (rounded down). */
  lemma RemainingStep(m: Manager.State, retry: nat)
    ensures retry < m.maxRetries ==> Remaining(m, retry + 1) + 1 == Remaining(m, retry)
    ensures retry < m.maxRetries ==> Pow2(Remaining(m, retry) + 1) == 2 * Pow2(Remaining(m, retry + 1) + 1)
  {
  }

  lemma CountOne(x: Event, kind: Kind)
    ensures Count([x], kind) == Weight(x, kind)
  {
    assert [x][1..] == [];
  }

  lemma CountTwo(x: Event, y: Event, kind: Kind)
    ensures Count([x, y], kind) == Weight(x, kind) + Weight(y, kind)
  {
    assert [x, y] == [x] + [y];
    CountCons(x, [y], kind);
    CountOne(y, kind);
  }

  lemma CountThree(x: Event, y: Event, z: Event, kind: Kind)
    ensures Count([x, y, z], kind) == Weight(x, kind) + Weight(y, kind) + Weight(z, kind)
  {
    assert [x, y, z] == [x] + [y, z];
    CountCons(x, [y, z], kind);
    CountTwo(y, z, kind);
  }

  /** Counts over the trace of a frame that waited and retried once. */
  lemma CountLead(retry: int, d: real, a: seq<Event>, kind: Kind)
    ensures Count([Attempt(retry), Delay(d)] + a, kind)
         == Weight(Attempt(retry), kind) + Weight(Delay(d), kind) + Count(a, kind)
  {
    CountAppend([Attempt(retry), Delay(d)], a, kind);
    CountTwo(Attempt(retry), Delay(d), kind);
  }

  /** Counts over the trace of a frame that waited and retried twice. */
  lemma CountLeadTwice(retry: int, d: real, a: seq<Event>, b: seq<Event>, kind: Kind)
    ensures Count([Attempt(retry), Delay(d)] + a + [Delay(d)] + b, kind)
         == Weight(Attempt(retry), kind) + 2 * Weight(Delay(d), kind) + Count(a, kind) + Count(b, kind)
  {
    var lead := [Attempt(retry), Delay(d)];
    CountAppend(lead + a + [Delay(d)], b, kind);
    CountAppend(lead + a, [Delay(d)], kind);
    CountLead(retry, d, a, kind);
    CountOne(Delay(d), kind);
  }

  /** One attempt per oracle outcome consumed. */
  lemma {:induction false} AttemptAccounting(m: Manager.State, req: Request, oracle: Oracle, pos: nat, retry: nat)
    ensures var r := RetryFrom(m, req, oracle, pos, retry);
            m.initialized ==> Count(r.trace, AttemptKind) == r.next - pos
    decreases Remaining(m, retry)
  {
    if m.initialized {
      var d := m.retryDelay;
      if oracle(pos).Success? {
        CountTwo(Attempt(retry), ResponseReceived(req.url, oracle(pos).body), AttemptKind);
      } else if retry < m.maxRetries {
        var first := RetryFrom(m, req, oracle, pos + 1, retry + 1);
        AttemptAccounting(m, req, oracle, pos + 1, retry + 1);
        CountLead(retry, d, first.trace, AttemptKind);
        if oracle(pos).NonSuccessStatus? && first.result.Err? {
          var second := RetryFrom(m, req, oracle, first.next, retry + 1);
          AttemptAccounting(m, req, oracle, first.next, retry + 1);
          CountLeadTwice(retry, d, first.trace, second.trace, AttemptKind);
        }
      } else {
        var message := AttemptFailure(req.verb, req.url, retry, m.maxRetries, Reason(oracle(pos).error));
        var caught := AttemptFailure(req.verb, req.url, retry, m.maxRetries, message);
        CountThree(Attempt(retry), ErrorRaised(message), ErrorRaised(caught), AttemptKind);
        CountTwo(Attempt(retry), ErrorRaised(message), AttemptKind);
      }
    }
  }

  /** Exactly one wait before every attempt but the first. */
  lemma {:induction false} WaitAccounting(m: Manager.State, req: Request, oracle: Oracle, pos: nat, retry: nat)
    ensures var r := RetryFrom(m, req, oracle, pos, retry);
            m.initialized ==> Count(r.trace, DelayKind) + 1 == r.next - pos
    decreases Remaining(m, retry)
  {
    if m.initialized {
      var d := m.retryDelay;
      if oracle(pos).Success? {
        CountTwo(Attempt(retry), ResponseReceived(req.url, oracle(pos).body), DelayKind);
      } else if retry < m.maxRetries {
        var first := RetryFrom(m, req, oracle, pos + 1, retry + 1);
        WaitAccounting(m, req, oracle, pos + 1, retry + 1);
        CountLead(retry, d, first.trace, DelayKind);
        if oracle(pos).NonSuccessStatus? && first.result.Err? {
          var second := RetryFrom(m, req, oracle, first.next, retry + 1);
          WaitAccounting(m, req, oracle, first.next, retry + 1);
          CountLeadTwice(retry, d, first.trace, second.trace, DelayKind);
        }
      } else {
        var message := AttemptFailure(req.verb, req.url, retry, m.maxRetries, Reason(oracle(pos).error));
        var caught := AttemptFailure(req.verb, req.url, retry, m.maxRetries, message);
        CountThree(Attempt(retry), ErrorRaised(message), ErrorRaised(caught), DelayKind);
        CountTwo(Attempt(retry), ErrorRaised(message), DelayKind);
      }
    }
  }

  lemma WaitsAfterLead(retry: int, d: real, a: seq<Event>)
    ensures DelayBeforeEachRetry(a) ==> DelayBeforeEachRetry([Attempt(retry), Delay(d)] + a)
  {
    if DelayBeforeEachRetry(a) {
      ConcatDelayBeforeEachRetry([Attempt(retry), Delay(d)], a);
    }
  }

  lemma WaitsAfterLeadTwice(retry: int, d: real, a: seq<Event>, b: seq<Event>)
    ensures DelayBeforeEachRetry(a) && DelayBeforeEachRetry(b)
            ==> DelayBeforeEachRetry([Attempt(retry), Delay(d)] + a + [Delay(d)] + b)
  {
    if DelayBeforeEachRetry(a) && DelayBeforeEachRetry(b) {
      var lead := [Attempt(retry), Delay(d)];
      ConcatDelayBeforeEachRetry(lead, a);
      ConcatDelayBeforeEachRetry(lead + a, [Delay(d)]);
      ConcatDelayBeforeEachRetry(lead + a + [Delay(d)], b);
    }
  }

  /** Every attempt after the first comes right after a retry wait. */
  lemma {:induction false} WaitBeforeEachRetry(m: Manager.State, req: Request, oracle: Oracle, pos: nat, retry: nat)
    ensures m.initialized ==> DelayBeforeEachRetry(RetryFrom(m, req, oracle, pos, retry).trace)
    decreases Remaining(m, retry)
  {
    if m.initialized && !oracle(pos).Success? && retry < m.maxRetries {
      var first := RetryFrom(m, req, oracle, pos + 1, retry + 1);
      WaitBeforeEachRetry(m, req, oracle, pos + 1, retry + 1);
      WaitsAfterLead(retry, m.retryDelay, first.trace);
      if oracle(pos).NonSuccessStatus? && first.result.Err? {
        var second := RetryFrom(m, req, oracle, first.next, retry + 1);
        WaitBeforeEachRetry(m, req, oracle, first.next, retry + 1);
        WaitsAfterLeadTwice(retry, m.retryDelay, first.trace, second.trace);
      }
    }
  }

  /** A call never makes more than 2^(budget+1)-1 attempts; with no budget
      left it makes exactly one. */
  lemma {:induction false} AttemptBound(m: Manager.State, req: Request, oracle: Oracle, pos: nat, retry: nat)
    ensures var r := RetryFrom(m, req, oracle, pos, retry);
            m.initialized ==> r.next - pos <= Pow2(Remaining(m, retry) + 1) - 1
    ensures m.initialized && Remaining(m, retry) == 0 ==> RetryFrom(m, req, oracle, pos, retry).next == pos + 1
    decreases Remaining(m, retry)
  {
    if m.initialized && !oracle(pos).Success? && retry < m.maxRetries {
      var first := RetryFrom(m, req, oracle, pos + 1, retry + 1);
      RemainingStep(m, retry);
      AttemptBound(m, req, oracle, pos + 1, retry + 1);
      if oracle(pos).NonSuccessStatus? && first.result.Err? {
        AttemptBound(m, req, oracle, first.next, retry + 1);
      }
    }
  }

  /** The call's result is decided by the last outcome it consumed: it is
      `Ok` exactly when that outcome was a success, and then carries its body. */
  lemma {:induction false} ResultIsLastOutcome(m: Manager.State, req: Request, oracle: Oracle, pos: nat, retry: nat)
    ensures var r := RetryFrom(m, req, oracle, pos, retry);
            m.initialized ==>
              (r.result.Ok? <==> oracle(r.next - 1).Success?)
              && (r.result.Ok? ==> oracle(r.next - 1) == Success(r.result.value))
    decreases Remaining(m, retry)
  {
    if m.initialized && !oracle(pos).Success? && retry < m.maxRetries {
      var first := RetryFrom(m, req, oracle, pos + 1, retry + 1);
      ResultIsLastOutcome(m, req, oracle, pos + 1, retry + 1);
      if oracle(pos).NonSuccessStatus? && first.result.Err? {
        ResultIsLastOutcome(m, req, oracle, first.next, retry + 1);
      }
    }
  }

  /** Every outcome at positions `lo` to `hi - 1` is a failure. */
  predicate AllFailed(oracle: Oracle, lo: nat, hi: int)
    decreases hi - lo
  {
    lo >= hi || (!oracle(lo).Success? && AllFailed(oracle, lo + 1, hi))
  }

  /** `AllFailed` says what it means: no success in the range. */
  lemma {:induction false} AllFailedMeansNoSuccess(oracle: Oracle, lo: nat, hi: int)
    ensures AllFailed(oracle, lo, hi) <==> forall j :: lo <= j < hi ==> !oracle(j).Success?
    decreases hi - lo
  {
    if lo < hi {
      AllFailedMeansNoSuccess(oracle, lo + 1, hi);
    }
  }

  lemma {:induction false} JoinAllFailed(oracle: Oracle, lo: nat, mid: nat, hi: int)
    ensures lo <= mid && AllFailed(oracle, lo, mid) && AllFailed(oracle, mid, hi) ==> AllFailed(oracle, lo, hi)
    decreases mid - lo
  {
    if lo < mid {
      JoinAllFailed(oracle, lo + 1, mid, hi);
    }
  }

  lemma ExtendAllFailed(oracle: Oracle, lo: nat, hi: int)
    ensures !oracle(lo).Success? && AllFailed(oracle, lo + 1, hi) ==> AllFailed(oracle, lo, hi)
  {
  }

  /** The failures consumed by a frame that retried twice: its own, the
      first deeper frame's, and the second deeper frame's. */
  lemma AllFailedTwice(oracle: Oracle, lo: nat, mid: nat, hi: int)
    ensures lo < mid && !oracle(lo).Success? && AllFailed(oracle, lo + 1, mid)
            && !oracle(mid).Success? && AllFailed(oracle, mid + 1, hi)
            ==> AllFailed(oracle, lo, hi)
  {
    JoinAllFailed(oracle, lo + 1, mid, hi);
  }

  /** The call stops at the first successful attempt: every outcome it
      consumed before its last one was a failure. */
  lemma {:induction false} NoEarlierSuccess(m: Manager.State, req: Request, oracle: Oracle, pos: nat, retry: nat)
    ensures var r := RetryFrom(m, req, oracle, pos, retry);
            m.initialized ==> AllFailed(oracle, pos, r.next - 1)
    decreases Remaining(m, retry)
  {
    if m.initialized && !oracle(pos).Success? && retry < m.maxRetries {
      var first := RetryFrom(m, req, oracle, pos + 1, retry + 1);
      NoEarlierSuccess(m, req, oracle, pos + 1, retry + 1);
      ExtendAllFailed(oracle, pos, first.next - 1);
      if oracle(pos).NonSuccessStatus? && first.result.Err? {
        var second := RetryFrom(m, req, oracle, first.next, retry + 1);
        ResultIsLastOutcome(m, req, oracle, pos + 1, retry + 1);
        NoEarlierSuccess(m, req, oracle, first.next, retry + 1);
        AllFailedTwice(oracle, pos, first.next - 1, second.next - 1);
      }
    }
  }

  /** A first success within the frame's budget is what the call returns:
      each failure before it starts a deeper frame that reaches it, so the
      second retry of a frame never runs. */
  lemma {:induction false} FirstSuccessWithinBudget(m: Manager.State, req: Request, oracle: Oracle, pos: nat, retry: nat, j: nat)
    requires m.initialized && pos <= j && j - pos <= Remaining(m, retry)
    requires AllFailed(oracle, pos, j) && oracle(j).Success?
    ensures var r := RetryFrom(m, req, oracle, pos, retry);
            r.result == Ok(oracle(j).body) && r.next == j + 1
    decreases Remaining(m, retry)
  {
    if pos < j {
      RemainingStep(m, retry);
      FirstSuccessWithinBudget(m, req, oracle, pos + 1, retry + 1, j);
    }
  }

  /** Every attempt's counter lies between the frame's counter and the
      budget, and every wait lasts the configured retry delay. */
  lemma {:induction false} EventsWithinBudget(m: Manager.State, req: Request, oracle: Oracle, pos: nat, retry: nat)
    ensures var r := RetryFrom(m, req, oracle, pos, retry);
            m.initialized ==>
              forall e :: e in r.trace ==>
                (e.Attempt? ==> retry <= e.retry <= retry + Remaining(m, retry))
                && (e.Delay? ==> e.seconds == m.retryDelay)
    decreases Remaining(m, retry)
  {
    if m.initialized && !oracle(pos).Success? && retry < m.maxRetries {
      var first := RetryFrom(m, req, oracle, pos + 1, retry + 1);
      RemainingStep(m, retry);
      EventsWithinBudget(m, req, oracle, pos + 1, retry + 1);
      if oracle(pos).NonSuccessStatus? && first.result.Err? {
        EventsWithinBudget(m, req, oracle, first.next, retry + 1);
      }
    }
  }

  /** `OnApiResponseReceived` is raised once by a successful call and never
      by a failed one. */
  lemma {:induction false} ResponseAccounting(m: Manager.State, req: Request, oracle: Oracle, pos: nat, retry: nat)
    ensures var r := RetryFrom(m, req, oracle, pos, retry);
            m.initialized ==> Count(r.trace, ResponseKind) == (if r.result.Ok? then 1 else 0)
    decreases Remaining(m, retry)
  {
    if m.initialized {
      var d := m.retryDelay;
      if oracle(pos).Success? {
        CountTwo(Attempt(retry), ResponseReceived(req.url, oracle(pos).body), ResponseKind);
      } else if retry < m.maxRetries {
        var first := RetryFrom(m, req, oracle, pos + 1, retry + 1);
        ResponseAccounting(m, req, oracle, pos + 1, retry + 1);
        CountLead(retry, d, first.trace, ResponseKind);
        if oracle(pos).NonSuccessStatus? && first.result.Err? {
          var second := RetryFrom(m, req, oracle, first.next, retry + 1);
          ResponseAccounting(m, req, oracle, first.next, retry + 1);
          CountLeadTwice(retry, d, first.trace, second.trace, ResponseKind);
        }
      } else {
        var message := AttemptFailure(req.verb, req.url, retry, m.maxRetries, Reason(oracle(pos).error));
        var caught := AttemptFailure(req.verb, req.url, retry, m.maxRetries, message);
        CountThree(Attempt(retry), ErrorRaised(message), ErrorRaised(caught), ResponseKind);
        CountTwo(Attempt(retry), ErrorRaised(message), ResponseKind);
      }
    }
  }

  lemma LastOfAppend(a: seq<Event>, b: seq<Event>)
    ensures |b| > 0 ==> (a + b)[|a + b| - 1] == b[|b| - 1]
  {
  }

  /** A successful call ends with the response notification for its URL and
      body; a failed one ends with an `OnError` notification. */
  lemma {:induction false} LastEvent(m: Manager.State, req: Request, oracle: Oracle, pos: nat, retry: nat)
    ensures var r := RetryFrom(m, req, oracle, pos, retry);
            m.initialized ==>
              |r.trace| > 0
              && (r.result.Ok? ==> r.trace[|r.trace| - 1] == ResponseReceived(req.url, r.result.value))
              && (r.result.Err? ==> r.trace[|r.trace| - 1].ErrorRaised?)
    decreases Remaining(m, retry)
  {
    if m.initialized && !oracle(pos).Success? && retry < m.maxRetries {
      var d := m.retryDelay;
      var lead := [Attempt(retry), Delay(d)];
      var first := RetryFrom(m, req, oracle, pos + 1, retry + 1);
      LastEvent(m, req, oracle, pos + 1, retry + 1);
      LastOfAppend(lead, first.trace);
      if oracle(pos).NonSuccessStatus? && first.result.Err? {
        var second := RetryFrom(m, req, oracle, first.next, retry + 1);
        LastEvent(m, req, oracle, first.next, retry + 1);
        LastOfAppend(lead + first.trace + [Delay(d)], second.trace);
      }
    }
  }

  /** When every attempt from `pos` on returns a non-success status, the call
      fails after 2^(budget+1)-1 attempts and raises `OnError` 2^(budget+1)
      times: each frame below the budget runs the deeper frame twice. */
  lemma {:induction false} PersistentStatusFailure(m: Manager.State, req: Request, oracle: Oracle, pos: nat, retry: nat)
    requires m.initialized
    requires forall j :: pos <= j ==> oracle(j).NonSuccessStatus?
    ensures var r := RetryFrom(m, req, oracle, pos, retry);
            var n := Pow2(Remaining(m, retry) + 1);
            r.result.Err? && r.next - pos == n - 1 && Count(r.trace, ErrorKind) == n
    decreases Remaining(m, retry)
  {
    var d := m.retryDelay;
    if retry < m.maxRetries {
      var first := RetryFrom(m, req, oracle, pos + 1, retry + 1);
      RemainingStep(m, retry);
      PersistentStatusFailure(m, req, oracle, pos + 1, retry + 1);
      var second := RetryFrom(m, req, oracle, first.next, retry + 1);
      PersistentStatusFailure(m, req, oracle, first.next, retry + 1);
      CountLeadTwice(retry, d, first.trace, second.trace, ErrorKind);
    } else {
      var message := AttemptFailure(req.verb, req.url, retry, m.maxRetries, Reason(oracle(pos).error));
      var caught := AttemptFailure(req.verb, req.url, retry, m.maxRetries, message);
      CountThree(Attempt(retry), ErrorRaised(message), ErrorRaised(caught), ErrorKind);
    }
  }

  /** When every attempt from `pos` on throws, the call makes budget+1
      attempts, raises `OnError` once, and fails with the last exception's
      message. */
  lemma {:induction false} PersistentTransportFailure(m: Manager.State, req: Request, oracle: Oracle, pos: nat, retry: nat)
    requires m.initialized
    requires forall j :: pos <= j ==> oracle(j).Thrown?
    ensures var r := RetryFrom(m, req, oracle, pos, retry);
            var k := Remaining(m, retry);
            r.result == Err(Failed(Reason(oracle(pos + k).error))) && r.next == pos + k + 1
            && Count(r.trace, ErrorKind) == 1
    decreases Remaining(m, retry)
  {
    if retry < m.maxRetries {
      var rest := RetryFrom(m, req, oracle, pos + 1, retry + 1);
      RemainingStep(m, retry);
      PersistentTransportFailure(m, req, oracle, pos + 1, retry + 1);
      CountLead(retry, m.retryDelay, rest.trace, ErrorKind);
    } else {
      var message := AttemptFailure(req.verb, req.url, retry, m.maxRetries, Reason(oracle(pos).error));
      CountTwo(Attempt(retry), ErrorRaised(message), ErrorKind);
    }
  }

  /** With one retry allowed and every attempt answered by a non-success
      status, a fetch makes three attempts instead of two and raises
      `OnError` four times instead of once. */
  lemma StatusRetriesAmplify(url: string)
    ensures var m := Manager.State(true, 30.0, 1, 1.0);
            var r := FetchDataAsync(m, url, map[], j => NonSuccessStatus("503"));
            r.result.Err? && r.next == 3 && Count(r.trace, AttemptKind) == 3
            && Count(r.trace, ErrorKind) == 4
  {
    var m := Manager.State(true, 30.0, 1, 1.0);
    var oracle: Oracle := j => NonSuccessStatus("503");
    var req := Request(Get, url, None, map[]);
    PersistentStatusFailure(m, req, oracle, 0, 0);
    AttemptAccounting(m, req, oracle, 0, 0);
    assert Remaining(m, 0) == 1;
    assert Pow2(2) == 4 by {
      assert Pow2(0) == 1;
    }
  }

  /** A call can succeed after having already raised `OnError`: with one
      retry allowed and outcomes 503, 503, 200, the call returns the body but
      has reported two errors on the way. */
  lemma SuccessAfterReportedErrors(url: string, headers: map<string, string>)
    ensures var m := Manager.State(true, 30.0, 1, 1.0);
            var oracle: Oracle := j => if j < 2 then NonSuccessStatus("503") else Success("ok");
            var r := FetchDataAsync(m, url, headers, oracle);
            r.result == Ok("ok") && Count(r.trace, ErrorKind) == 2
  {
    var m := Manager.State(true, 30.0, 1, 1.0);
    var oracle: Oracle := j => if j < 2 then NonSuccessStatus("503") else Success("ok");
    var req := Request(Get, url, None, headers);
    var d := m.retryDelay;
    var message := AttemptFailure(Get, url, 1, 1, Reason("503"));
    var caught := AttemptFailure(Get, url, 1, 1, message);
    var first := RetryFrom(m, req, oracle, 1, 1);
    assert first == Run(Err(Failed(message)), 2, [Attempt(1), ErrorRaised(message), ErrorRaised(caught)]);
    var second := RetryFrom(m, req, oracle, 2, 1);
    assert second == Run(Ok("ok"), 3, [Attempt(1), ResponseReceived(url, "ok")]);
    CountThree(Attempt(1), ErrorRaised(message), ErrorRaised(caught), ErrorKind);
    CountTwo(Attempt(1), ResponseReceived(url, "ok"), ErrorKind);
    CountLeadTwice(0, d, first.trace, second.trace, ErrorKind);
  }

  /** The contract of one call from the outermost frame: what it returns,
      and how many attempts, waits and response notifications it makes. */
  lemma CallContract(m: Manager.State, req: Request, oracle: Oracle)
    ensures var r := RetryFrom(m, req, oracle, 0, 0);
            (!m.initialized ==> r == Run(Err(NotInitialized(req.verb)), 0, []))
            && (m.initialized ==>
                  (r.result.Ok? <==> oracle(r.next - 1).Success?)
                  && (r.result.Ok? ==> oracle(r.next - 1) == Success(r.result.value))
                  && (forall j :: 0 <= j < r.next - 1 ==> !oracle(j).Success?)
                  && Count(r.trace, AttemptKind) == r.next <= Pow2(Remaining(m, 0) + 1) - 1
                  && Count(r.trace, DelayKind) + 1 == r.next
                  && Count(r.trace, ResponseKind) == (if r.result.Ok? then 1 else 0)
                  && DelayBeforeEachRetry(r.trace))
  {
    ResultIsLastOutcome(m, req, oracle, 0, 0);
    NoEarlierSuccess(m, req, oracle, 0, 0);
    if m.initialized {
      AllFailedMeansNoSuccess(oracle, 0, RetryFrom(m, req, oracle, 0, 0).next - 1);
    }
    AttemptAccounting(m, req, oracle, 0, 0);
    WaitAccounting(m, req, oracle, 0, 0);
    AttemptBound(m, req, oracle, 0, 0);
    ResponseAccounting(m, req, oracle, 0, 0);
    WaitBeforeEachRetry(m, req, oracle, 0, 0);
  }
}
