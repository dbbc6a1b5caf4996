/** The manager's retrying fetch and post, as written.

    `FetchDataWithRetryAsync` / `PostDataWithRetryAsync` make one attempt per
    frame.  A transport exception and a non-success status are handled on
    two different paths:

    - a non-success status is handled INSIDE the `try`: below the budget the
      frame waits and recurses there, so a failure coming back from the
      deeper frame lands in the same frame's `catch`, which waits and
      recurses a second time; at the budget the frame raises `OnError` and
      throws inside the `try`, so its own `catch` raises `OnError` again and
      rethrows;
    - a thrown exception goes straight to the `catch`, which waits and
      recurses (outside the `try`) or, at the budget, raises `OnError` and
      rethrows.

    The network is an oracle: `oracle(j)` is the outcome of the j-th attempt
    the call makes.  Each wait is a `Delay` event carrying the configured
    delay; the engine's log lines are not recorded. */
module Retry {
  import opened Wrappers
  import Text
  import Manager

  datatype Verb = Get | Post

  /** One logical call: verb, URL, POST body and headers.  Body and headers
      only reach the transport, which the oracle stands for. */
  datatype Request = Request(verb: Verb, url: string, body: Option<string>, headers: map<string, string>)

  /** What one attempt came back with: the body of a successful response, the
      transport's error text for a non-success result, or the message of an
      exception thrown while sending. */
  datatype Outcome = Success(body: string) | NonSuccessStatus(error: string) | Thrown(error: string)

  type Oracle = nat -> Outcome

  /** Observable events of a call: an attempt with its `currentRetry`, a
      retry wait, an `OnError` notification, an `OnApiResponseReceived`
      notification. */
  datatype Event = Attempt(retry: int) | Delay(seconds: real) | ErrorRaised(message: Message) | ResponseReceived(url: string, body: string)

  /** An `OnError` or exception message, kept symbolic so that reasoning
      about the recursion never spells strings out: a transport's own error
      text, or the per-attempt failure text wrapped around a cause. `Render`
      gives the exact string. */
  datatype Message =
    | Reason(text: string)
    | AttemptFailure(verb: Verb, url: string, retry: int, maxRetries: int, cause: Message)

  /** Why a call failed: the not-initialised guard, or the exception that
      escaped the outermost frame. */
  datatype CallError = NotInitialized(verb: Verb) | Failed(message: Message)

  /** The call's result, the oracle position after its last attempt, and its events. */
  datatype Run = Run(result: Result<string, CallError>, next: nat, trace: seq<Event>)

  datatype Kind = AttemptKind | DelayKind | ErrorKind | ResponseKind

  function KindOf(e: Event): Kind {
    match e
    case Attempt(_) => AttemptKind
    case Delay(_) => DelayKind
    case ErrorRaised(_) => ErrorKind
    case ResponseReceived(_, _) => ResponseKind
  }

  /** 1 when the event is of the kind, else 0. */
  function Weight(e: Event, kind: Kind): nat {
    if KindOf(e) == kind then 1 else 0
  }

  /** Number of events of one kind in a trace. */
  function Count(t: seq<Event>, kind: Kind): nat
    decreases |t|
  {
    if |t| == 0 then 0 else Weight(t[0], kind) + Count(t[1..], kind)
  }

  lemma CountCons(e: Event, t: seq<Event>, kind: Kind)
    ensures Count([e] + t, kind) == Weight(e, kind) + Count(t, kind)
  {
    assert ([e] + t)[1..] == t;
  }

  /** Counting distributes over concatenation. */
  lemma {:induction false} CountAppend(a: seq<Event>, b: seq<Event>, kind: Kind)
    ensures Count(a + b, kind) == Count(a, kind) + Count(b, kind)
    decreases |a|
  {
    if |a| == 0 {
      assert a + b == b;
    } else {
      assert (a + b)[1..] == a[1..] + b;
      CountAppend(a[1..], b, kind);
    }
  }

  /** Every attempt but the first comes right after a retry wait. */
  ghost predicate DelayBeforeEachRetry(t: seq<Event>) {
    forall i :: 0 < i < |t| && t[i].Attempt? ==> t[i - 1].Delay?
  }

  /** Joining two such traces keeps the property when the seam does. */
  lemma ConcatDelayBeforeEachRetry(a: seq<Event>, b: seq<Event>)
    requires DelayBeforeEachRetry(a) && DelayBeforeEachRetry(b)
    requires |b| > 0 && b[0].Attempt? ==> |a| > 0 && a[|a| - 1].Delay?
    ensures DelayBeforeEachRetry(a + b)
  {
    var t := a + b;
    forall i | 0 < i < |t| && t[i].Attempt?
      ensures t[i - 1].Delay?
    {
      if i > |a| {
        assert t[i] == b[i - |a|] && t[i - 1] == b[i - 1 - |a|];
      }
    }
  }

  /** The text of a message: "Failed to fetch data from URL (attempt
      k+1/max+1): cause" for a GET, "Failed to post data to URL (...)" for a
      POST, around the cause's own text. */
  function Render(msg: Message): (r: string)
    ensures msg.Reason? ==> r == msg.text
  {
    match msg
    case Reason(text) => text
    case AttemptFailure(verb, url, retry, maxRetries, cause) =>
      (match verb
       case Get => "Failed to fetch data from " + url
       case Post => "Failed to post data to " + url)
      + " (attempt " + Text.IntToString(retry + 1) + "/" + Text.IntToString(maxRetries + 1) + "): " + Render(cause)
  }

  /** The exception message a caller sees. */
  function ErrorText(e: CallError): string {
    match e
    case NotInitialized(Get) => "QuantumLeapManager must be initialized before fetching data"
    case NotInitialized(Post) => "QuantumLeapManager must be initialized before posting data"
    case Failed(msg) => Render(msg)
  }

  /** Retries still allowed to a frame with counter `retry`. */
  function Remaining(m: Manager.State, retry: int): nat {
    if m.maxRetries > retry then m.maxRetries - retry else 0
  }

  /** One frame of the retry recursion, with counter `retry`, whose attempt
      uses oracle position `pos`.  It mirrors the source's try/catch nesting. */
  function RetryFrom(m: Manager.State, req: Request, oracle: Oracle, pos: nat, retry: nat): (r: Run)
    decreases Remaining(m, retry)
    ensures m.initialized ==> r.next > pos
  {
    if !m.initialized then Run(Err(NotInitialized(req.verb)), pos, [])
    else
      match oracle(pos)
      case Success(body) =>
        Run(Ok(body), pos + 1, [Attempt(retry), ResponseReceived(req.url, body)])
      case NonSuccessStatus(error) =>
        var message := AttemptFailure(req.verb, req.url, retry, m.maxRetries, Reason(error));
        if retry < m.maxRetries then
          var first := RetryFrom(m, req, oracle, pos + 1, retry + 1);
          if first.result.Ok? then
            Run(first.result, first.next, [Attempt(retry), Delay(m.retryDelay)] + first.trace)
          else
            // the deeper frame's exception is caught by this frame's catch
            var second := RetryFrom(m, req, oracle, first.next, retry + 1);
            Run(second.result, second.next,
                [Attempt(retry), Delay(m.retryDelay)] + first.trace + [Delay(m.retryDelay)] + second.trace)
        else
          // thrown inside the try: reported here, then again by the catch
          var caught := AttemptFailure(req.verb, req.url, retry, m.maxRetries, message);
          Run(Err(Failed(message)), pos + 1, [Attempt(retry), ErrorRaised(message), ErrorRaised(caught)])
      case Thrown(error) =>
        var message := AttemptFailure(req.verb, req.url, retry, m.maxRetries, Reason(error));
        if retry < m.maxRetries then
          var rest := RetryFrom(m, req, oracle, pos + 1, retry + 1);
          Run(rest.result, rest.next, [Attempt(retry), Delay(m.retryDelay)] + rest.trace)
        else
          Run(Err(Failed(Reason(error))), pos + 1, [Attempt(retry), ErrorRaised(message)])
  }

  /** `FetchDataAsync(url, headers)`: the retry recursion from counter 0. */
  function FetchDataAsync(m: Manager.State, url: string, headers: map<string, string>, oracle: Oracle): (r: Run)
    ensures !m.initialized ==> r.result == Err(NotInitialized(Get)) && r.trace == []
    ensures !m.initialized ==> ErrorText(r.result.error) == "QuantumLeapManager must be initialized before fetching data"
  {
    RetryFrom(m, Request(Get, url, None, headers), oracle, 0, 0)
  }

  /** `PostDataAsync(url, data, headers)`: the retry recursion from counter 0. */
  function PostDataAsync(m: Manager.State, url: string, data: string, headers: map<string, string>, oracle: Oracle): (r: Run)
    ensures !m.initialized ==> r.result == Err(NotInitialized(Post)) && r.trace == []
    ensures !m.initialized ==> ErrorText(r.result.error) == "QuantumLeapManager must be initialized before posting data"
  {
    RetryFrom(m, Request(Post, url, Some(data), headers), oracle, 0, 0)
  }
}
