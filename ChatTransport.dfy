/** The chat contract every backend implements, and the retry algorithm both backends
    share. The network is an oracle: `transport(k)` is what the `k`-th attempt's POST
    brings back. Requests sent and retry waits are recorded in ghost variables. */
module ChatTransport {
  import opened Base
  import opened Strings
  import opened Json

  datatype Role = System | User | Assistant

  datatype ChatMessage = ChatMessage(role: Role, content: string)

  datatype ChatOptions = ChatOptions(temperature: Option<real>)

  /** The JSON body of a request: the hosted backend's, or the local backend's with
      streaming switched off and the temperature nested under `options`. */
  datatype RequestBody =
    | HostedBody(model: string, messages: seq<ChatMessage>, temperature: real)
    | LocalBody(model: string, messages: seq<ChatMessage>, stream: bool, optionsTemperature: real)

  /** One POST as the transport sees it. */
  datatype HttpRequest = HttpRequest(
    url: string,
    headers: seq<(string, string)>,
    body: RequestBody,
    timeoutMs: int)

  /** What one attempt yields: a response with its decoded body, or a thrown transport
      failure (timeout, connection error, non-2xx status). */
  datatype Outcome = Responded(data: Json) | Failed

  /** The fixed pause between attempts, in milliseconds. */
  const RetryDelayMs: int := 1000

  /** The observable effect of one `chat` call: its result, how many requests it
      issued and how many times it waited. */
  datatype Trace = Trace(result: Option<string>, requests: nat, waits: nat)

  /** What an attempt's outcome returns when it ends the loop: a string completion,
      trimmed, or nothing. */
  function Answer(o: Outcome, content: Json -> Option<string>): Option<string> {
    match o
    case Responded(d) => (match content(d) case Some(c) => Some(Trim(c)) case None => None)
    case Failed => None
  }

  /** The retry algorithm from attempt `attempt` on, with `n` attempts allowed: a
      response ends the loop (with the completion, or with nothing when the
      completion field is missing); a failure before the last attempt waits and goes
      on; a failure on the last attempt gives nothing. */
  function Run(transport: nat -> Outcome, content: Json -> Option<string>, attempt: nat, n: int): Trace
    requires attempt >= 1
    decreases if attempt <= n then n - attempt + 1 else 0
  {
    if attempt > n then Trace(None, 0, 0)
    else match transport(attempt)
      case Responded(_) => Trace(Answer(transport(attempt), content), 1, 0)
      case Failed =>
        if attempt == n then Trace(None, 1, 0)
        else
          var t := Run(transport, content, attempt + 1, n);
          Trace(t.result, t.requests + 1, t.waits + 1)
  }

  /** `t` preceded by `k` failed attempts, each followed by a wait. */
  function AfterFailures(t: Trace, k: nat): Trace {
    Trace(t.result, t.requests + k, t.waits + k)
  }

  /** The loop, run for `n` attempts of the same request `req`. */
  method Attempts(req: HttpRequest, n: int, transport: nat -> Outcome, content: Json -> Option<string>)
    returns (r: Option<string>, ghost sent: seq<HttpRequest>, ghost waited: seq<int>)
    ensures var t := Run(transport, content, 1, n);
            r == t.result && |sent| == t.requests && |waited| == t.waits
    ensures forall i :: 0 <= i < |sent| ==> sent[i] == req
    ensures forall i :: 0 <= i < |waited| ==> waited[i] == RetryDelayMs
  {
    sent, waited := [], [];
    var attempt: nat := 1;
    while attempt <= n
      invariant 1 <= attempt
      invariant attempt > 1 ==> attempt <= n
      invariant |sent| == attempt - 1 && |waited| == attempt - 1
      invariant forall i :: 0 <= i < |sent| ==> sent[i] == req
      invariant forall i :: 0 <= i < |waited| ==> waited[i] == RetryDelayMs
      invariant attempt <= n ==>
                  Run(transport, content, 1, n) == AfterFailures(Run(transport, content, attempt, n), attempt - 1)
      decreases n - attempt
    {
      var outcome := transport(attempt);
      sent := sent + [req];
      match outcome {
        case Responded(data) =>
          var c := content(data);
          if c.Some? {
            r := Some(Trim(c.value));
            return;
          }
          r := None;
          return;
        case Failed =>
          if attempt == n {
            r := None;
            return;
          }
          waited := waited + [RetryDelayMs];
          attempt := attempt + 1;
      }
    }
    r := None;
  }

  /** A transport that always fails: exactly `n - attempt + 1` requests, one wait fewer,
      and no result. */
  lemma {:induction false} AlwaysFailing(transport: nat -> Outcome, content: Json -> Option<string>, attempt: nat, n: int)
    requires 1 <= attempt <= n
    requires forall k :: attempt <= k <= n ==> transport(k).Failed?
    ensures Run(transport, content, attempt, n) == Trace(None, n - attempt + 1, n - attempt)
    decreases n - attempt
  {
    if attempt < n {
      AlwaysFailing(transport, content, attempt + 1, n);
    }
  }

  /** What the loop does, whatever the transport: it issues no request exactly when no
      attempt is allowed; otherwise its last request is attempt `k <= n`, every earlier
      one failed, it waited once after each of those, attempt `k` produced the result,
      and a failure is last only when `k == n`. */
  lemma {:induction false} RunShape(transport: nat -> Outcome, content: Json -> Option<string>, attempt: nat, n: int)
    requires attempt >= 1
    ensures var t := Run(transport, content, attempt, n);
            && (t.requests == 0 <==> attempt > n)
            && (t.requests > 0 ==>
                  var k := attempt + t.requests - 1;
                  && k <= n
                  && t.waits == t.requests - 1
                  && (forall j :: attempt <= j < k ==> transport(j).Failed?)
                  && t.result == Answer(transport(k), content)
                  && (transport(k).Failed? ==> k == n))
    decreases if attempt <= n then n - attempt + 1 else 0
  {
    if attempt <= n && transport(attempt).Failed? && attempt < n {
      RunShape(transport, content, attempt + 1, n);
    }
  }

  /** A response whose completion field is missing ends the call at once: one request,
      no wait, no result, whatever `n` is. */
  lemma MalformedStops(transport: nat -> Outcome, content: Json -> Option<string>, n: int)
    requires n >= 1 && transport(1).Responded? && content(transport(1).data).None?
    ensures Run(transport, content, 1, n) == Trace(None, 1, 0)
  {
  }

  /** With no attempt allowed nothing is sent and there is no result. */
  lemma NoAttempts(transport: nat -> Outcome, content: Json -> Option<string>, n: int)
    requires n <= 0
    ensures Run(transport, content, 1, n) == Trace(None, 0, 0)
  {
  }
}
