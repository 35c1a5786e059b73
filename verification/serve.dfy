/**
 `Server.serve` and `Server.serve_until`: accept one connection per iteration,
 hand it to the client handler, swallow every `Exception` it raises, and keep
 looping until the stop event is observed set.

 The accepting socket and the other thread that sets the event are inputs: one
 `Connection` per iteration the loop may run, and the check at which the
 event is first observed set. A run covers at most `|conns|` iterations; a
 loop still going after them ends as `StillServing`.
 */
module ServeLoop {
  import opened PyRuntime
  import opened Protocol

  /** What one `serve()` meets: `accept()` raised (its timeout is the common
      case), or a client connected, delivered `received`, and `sendall` of the
      response would raise `sendError` if it is present. */
  datatype Connection =
    | AcceptFailed(exc: Exc)
    | Accepted(received: Received, sendError: Option<Exc>)

  /** The optional `threading.Event`: its state when `serve_until` is entered,
      and the loop check (counted from 0) before which another thread sets it. */
  datatype StopEvent =
    | NoEvent
    | Event(setBeforeEntry: bool, setAtCheck: Option<nat>)

  /** How a bounded run of the loop ended. */
  datatype LoopExit = Stopped | StillServing | Crashed(exc: Exc)

  /** The observable effect of a run: iterations completed, responses sent, the
      exceptions logged and swallowed, and how it ended. */
  datatype ServeRun = ServeRun(served: nat, delivered: seq<ApiResponse>, swallowed: seq<Exc>, exit: LoopExit)

  /** `Server.serve`: `Ok(Some(r))` when response `r` was sent, `Ok(None)` when
      nothing was, `Err(e)` when `e` propagated out of `serve`. */
  function ServeOne(conn: Connection, decode: string -> Result<ApiRequest>, apis: map<string, Callable>): Result<Option<ApiResponse>>
  {
    match conn
    case AcceptFailed(e) => Err(e)
    case Accepted(received, sendError) =>
      match Handle(received, decode, apis)
      case NoResponse => Ok(None)
      case Escaped(e, _) => Err(e)
      case Responded(response) =>
        if sendError.Some? then Err(sendError.value) else Ok(Some(response))
  }

  /** What one `serve()` does, in terms of the handler: a failed `accept`
      propagates; a handled connection sends the handler's response unless
      `sendall` raises; nothing is sent exactly for an empty payload; whatever
      escapes the handler escapes `serve`; a sent response answers the request
      the connection carried. */
  lemma ServeOneOutcome(conn: Connection, decode: string -> Result<ApiRequest>, apis: map<string, Callable>)
    ensures var r := ServeOne(conn, decode, apis);
            && (conn.AcceptFailed? ==> r == Err(conn.exc))
            && (conn.Accepted? && Handle(conn.received, decode, apis).Responded? ==>
                  r == (if conn.sendError.Some? then Err(conn.sendError.value)
                        else Ok(Some(Handle(conn.received, decode, apis).response))))
            && (conn.Accepted? && Handle(conn.received, decode, apis).Escaped? ==>
                  r == Err(Handle(conn.received, decode, apis).exc))
            && (r == Ok(None) <==> conn.Accepted? && conn.received == Received(""))
            && (r.Ok? && r.value.Some? ==> Answers(conn, decode, r.value.value))
  {
  }

  /** The connection raised something the loop's `except Exception` does not catch. */
  predicate Kills(conn: Connection, decode: string -> Result<ApiRequest>, apis: map<string, Callable>) {
    var r := ServeOne(conn, decode, apis);
    r.Err? && !r.exc.IsException()
  }

  /** The event is observed set at loop check `i`: it was set after the entry
      `clear()` and no later than that check. */
  predicate StopSeen(event: StopEvent, i: nat) {
    event.Event? && event.setAtCheck.Some? && event.setAtCheck.value <= i
  }

  /** The connection carried a request that decodes to one with `response`'s id. */
  predicate Answers(conn: Connection, decode: string -> Result<ApiRequest>, response: ApiResponse) {
    && conn.Accepted?
    && conn.received.Received?
    && decode(conn.received.text).Ok?
    && decode(conn.received.text).value.apiId == response.apiId
  }

  /** The response a served connection sent, if any. */
  function SentBy(outcome: Result<Option<ApiResponse>>): seq<ApiResponse> {
    if outcome.Ok? && outcome.value.Some? then [outcome.value.value] else []
  }

  /** The exception a served connection raised, if any. */
  function RaisedBy(outcome: Result<Option<ApiResponse>>): seq<Exc> {
    if outcome.Err? then [outcome.exc] else []
  }

  /** The responses the first `n` served connections send, in order. */
  function Delivered(conns: seq<Connection>, n: nat, decode: string -> Result<ApiRequest>, apis: map<string, Callable>): seq<ApiResponse>
    requires n <= |conns|
  {
    if n == 0 then []
    else Delivered(conns, n - 1, decode, apis) + SentBy(ServeOne(conns[n - 1], decode, apis))
  }

  /** A served connection gets at most one response, however the loop goes:
      there are never more responses than served connections. */
  lemma {:induction false} OneResponsePerConnection(conns: seq<Connection>, n: nat, decode: string -> Result<ApiRequest>, apis: map<string, Callable>)
    requires n <= |conns|
    ensures |Delivered(conns, n, decode, apis)| <= n
  {
    if n > 0 {
      OneResponsePerConnection(conns, n - 1, decode, apis);
      var outcome := ServeOne(conns[n - 1], decode, apis);
      assert |SentBy(outcome)| <= 1;
    }
  }

  /** Every response the loop sends answers the request of one of the served
      connections: it carries that request's id. */
  lemma {:induction false} DeliveredAnswersRequests(conns: seq<Connection>, n: nat, decode: string -> Result<ApiRequest>, apis: map<string, Callable>)
    requires n <= |conns|
    ensures forall k :: 0 <= k < |Delivered(conns, n, decode, apis)| ==>
              exists j :: 0 <= j < n && Answers(conns[j], decode, Delivered(conns, n, decode, apis)[k])
  {
    if n > 0 {
      DeliveredAnswersRequests(conns, n - 1, decode, apis);
      ServeOneOutcome(conns[n - 1], decode, apis);
      var before := Delivered(conns, n - 1, decode, apis);
      var last := SentBy(ServeOne(conns[n - 1], decode, apis));
      var sent := Delivered(conns, n, decode, apis);
      assert sent == before + last;
      forall k | 0 <= k < |sent|
        ensures exists j :: 0 <= j < n && Answers(conns[j], decode, sent[k])
      {
        if k < |before| {
          assert sent[k] == before[k];
        } else {
          assert sent[k] == last[k - |before|];
        }
      }
    } else {
      assert Delivered(conns, n, decode, apis) == [];
    }
  }

  /** The exceptions the first `n` served connections raised, in order. */
  function Swallowed(conns: seq<Connection>, n: nat, decode: string -> Result<ApiRequest>, apis: map<string, Callable>): seq<Exc>
    requires n <= |conns|
  {
    if n == 0 then []
    else Swallowed(conns, n - 1, decode, apis) + RaisedBy(ServeOne(conns[n - 1], decode, apis))
  }

  /** The loop only goes on past connections that did not kill it, so what it
      swallowed are all `Exception`s. */
  lemma {:induction false} SwallowedAreExceptions(conns: seq<Connection>, n: nat, decode: string -> Result<ApiRequest>, apis: map<string, Callable>)
    requires n <= |conns|
    requires forall j :: 0 <= j < n ==> !Kills(conns[j], decode, apis)
    ensures forall e :: e in Swallowed(conns, n, decode, apis) ==> e.IsException()
  {
    if n > 0 {
      SwallowedAreExceptions(conns, n - 1, decode, apis);
      assert !Kills(conns[n - 1], decode, apis);
    }
  }

  /** `Server.serve_until`. The event is cleared on entry, so a stop requested
      before the call is discarded; without an event the loop never stops; an
      `Exception` from any connection is logged and serving goes on. */
  method ServeUntil(event: StopEvent, conns: seq<Connection>,
                    decode: string -> Result<ApiRequest>, apis: map<string, Callable>)
    returns (run: ServeRun)
    ensures run.served <= |conns|
    ensures forall j :: 0 <= j < run.served ==> !StopSeen(event, j) && !Kills(conns[j], decode, apis)
    ensures run.delivered == Delivered(conns, run.served, decode, apis)
    ensures run.swallowed == Swallowed(conns, run.served, decode, apis)
    ensures run.exit.Stopped? <==> StopSeen(event, run.served)
    ensures run.exit.Crashed? ==>
              && run.served < |conns|
              && ServeOne(conns[run.served], decode, apis) == Err(run.exit.exc)
              && !run.exit.exc.IsException()
    ensures run.exit.StillServing? ==> run.served == |conns|
  {
    var i := 0;
    var delivered: seq<ApiResponse> := [];
    var swallowed: seq<Exc> := [];
    while i < |conns|
      invariant 0 <= i <= |conns|
      invariant event.Event? && event.setAtCheck.Some? ==> i <= event.setAtCheck.value
      invariant forall j :: 0 <= j < i ==> !Kills(conns[j], decode, apis)
      invariant delivered == Delivered(conns, i, decode, apis)
      invariant swallowed == Swallowed(conns, i, decode, apis)
    {
      if event.Event? && event.setAtCheck == Some(i) {
        return ServeRun(i, delivered, swallowed, Stopped);
      }
      var outcome := ServeOne(conns[i], decode, apis);
      if outcome.Err? && !outcome.exc.IsException() {
        return ServeRun(i, delivered, swallowed, Crashed(outcome.exc));
      }
      delivered := delivered + SentBy(outcome);
      swallowed := swallowed + RaisedBy(outcome);
      i := i + 1;
    }
    if event.Event? && event.setAtCheck == Some(i) {
      return ServeRun(i, delivered, swallowed, Stopped);
    }
    run := ServeRun(i, delivered, swallowed, StillServing);
  }
}
