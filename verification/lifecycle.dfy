/**
 The open/closed state of `Server`: `open` creates a listening socket only
 when the server has none, `close` always ends with no socket.

 The operating system's side (preparing the unix-socket path, creating,
 binding and listening, closing and unlinking) is an input saying which of
 those steps raise.
 */
module ServerLifecycle {
  import opened PyRuntime

  /** A socket the server created: an identity, and whether binding, listening
      and setting the accept timeout all completed on it. */
  datatype Socket = Socket(id: nat, listening: bool)

  /** The part of `Server` that `open` and `close` change: `_socket`. */
  datatype Server = Server(socket: Option<Socket>)

  /** What the system does when `open` gets past its `if`: preparing the
      address may raise, creating the socket may raise, and once the socket is
      stored, binding, listening or setting the timeout may raise. */
  datatype OpenEnv = OpenEnv(prepareError: Option<Exc>, created: Result<nat>, setupError: Option<Exc>)

  /** The server after a call and the exception the call raised, if any. */
  datatype Step = Step(server: Server, raised: Option<Exc>)

  const Closed: Server := Server(None)

  /** `Server.open`. A server that already has a socket is left alone, so a
      repeated `open` is a no-op. A failure after the socket was stored leaves
      it stored, not listening. */
  function Open(s: Server, env: OpenEnv): (r: Step)
    ensures s.socket.Some? ==> r == Step(s, None)
    ensures r.server != s ==> s.socket.None? && r.server.socket.Some?
    ensures s.socket.None? && r.raised.None? ==> r.server.socket.Some? && r.server.socket.value.listening
    ensures s.socket.None? && r.server.socket.Some? && !r.server.socket.value.listening ==> r.raised.Some?
    ensures s.socket.None? && env.prepareError.Some? ==> r == Step(s, env.prepareError)
    ensures s.socket.None? && env.prepareError.None? && env.created.Err? ==> r == Step(s, Some(env.created.exc))
  {
    if s.socket.Some? then Step(s, None)
    else if env.prepareError.Some? then Step(s, env.prepareError)
    else
      match env.created
      case Err(e) => Step(s, Some(e))
      case Ok(id) =>
        if env.setupError.Some? then Step(Server(Some(Socket(id, false))), env.setupError)
        else Step(Server(Some(Socket(id, true))), None)
  }

  /** `Server.close`: whatever closing the socket or cleaning its path raises
      propagates, but the `finally` clears the socket first; a server with no
      socket closes without raising. */
  function Close(s: Server, closeError: Option<Exc>): (r: Step)
    ensures r.server == Closed
    ensures s.socket.None? ==> r.raised.None?
    ensures s.socket.Some? ==> r.raised == closeError
  {
    if s.socket.Some? then Step(Closed, closeError) else Step(Closed, None)
  }

  /** Once `open` has stored a socket, every further `open` changes nothing and
      raises nothing, whatever the system would do. */
  lemma OpenIsIdempotent(s: Server, first: OpenEnv, second: OpenEnv)
    requires Open(s, first).server.socket.Some?
    ensures Open(Open(s, first).server, second) == Step(Open(s, first).server, None)
  {
  }

  /** A repeated `close` is harmless: it raises nothing and the server stays
      without a socket. */
  lemma CloseIsIdempotent(s: Server, first: Option<Exc>, second: Option<Exc>)
    ensures Close(Close(s, first).server, second) == Step(Closed, None)
  {
  }

  /** If binding or listening fails on a fresh server, the half-set-up socket
      stays: no later `open` makes it listen until `close` clears it, after
      which `open` starts afresh. */
  lemma FailedSetupNeedsClose(id: nat, e: Exc, later: OpenEnv, closeError: Option<Exc>, retry: OpenEnv)
    requires retry.prepareError.None? && retry.created.Ok? && retry.setupError.None?
    ensures var failed := Open(Closed, OpenEnv(None, Ok(id), Some(e)));
            && failed == Step(Server(Some(Socket(id, false))), Some(e))
            && Open(failed.server, later).server == failed.server
            && Open(Close(failed.server, closeError).server, retry) ==
                 Step(Server(Some(Socket(retry.created.value, true))), None)
  {
  }
}
