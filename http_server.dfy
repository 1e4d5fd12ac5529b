/** pkg/http/server/server.go: the webhook's HTTP server and its health flag. Liveness
    always answers 204 No Content; readiness answers 204 while the server is healthy and
    503 Service Unavailable once it has been shut down or failed to start. The listener
    itself is a parameter: Start is given what ListenAndServe returned. */
module HttpServer {
  import opened Wrappers

  const StatusNoContent: nat := 204
  const StatusServiceUnavailable: nat := 503

  /** The error ListenAndServe returns: http.ErrServerClosed after a Shutdown, anything
      else when the server could not listen or serve. */
  datatype ServeError = ErrServerClosed | ServeFailed(message: string)

  class Server {
    const port: int
    /** The *atomic.Bool read by the readiness handler. */
    var healthy: bool
    /** The http.Server's keep-alive setting. */
    var keepAlivesEnabled: bool

    /** NewServer: healthy, listening on ":<port>". */
    constructor (port: int)
      ensures this.port == port && healthy && keepAlivesEnabled
    {
      this.port := port;
      healthy := true;
      keepAlivesEnabled := true;
    }

    /** livenessHandler: 204 whatever the health. */
    method LivenessHandler() returns (status: nat)
      ensures status == StatusNoContent
    {
      status := StatusNoContent;
    }

    /** readinessHandler: 204 when healthy, else 503. */
    method ReadinessHandler() returns (status: nat)
      ensures status == StatusNoContent <==> healthy
      ensures status == StatusServiceUnavailable <==> !healthy
    {
      if healthy {
        status := StatusNoContent;
        return;
      }
      status := StatusServiceUnavailable;
    }

    /** Shutdown: keep-alives off and unhealthy before the graceful shutdown, whose
        error (closeErr) is returned. */
    method Shutdown(closeErr: Option<string>) returns (err: Option<string>)
      modifies this
      ensures !healthy && !keepAlivesEnabled
      ensures err == closeErr
    {
      keepAlivesEnabled := false;
      healthy := false;
      err := closeErr;
    }

    /** Start: an error other than ErrServerClosed marks the server unhealthy and is sent
        on errChan (returned here); ErrServerClosed, or no error, changes nothing. */
    method Start(listenResult: Option<ServeError>) returns (reported: Option<ServeError>)
      modifies this
      ensures listenResult.Some? && listenResult.value != ErrServerClosed ==>
        !healthy && reported == listenResult
      ensures !(listenResult.Some? && listenResult.value != ErrServerClosed) ==>
        healthy == old(healthy) && reported.None?
      ensures keepAlivesEnabled == old(keepAlivesEnabled)
    {
      reported := None;
      if listenResult.Some? && listenResult.value != ErrServerClosed {
        healthy := false;
        reported := listenResult;
        return;
      }
    }
  }

  /** A new server is ready and live; once shut down it stays live but is not ready,
      and a second Shutdown leaves it so. */
  method ShutdownLifecycle(port: int) returns (before: nat, after: nat, again: nat, live: nat)
    ensures before == StatusNoContent
    ensures after == StatusServiceUnavailable && again == StatusServiceUnavailable
    ensures live == StatusNoContent
  {
    var s := new Server(port);
    before := s.ReadinessHandler();
    var e1 := s.Shutdown(None);
    after := s.ReadinessHandler();
    var e2 := s.Shutdown(None);
    again := s.ReadinessHandler();
    live := s.LivenessHandler();
  }

  /** A failed start reports its error and makes the server unready; a start that ends
      with ErrServerClosed reports nothing and leaves a new server ready. */
  method StartOutcomes(port: int, message: string) returns (failed: Option<ServeError>, failedReady: nat,
                                                            closed: Option<ServeError>, closedReady: nat)
    ensures failed == Some(ServeFailed(message)) && failedReady == StatusServiceUnavailable
    ensures closed.None? && closedReady == StatusNoContent
  {
    var s1 := new Server(port);
    failed := s1.Start(Some(ServeFailed(message)));
    failedReady := s1.ReadinessHandler();
    var s2 := new Server(port);
    closed := s2.Start(Some(ErrServerClosed));
    closedReady := s2.ReadinessHandler();
  }
}
