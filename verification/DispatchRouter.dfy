/** Host-side routing of dispatch envelopes: every outcome of a handler becomes a response. */
module DispatchRouter {
  import opened Wrappers

  datatype Request = Request(requestId: string, namespace: string, name: string, runId: string, runToken: Option<int>)

  datatype Response = Response(requestId: string, runToken: Option<int>, stale: bool, result: Option<string>,
      error: Option<string>)

  // What a handler does in the end: a value, or a thrown error with its message.
  datatype HandlerOutcome = Returns(value: string) | Throws(message: string)

  type Handler = Request -> HandlerOutcome

  // The source's truth test on an error text: a missing and an empty one are alike.
  predicate HasError(response: Response) {
    response.error.Some? && response.error.value != ""
  }

  /**
   What a response says of its request: stale and nothing else for an outdated token, otherwise a result exactly when a
   handler exists and returns, and an error text exactly when none exists or it throws. The text tests as an error
   unless the thrown message is empty.
   */
  ghost predicate Answers(response: Response, request: Request, stale: bool, outcome: Option<HandlerOutcome>) {
    && response.requestId == request.requestId && response.runToken == request.runToken
    && (response.stale <==> stale)
    && (response.result.Some? <==> !stale && outcome.Some? && outcome.value.Returns?)
    && (response.result.Some? ==> outcome == Some(Returns(response.result.value)))
    && (response.error.Some? <==> !stale && (outcome.None? || outcome.value.Throws?))
    && (HasError(response) <==> !stale && (outcome.None? || (outcome.value.Throws? && outcome.value.message != "")))
  }

  function NoHandlerMessage(namespace: string): string {
    "No dispatch handler registered for namespace \"" + namespace + "\""
  }

  class HostDispatchRouter {
    const isRunTokenStale: Option<int -> bool>
    var handlers: map<string, Handler>

    // Without a test for run tokens no request is outdated.
    constructor (isRunTokenStale: Option<int -> bool>)
      ensures this.isRunTokenStale == isRunTokenStale && handlers == map[]
    {
      this.isRunTokenStale := isRunTokenStale;
      handlers := map[];
    }

    method Register(namespace: string, handler: Handler)
      modifies this
      ensures handlers == old(handlers)[namespace := handler]
    {
      handlers := handlers[namespace := handler];
    }

    method Unregister(namespace: string)
      modifies this
      ensures handlers == old(handlers) - {namespace}
    {
      handlers := handlers - {namespace};
    }

    predicate IsStale(request: Request) {
      request.runToken.Some? && isRunTokenStale.Some? && isRunTokenStale.value(request.runToken.value)
    }

    // What the handler of a request's namespace does, if there is one.
    function OutcomeOf(request: Request): Option<HandlerOutcome>
      reads this
    {
      if request.namespace in handlers then Some(handlers[request.namespace](request)) else None
    }

    /** A response in every case, whatever the handler does; never a stale one without a test for run tokens. */
    method Dispatch(request: Request) returns (response: Response)
      ensures Answers(response, request, IsStale(request), OutcomeOf(request))
      ensures isRunTokenStale == None ==> !response.stale
    {
      if IsStale(request) {
        return Response(request.requestId, request.runToken, true, None, None);
      }
      if request.namespace !in handlers {
        return Response(request.requestId, request.runToken, false, None, Some(NoHandlerMessage(request.namespace)));
      }
      var outcome := handlers[request.namespace](request);
      match outcome {
        case Returns(value) => response := Response(request.requestId, request.runToken, false, Some(value), None);
        case Throws(message) => response := Response(request.requestId, request.runToken, false, None, Some(message));
      }
    }
  }
}
