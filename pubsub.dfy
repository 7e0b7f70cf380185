/**
 * The request/response broker of crypto_market_mcp/pubsub.py (`RedisPubSub`),
 * without Redis and asyncio.
 *
 * One class plays both roles of the protocol. As a client it publishes
 * requests on the request channel and keeps a table of pending request ids.
 * Its response listener resolves each pending id once, from the first
 * response that carries it. As a worker it turns every well-formed request
 * into exactly one response envelope, by dispatching on a table of handlers.
 *
 * A channel is a sequence of received events, and JSON decoding is already
 * done: a payload that does not decode is `Message(None)`. Each iteration of a
 * listening loop, and the timeout of a waiting caller, is one atomic step.
 */
module PubSub {
  import opened Wrappers

  /** A request id (`str(uuid.uuid4())`). */
  type Id = string

  /** The keyword arguments of a tool call; `V` stands for JSON values. */
  type Args<V> = map<string, V>

  /** One item of `pubsub.listen()`. `Control` is any event whose type is not "message". */
  datatype Event<P> = Message(payload: Option<P>) | Control

  /** The request envelope that `publish_request` publishes. */
  datatype Request<V> = Request(id: Id, tool: string, arguments: Args<V>)

  /** A request as the worker decodes it; each field may be missing. */
  datatype RequestFields<V> = RequestFields(id: Option<Id>, tool: Option<string>, arguments: Option<Args<V>>)

  /** How a handler call ends: a result, or an exception with message `str(e)`. */
  datatype HandlerOutcome<V> = Returned(value: V) | Raised(message: string)

  /** A tool handler, seen through what it does with its arguments. */
  type Handler<!V> = Args<V> -> HandlerOutcome<V>

  /**
   * The response envelope a worker publishes. It is `{id, result}` for
   * `Returned` and `{id, error}` for `Raised`, so it never carries both keys.
   */
  datatype Response<V> = Response(id: Option<Id>, outcome: HandlerOutcome<V>)

  /** A response as the listener decodes it; `error` and `result` are present or absent keys. */
  datatype ResponseFields<V> = ResponseFields(id: Option<Id>, error: Option<string>, result: Option<V>)

  /**
   * What the waiting future is settled with. `Resolved(None)` is Python's
   * None, for a response without "result".
   */
  datatype Completion<V> = Resolved(value: Option<V>) | Failed(message: string)

  /** A pending id and the completion its future received. */
  datatype Settled<V> = Settled(id: Id, completion: Completion<V>)

  /** What `publish_request` gives its caller: a value, or one of the two exceptions it raises. */
  datatype CallOutcome<V> = Value(value: Option<V>) | RemoteError(message: string) | TimeoutError(message: string)

  /** The request envelope as the worker decodes it. */
  function EncodeRequest<V>(r: Request<V>): RequestFields<V>
  {
    RequestFields(Some(r.id), Some(r.tool), Some(r.arguments))
  }

  /** The response envelope as the listener decodes it. */
  function EncodeResponse<V>(r: Response<V>): ResponseFields<V>
  {
    match r.outcome
    case Returned(v) => ResponseFields(r.id, None, Some(v))
    case Raised(m) => ResponseFields(r.id, Some(m), None)
  }

  /** `str(tool_name)`, where a missing "tool" reads as None. */
  function ToolText(tool: Option<string>): string
  {
    if tool.Some? then tool.value else "None"
  }

  /** The error message of a request naming a tool that has no handler. */
  function UnknownToolMessage(tool: Option<string>): (m: string)
    ensures |m| == 14 + |ToolText(tool)|
    ensures m[..14] == "Unknown tool: " && m[14..] == ToolText(tool)
  {
    "Unknown tool: " + ToolText(tool)
  }

  /** The message of the TimeoutError raised when a caller stops waiting. */
  function TimeoutMessage(id: Id, timeoutText: string): (m: string)
    ensures |m| == 26 + |id| + |timeoutText|
    ensures m[..8] == "Request " && m[8..8 + |id|] == id
    ensures m[8 + |id|..25 + |id|] == " timed out after "
    ensures m[25 + |id|..|m| - 1] == timeoutText && m[|m| - 1] == 's'
  {
    "Request " + id + " timed out after " + timeoutText + "s"
  }

  /**
   * The worker's dispatch rule: one response per decoded request, carrying
   * its id. A missing "arguments" is an empty mapping.
   */
  function Dispatch<V>(handlers: map<string, Handler<V>>, req: RequestFields<V>): (resp: Response<V>)
    ensures resp.id == req.id
    ensures req.tool.Some? && req.tool.value in handlers ==>
      resp.outcome == handlers[req.tool.value](req.arguments.GetOr(map[]))
    ensures req.tool.None? || req.tool.value !in handlers ==>
      resp.outcome == Raised("Unknown tool: " + ToolText(req.tool))
  {
    var arguments := req.arguments.GetOr(map[]);
    if req.tool.Some? && req.tool.value in handlers then
      Response(req.id, handlers[req.tool.value](arguments))
    else
      Response(req.id, Raised(UnknownToolMessage(req.tool)))
  }

  /**
   * The response to a request naming an unregistered tool is
   * `{id, error: "Unknown tool: <tool>"}`.
   */
  lemma DispatchUnknownTool<V>(handlers: map<string, Handler<V>>, req: RequestFields<V>)
    requires req.tool.None? || req.tool.value !in handlers
    ensures Dispatch(handlers, req) == Response(req.id, Raised("Unknown tool: " + ToolText(req.tool)))
  {
  }

  /**
   * For a registered tool the response carries the request's id and the
   * handler's outcome: a result when it returns, its message when it raises.
   */
  lemma DispatchKnownTool<V>(handlers: map<string, Handler<V>>, req: RequestFields<V>)
    requires req.tool.Some? && req.tool.value in handlers
    ensures var resp := Dispatch(handlers, req);
      && resp.id == req.id
      && resp.outcome == handlers[req.tool.value](req.arguments.GetOr(map[]))
      && (EncodeResponse(resp).error.Some? <==> resp.outcome.Raised?)
      && (EncodeResponse(resp).result.Some? <==> resp.outcome.Returned?)
  {
  }

  /** A request without "arguments" is dispatched as one with an empty mapping. */
  lemma DispatchDefaultsArguments<V>(handlers: map<string, Handler<V>>, id: Option<Id>, tool: Option<string>)
    ensures Dispatch(handlers, RequestFields(id, tool, None)) == Dispatch(handlers, RequestFields(id, tool, Some(map[])))
  {
  }

  /** The responses a worker publishes while it drains `events`, in order. */
  function WorkerReplies<V>(handlers: map<string, Handler<V>>, events: seq<Event<RequestFields<V>>>): seq<Response<V>>
  {
    if events == [] then []
    else
      var earlier := WorkerReplies(handlers, events[..|events| - 1]);
      match events[|events| - 1]
      case Message(Some(req)) => earlier + [Dispatch(handlers, req)]
      case _ => earlier
  }

  /** The decodable requests among `events`, in order. */
  function DecodedRequests<V>(events: seq<Event<RequestFields<V>>>): seq<RequestFields<V>>
  {
    if events == [] then []
    else
      match events[0]
      case Message(Some(req)) => [req] + DecodedRequests(events[1..])
      case _ => DecodedRequests(events[1..])
  }

  lemma {:induction false} DecodedRequestsAppend<V>(events: seq<Event<RequestFields<V>>>, e: Event<RequestFields<V>>)
    ensures DecodedRequests(events + [e]) == DecodedRequests(events) + DecodedRequests([e])
  {
    if events != [] {
      assert (events + [e])[1..] == events[1..] + [e];
      DecodedRequestsAppend(events[1..], e);
    } else {
      assert events + [e] == [e];
    }
  }

  /**
   * Exactly one response per decodable request. The i-th response answers the
   * i-th decodable request and carries its id. Control events and undecodable
   * payloads produce none and do not stop the loop.
   */
  lemma {:induction false} OneReplyPerRequest<V>(handlers: map<string, Handler<V>>, events: seq<Event<RequestFields<V>>>)
    ensures |WorkerReplies(handlers, events)| == |DecodedRequests(events)|
    ensures forall i :: 0 <= i < |WorkerReplies(handlers, events)| ==>
      WorkerReplies(handlers, events)[i] == Dispatch(handlers, DecodedRequests(events)[i])
      && WorkerReplies(handlers, events)[i].id == DecodedRequests(events)[i].id
  {
    if events != [] {
      var init := events[..|events| - 1];
      var last := events[|events| - 1];
      assert events == init + [last];
      OneReplyPerRequest(handlers, init);
      DecodedRequestsAppend(init, last);
    }
  }

  /** The completion that a decoded response gives its future: "error" wins over "result". */
  function CompletionOf<V>(resp: ResponseFields<V>): Completion<V>
  {
    if resp.error.Some? then Failed(resp.error.value) else Resolved(resp.result)
  }

  /**
   * One iteration of the response listener. A decodable response whose id is
   * pending pops that id and settles its future. Anything else changes nothing.
   */
  function ListenStep<V>(pending: set<Id>, event: Event<ResponseFields<V>>): (set<Id>, Option<Settled<V>>)
  {
    match event
    case Message(Some(resp)) =>
      if resp.id.Some? && resp.id.value in pending then
        (pending - {resp.id.value}, Some(Settled(resp.id.value, CompletionOf(resp))))
      else (pending, None)
    case _ => (pending, None)
  }

  /**
   * A response for a pending id removes exactly that id. Its future fails
   * with the "error" string when that key is present, and otherwise gets the
   * "result".
   */
  lemma ResponseSettlesPending<V>(pending: set<Id>, resp: ResponseFields<V>)
    requires resp.id.Some? && resp.id.value in pending
    ensures var (after, settled) := ListenStep(pending, Message(Some(resp)));
      && after == pending - {resp.id.value} && after + {resp.id.value} == pending
      && settled.Some? && settled.value.id == resp.id.value
      && (resp.error.Some? ==> settled.value.completion == Failed(resp.error.value))
      && (resp.error.None? ==> settled.value.completion == Resolved(resp.result))
  {
  }

  /**
   * A control event, an undecodable payload, or a response whose id is not
   * pending leaves the table as it is and settles nothing.
   */
  lemma UnmatchedEventIgnored<V>(pending: set<Id>, event: Event<ResponseFields<V>>)
    requires event.Control? || event.payload.None? || event.payload.value.id.None?
             || event.payload.value.id.value !in pending
    ensures ListenStep(pending, event) == (pending, None)
  {
  }

  /** A second copy of a response is a no-op: the id was popped by the first. */
  lemma DuplicateResponseIgnored<V>(pending: set<Id>, event: Event<ResponseFields<V>>)
    ensures var (after, _) := ListenStep(pending, event);
      ListenStep(after, event) == (after, None)
  {
  }

  /** The table and the settled futures after the listener drains `events`, in order. */
  function Listen<V>(pending: set<Id>, events: seq<Event<ResponseFields<V>>>): (set<Id>, seq<Settled<V>>)
  {
    if events == [] then (pending, [])
    else
      var (mid, earlier) := Listen(pending, events[..|events| - 1]);
      var (after, settled) := ListenStep(mid, events[|events| - 1]);
      (after, if settled.Some? then earlier + [settled.value] else earlier)
  }

  /**
   * Every future is settled at most once, whatever the traffic. Only ids that
   * were pending are settled, and no id is settled twice. The table keeps
   * exactly the pending ids that were not settled.
   */
  lemma {:induction false} ListenSettlesAtMostOnce<V>(pending: set<Id>, events: seq<Event<ResponseFields<V>>>)
    ensures var (after, settled) := Listen(pending, events);
      && after <= pending
      && (forall i :: 0 <= i < |settled| ==> settled[i].id in pending && settled[i].id !in after)
      && (forall i, j :: 0 <= i < j < |settled| ==> settled[i].id != settled[j].id)
      && (forall id :: id in pending && id !in after ==> exists i :: 0 <= i < |settled| && settled[i].id == id)
  {
    if events != [] {
      var init := events[..|events| - 1];
      ListenSettlesAtMostOnce(pending, init);
      var (mid, earlier) := Listen(pending, init);
      var (after, last) := ListenStep(mid, events[|events| - 1]);
      var settled := Listen(pending, events).1;
      assert settled == if last.Some? then earlier + [last.value] else earlier;
      forall id | id in pending && id !in after
        ensures exists i :: 0 <= i < |settled| && settled[i].id == id
      {
        if id in mid {
          assert last.Some? && last.value.id == id;
          assert settled[|settled| - 1].id == id;
        } else {
          var i :| 0 <= i < |earlier| && earlier[i].id == id;
          assert settled[i].id == id;
        }
      }
    }
  }

  /** How `publish_request` ends once its future is settled. */
  function Await<V>(c: Completion<V>): CallOutcome<V>
  {
    match c
    case Resolved(v) => Value(v)
    case Failed(m) => RemoteError(m)
  }

  /** What a caller of `publish_request(tool, args)` should get when a worker with `handlers` answers. */
  function Expected<V>(handlers: map<string, Handler<V>>, tool: string, arguments: Args<V>): CallOutcome<V>
  {
    if tool !in handlers then RemoteError("Unknown tool: " + tool)
    else match handlers[tool](arguments)
      case Returned(v) => Value(Some(v))
      case Raised(m) => RemoteError(m)
  }

  /**
   * The round trip. A pending request goes through a worker's dispatch, and
   * the response comes back through the listener. That pops exactly its id,
   * and the caller gets the handler's result, the handler's error message, or
   * "Unknown tool: <tool>".
   */
  lemma RoundTrip<V>(handlers: map<string, Handler<V>>, pending: set<Id>, r: Request<V>)
    requires r.id in pending
    ensures var reply := Dispatch(handlers, EncodeRequest(r));
      var (after, settled) := ListenStep(pending, Message(Some(EncodeResponse(reply))));
      && after == pending - {r.id}
      && settled.Some? && settled.value.id == r.id
      && Await(settled.value.completion) == Expected(handlers, r.tool, r.arguments)
  {
  }

  /** `RedisPubSub` with its two tables, its lazy subscription and the request channel. */
  class Broker<V> {
    /** The keys of `_pending_responses`: ids whose callers are still waiting. */
    var pending: set<Id>
    /** `_request_handlers`. */
    var handlers: map<string, Handler<V>>
    /** Whether `_pubsub` is set: the response channel is subscribed to. */
    var subscribed: bool
    /** How many `_listen_responses` tasks `create_task` has started. */
    var listeners: nat
    /** The request envelopes this broker has published, oldest first. */
    var requests: seq<Request<V>>

    /** One response subscription, with one listener task, exists once it is first needed. */
    ghost predicate Valid()
      reads this
    {
      listeners == if subscribed then 1 else 0
    }

    constructor ()
      ensures Valid()
      ensures pending == {} && handlers == map[] && !subscribed && listeners == 0 && requests == []
    {
      pending := {};
      handlers := map[];
      subscribed := false;
      listeners := 0;
      requests := [];
    }

    /**
     * The part of `publish_request` before the wait. It registers the fresh
     * id, subscribes to the response channel on first use, and then publishes
     * the envelope. The id comes from `uuid4` and is a parameter here.
     */
    method PublishRequest(id: Id, tool: string, arguments: Args<V>)
      requires Valid()
      modifies this
      ensures Valid()
      ensures pending == old(pending) + {id}
      ensures subscribed && listeners == 1
      ensures listeners == old(listeners) + (if old(subscribed) then 0 else 1)
      ensures requests == old(requests) + [Request(id, tool, arguments)]
      ensures handlers == old(handlers)
    {
      pending := pending + {id};
      if !subscribed {
        subscribed := true;
        listeners := listeners + 1;
      }
      requests := requests + [Request(id, tool, arguments)];
    }

    /** The `wait_for` deadline passes: pop the id and raise TimeoutError naming it. */
    method OnTimeout(id: Id, timeoutText: string) returns (outcome: CallOutcome<V>)
      modifies this
      ensures pending == old(pending) - {id} && id !in pending
      ensures outcome == TimeoutError(TimeoutMessage(id, timeoutText))
      ensures handlers == old(handlers) && subscribed == old(subscribed) && listeners == old(listeners)
        && requests == old(requests)
    {
      pending := pending - {id};
      outcome := TimeoutError(TimeoutMessage(id, timeoutText));
    }

    /** One iteration of `_listen_responses`. */
    method OnResponse(event: Event<ResponseFields<V>>) returns (settled: Option<Settled<V>>)
      modifies this
      ensures (pending, settled) == ListenStep(old(pending), event)
      ensures handlers == old(handlers) && subscribed == old(subscribed) && listeners == old(listeners)
        && requests == old(requests)
    {
      settled := None;
      if event.Message? && event.payload.Some? {
        var resp := event.payload.value;
        if resp.id.Some? && resp.id.value in pending {
          pending := pending - {resp.id.value};
          settled := Some(Settled(resp.id.value, CompletionOf(resp)));
        }
      }
    }

    /** `_listen_responses` over the events received so far. */
    method ListenResponses(events: seq<Event<ResponseFields<V>>>) returns (settled: seq<Settled<V>>)
      modifies this
      ensures (pending, settled) == Listen(old(pending), events)
      ensures handlers == old(handlers) && subscribed == old(subscribed) && listeners == old(listeners)
        && requests == old(requests)
    {
      settled := [];
      var i := 0;
      while i < |events|
        invariant 0 <= i <= |events|
        invariant (pending, settled) == Listen(old(pending), events[..i])
        invariant handlers == old(handlers) && subscribed == old(subscribed) && listeners == old(listeners)
                  && requests == old(requests)
      {
        assert events[..i + 1][..i] == events[..i];
        var one := OnResponse(events[i]);
        if one.Some? {
          settled := settled + [one.value];
        }
        i := i + 1;
      }
      assert events[..|events|] == events;
    }

    /** `register_handler`: the last registration for a name wins. */
    method RegisterHandler(name: string, handler: Handler<V>)
      modifies this
      ensures handlers == old(handlers)[name := handler]
      ensures name in handlers && handlers[name] == handler
      ensures forall other :: other != name && other in old(handlers) ==> other in handlers && handlers[other] == old(handlers)[other]
      ensures pending == old(pending) && subscribed == old(subscribed) && listeners == old(listeners)
        && requests == old(requests)
    {
      handlers := handlers[name := handler];
    }

    /**
     * The loop of `start_worker` over the requests received so far: each
     * decodable request is dispatched and its response published.
     */
    method RunWorker(events: seq<Event<RequestFields<V>>>) returns (published: seq<Response<V>>)
      ensures |published| == |DecodedRequests(events)|
      ensures forall i :: 0 <= i < |published| ==> published[i] == Dispatch(handlers, DecodedRequests(events)[i])
    {
      published := [];
      var i := 0;
      while i < |events|
        invariant 0 <= i <= |events|
        invariant published == WorkerReplies(handlers, events[..i])
      {
        assert events[..i + 1][..i] == events[..i];
        match events[i] {
          case Message(Some(req)) =>
            published := published + [Dispatch(handlers, req)];
          case _ =>
        }
        i := i + 1;
      }
      assert events[..|events|] == events;
      OneReplyPerRequest(handlers, events);
    }
  }
}
