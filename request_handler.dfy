/**
 * The coordinator of app/request_handler.py (`RequestHandler`): one coalescing queue, one
 * response cache, a request counter, and the generation backend. `HandleRequest` is a producer
 * call up to the point where it waits for its request's completion signal; `ProcessNext` is one
 * iteration of the consumer loop `process_request_queue`.
 */
module RequestHandlers {

  import opened Wrappers
  import opened ApiModels
  import opened ClientRequests
  import opened RequestQueue
  import opened ResponseCaches

  /** A producer returns at once with a cached response, or waits on its queued request. */
  datatype Handled<P> = CacheHit(response: ApiResponse) | Waiting(request: ClientRequest<P>)

  class RequestHandler<P, K(==)> {
    /** The generation backend's `generate`, as the outcome it has for each payload. */
    const generate: P -> Generation
    /** `RequestPayload.key()`. */
    const key: P -> K
    const queue: ClientRequestQueue<P>
    const responseCache: ResponseCache<K>
    var cnt: nat
    /** How many times the backend has been called. */
    ghost var generatorCalls: nat
    /** Every request a producer call has queued, answered or not. */
    ghost var issued: set<ClientRequest<P>>

    /**
     * The queue invariant; every request still stored in the queue was issued and is
     * unanswered, so it is answered only on its way out and at most once; and every issued
     * request is either still stored under its id or completed with a response in its slot, so
     * none is dropped.
     */
    ghost predicate Valid()
      reads this, queue, queue.clientItems.Values, issued
    {
      && queue.Valid()
      && (forall id :: id in queue.clientItems ==>
            queue.clientItems[id] in issued && queue.clientItems[id].Unanswered())
      && (forall r :: r in issued ==>
            (r.event && r.apiResponse.Some?)
            || (r.id in queue.clientItems && queue.clientItems[r.id] == r))
    }

    /** The request pending for `id`, if any: the only request a producer call may complete. */
    function PendingFor(id: string): (frame: set<ClientRequest<P>>)
      reads this, queue
    {
      if id in queue.clientItems then {queue.clientItems[id]} else {}
    }

    /** The request at the front of the queue, if any: the only request a consumer step may complete. */
    function Front(): (frame: set<ClientRequest<P>>)
      reads this, queue
    {
      if queue.queue == [] then {} else PendingFor(queue.queue[0])
    }

    constructor (generate: P -> Generation, key: P -> K)
      ensures Valid() && this.generate == generate && this.key == key
      ensures fresh(queue) && fresh(responseCache)
      ensures queue.queue == [] && queue.clientItems == map[] && responseCache.cache == map[]
      ensures cnt == 0 && generatorCalls == 0 && issued == {}
    {
      this.generate := generate;
      this.key := key;
      queue := new ClientRequestQueue();
      responseCache := new ResponseCache();
      cnt := 0;
      generatorCalls := 0;
      issued := {};
    }

    /**
     * The body of the consumer loop's `try`: a cache hit is answered from the cache; on a miss
     * the backend is called once, and its response is cached and returned, or its
     * `GeneratorException` becomes a 400 default response and the cache is left alone.
     */
    method Resolve(payload: P) returns (response: ApiResponse)
      modifies responseCache, this`generatorCalls
      ensures var k := key(payload);
              var before := old(responseCache.cache);
              && (k in before ==>
                    && response == before[k].(cached := true)
                    && responseCache.cache == before[k := response]
                    && generatorCalls == old(generatorCalls))
              && (k !in before ==>
                    && generatorCalls == old(generatorCalls) + 1
                    && match generate(payload)
                       case Generated(g) => response == g && responseCache.cache == before[k := g]
                       case GeneratorException(message) =>
                         response == DefaultResponse(message, 400) && responseCache.cache == before)
    {
      var payloadKey := key(payload);
      var apiResponse := responseCache.Retrieve(payloadKey);
      if apiResponse.None? {
        generatorCalls := generatorCalls + 1;
        match generate(payload)
        case Generated(g) =>
          responseCache.Update(payloadKey, g);
          response := g;
        case GeneratorException(message) =>
          response := DefaultResponse(message, 400);
      } else {
        response := apiResponse.value;
      }
    }

    /**
     * One iteration of `process_request_queue`: take the oldest client's request; answer it from
     * the cache, or else call the backend and cache the result, or on `GeneratorException`
     * answer with a 400 default response and leave the cache alone; then complete the request.
     * When the queue is empty nothing happens (`get` then sleeps and polls again).
     */
    method ProcessNext() returns (served: Option<ClientRequest<P>>)
      requires Valid()
      modifies queue, responseCache, Front(), this`generatorCalls
      ensures Valid()
      ensures Dequeued(queue.State(), served) == Take(old(queue.State()))
      ensures served.None? ==>
                responseCache.cache == old(responseCache.cache) && generatorCalls == old(generatorCalls)
      ensures served.Some? ==>
                var r := served.value;
                var k := key(r.payload);
                var before := old(responseCache.cache);
                && old(r.Unanswered()) && r.event
                && (k in before ==>
                      && r.apiResponse == Some(before[k].(cached := true))
                      && responseCache.cache == before[k := before[k].(cached := true)]
                      && generatorCalls == old(generatorCalls))
                && (k !in before ==>
                      && generatorCalls == old(generatorCalls) + 1
                      && match generate(r.payload)
                         case Generated(g) =>
                           r.apiResponse == Some(g) && responseCache.cache == before[k := g]
                         case GeneratorException(message) =>
                           r.apiResponse == Some(DefaultResponse(message, 400))
                           && responseCache.cache == before)
    {
      ghost var items := queue.clientItems;
      served := queue.Get();
      if served.None? {
        return;
      }
      var clientRequest := served.value;
      var response := Resolve(clientRequest.payload);
      forall id | id in queue.clientItems
        ensures queue.clientItems[id] != clientRequest && queue.clientItems[id].Unanswered()
      {
        assert queue.clientItems[id] == items[id] && items[id].id == id != clientRequest.id;
      }
      forall r | r in issued && r != clientRequest && !r.event
        ensures r.id in queue.clientItems && queue.clientItems[r.id] == r
      {
        assert r.id in items && items[r.id] == r && r.id != clientRequest.id;
      }
      clientRequest.apiResponse := Some(response);
      clientRequest.event := true;
    }

    /**
     * The miss path of `handle_request`: queue `clientRequest`, and complete the request it
     * supersedes, if any, with a 429 default response.
     */
    method EnqueueOrSupersede(clientRequest: ClientRequest<P>)
      requires Valid() && clientRequest !in issued && clientRequest.Unanswered()
      modifies this`issued, queue, PendingFor(clientRequest.id)
      ensures Valid()
      ensures issued == old(issued) + {clientRequest}
      ensures queue.State() == Submit(old(queue.State()), clientRequest.id, clientRequest).state
      ensures clientRequest.id in old(queue.clientItems) ==>
                var superseded := old(queue.clientItems)[clientRequest.id];
                && old(superseded.Unanswered())
                && superseded.event
                && superseded.apiResponse == Some(DefaultResponse("", 429))
    {
      ghost var items := queue.clientItems;
      var exchanged := queue.PutOrExchange(clientRequest);
      issued := issued + {clientRequest};
      if exchanged.Some? {
        var superseded := exchanged.value;
        assert superseded.id == clientRequest.id && superseded != clientRequest;
        superseded.apiResponse := Some(DefaultResponse("", 429));
        superseded.event := true;
      }
      forall id | id in queue.clientItems
        ensures queue.clientItems[id] in issued && queue.clientItems[id].Unanswered()
      {
        if id != clientRequest.id {
          assert queue.clientItems[id] == items[id] && items[id].id == id;
        }
      }
      forall r | r in issued && !(r.event && r.apiResponse.Some?)
        ensures r.id in queue.clientItems && queue.clientItems[r.id] == r
      {
        if r != clientRequest {
          assert r.id in items && items[r.id] == r && r.id != clientRequest.id;
        }
      }
    }

    /**
     * `handle_request` up to its wait: count the call; return a cached response at once; else
     * queue a new request for the caller's identity, and if that supersedes a pending request
     * of the same identity, complete the superseded one with a 429 default response.
     */
    method HandleRequest(authorization: Option<string>, host: string, payload: P)
      returns (handled: Handled<P>)
      requires Valid()
      modifies this`cnt, this`issued, queue, responseCache, PendingFor(ClientId(authorization, host))
      ensures Valid()
      ensures cnt == old(cnt) + 1
      ensures generatorCalls == old(generatorCalls)
      ensures var k := key(payload);
              var before := old(responseCache.cache);
              k in before ==>
                && handled == CacheHit(before[k].(cached := true))
                && responseCache.cache == before[k := before[k].(cached := true)]
                && queue.State() == old(queue.State())
                && issued == old(issued)
      ensures var k := key(payload);
              var id := ClientId(authorization, host);
              k !in old(responseCache.cache) ==>
                && responseCache.cache == old(responseCache.cache)
                && handled.Waiting?
                && fresh(handled.request)
                && handled.request.id == id && handled.request.cnt == cnt
                && handled.request.payload == payload && handled.request.Unanswered()
                && issued == old(issued) + {handled.request}
                && queue.State() == Submit(old(queue.State()), id, handled.request).state
                && (id in old(queue.clientItems) ==>
                      var superseded := old(queue.clientItems)[id];
                      && old(superseded.Unanswered())
                      && superseded.event
                      && superseded.apiResponse == Some(DefaultResponse("", 429)))
    {
      cnt := cnt + 1;
      var localCnt := cnt;
      var clientRequest := new ClientRequest(authorization, host, payload, localCnt);
      var cachedResponse := responseCache.Retrieve(key(payload));
      if cachedResponse.Some? {
        return CacheHit(cachedResponse.value);
      }
      EnqueueOrSupersede(clientRequest);
      handled := Waiting(clientRequest);
    }
  }
  /**
   * Three calls from one identity with one payload before the consumer runs, then one consumer
   * iteration: the first two callers are superseded with 429 in turn, the third gets the
   * backend's answer, and the backend is called once.
   */
  method SupersessionScenario<P, K(==)>(generate: P -> Generation, key: P -> K,
                                        token: string, host: string, payload: P)
    returns (first: Option<ApiResponse>, second: Option<ApiResponse>, third: Option<ApiResponse>,
             ghost backendCalls: nat)
    ensures first == Some(DefaultResponse("", 429)) && second == first
    ensures third == Some(match generate(payload)
                          case Generated(g) => g
                          case GeneratorException(message) => DefaultResponse(message, 400))
    ensures backendCalls == 1
  {
    var handler := new RequestHandler(generate, key);
    var authorization := Some(BearerPrefix + token);
    var id := ClientId(authorization, host);
    var h1 := handler.HandleRequest(authorization, host, payload);
    var r1 := h1.request;
    var h2 := handler.HandleRequest(authorization, host, payload);
    var r2 := h2.request;
    assert r1.apiResponse == Some(DefaultResponse("", 429));
    var h3 := handler.HandleRequest(authorization, host, payload);
    var r3 := h3.request;
    assert r2.apiResponse == Some(DefaultResponse("", 429));
    assert handler.queue.queue == [id] && handler.queue.clientItems[id] == r3;
    var served := handler.ProcessNext();
    assert served == Some(r3);
    first, second, third := r1.apiResponse, r2.apiResponse, r3.apiResponse;
    backendCalls := handler.generatorCalls;
  }

  /**
   * A call served by the consumer, then a second call with an equal payload: the second call is a
   * cache hit exactly when the backend succeeded; after a `GeneratorException` it is queued and
   * its consumer step calls the backend again.
   */
  method RepeatScenario<P, K(==)>(generate: P -> Generation, key: P -> K,
                                  authorization: Option<string>, host: string, payload: P)
    returns (secondHit: bool, ghost backendCalls: nat)
    ensures secondHit <==> generate(payload).Generated?
    ensures backendCalls == if secondHit then 1 else 2
  {
    var handler := new RequestHandler(generate, key);
    var h1 := handler.HandleRequest(authorization, host, payload);
    var served := handler.ProcessNext();
    assert served == Some(h1.request);
    var h2 := handler.HandleRequest(authorization, host, payload);
    secondHit := h2.CacheHit?;
    if !secondHit {
      served := handler.ProcessNext();
    }
    backendCalls := handler.generatorCalls;
  }
}
