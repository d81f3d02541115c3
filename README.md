# Coalescing request handler — Dafny model

This project models the request-handling core of a code-assistant endpoint server
(`app/request_handler.py`). Many clients call one expensive generation backend through it.
The core does two things:

- it caches successful responses by payload key, so a payload whose response is cached does not
  reach the backend again; a `GeneratorException` is not cached;
- it coalesces requests per client identity: each identity has at most one pending request, a
  newer request from the same identity replaces the pending one in place, and the replaced
  caller is answered at once with a 429 default response.

Modules, one file each:

- `Wrappers` (`wrappers.dfy`): `Option`.
- `ApiModels` (`api_models.dfy`): stand-ins for the collaborator types of
  `app/model/api_models.py`. That file is not part of this model. `ApiResponse` is a value with a
  text, a status and a `cached` flag. `Generation` is the outcome of one backend call: a response,
  or a `GeneratorException` with its message.
- `ClientRequests` (`client_requests.dfy`): `ClientId` (`get_client_id`) and the `ClientRequest`
  class. The class has a result slot `apiResponse` and a completion flag `event`.
- `RequestQueue` (`request_queue.dfy`): the coalescing queue. `Pending` is its abstract value: the
  FIFO of ids and the map from id to pending item. `Submit` and `Take` are `put_or_exchange` and
  one poll of `get`, written as functions. `Run` executes any interleaving of those operations.
  The fairness lemmas are proved over `Run`. The class `ClientRequestQueue` keeps the source's two
  fields, a `seq` and a `map`. Its methods are proved equal to `Submit` and `Take`.
- `ResponseCaches` (`response_cache.dfy`): `Retrieval`, the lookup as a function, with lemmas
  pairing it with updates. The class `ResponseCache` holds the map.
- `RequestHandlers` (`request_handler.dfy`): the coordinator class `RequestHandler`, plus two
  client methods that prove end-to-end scenarios (supersession of pending calls, a repeat after
  a backend failure) from the contracts alone.

`RequestHandler.Valid()` states the handler's invariant. A ghost set `issued` holds every request
a producer call has queued. Every request still stored in the queue was issued and is
unanswered. A request is answered only as it leaves the queue, either by the consumer
(`ProcessNext`) or by supersession (`EnqueueOrSupersede`, called by `HandleRequest`). So every
request is completed at most once, and both methods state that the request they complete was
unanswered before. No issued request is dropped (for the two backend outcomes modelled): each
one is either still stored under its id or completed, with a response in its slot. Their tight
`modifies` frames (`Front()`, `PendingFor(id)`) state that no other request is touched. A ghost counter
`generatorCalls` counts the backend calls. It lets the contracts say that a cache hit never
reaches the backend and that a miss calls it exactly once.

`retrieve` flags the stored entry itself, not a copy (`app/request_handler.py:74`). In the model
a hit replaces the stored entry with its flagged copy (`Retrieval`, `ResponseCache.Retrieve`).

## Model

| member | source | states |
|---|---|---|
| ClientRequests.ClientId | app/request_handler.py:24-30 | get_client_id: without a bearer header the id is ""; with one it is the token after "Bearer " followed by the host, of the combined length; the lemmas below state it exactly |
| ClientRequests.ClientIdOfBearer | app/request_handler.py:23-30 | a header "Bearer " + token from host gives the id token + host |
| ClientRequests.ClientIdFromBearer | app/request_handler.py:23-30 | every non-empty id comes from a bearer header "Bearer " + token and equals token + host |
| ClientRequests.ClientIdAnonymous | app/request_handler.py:23-30 | the id is "" exactly when there is no header, the header does not start with "Bearer ", or both token and host are empty |
| ClientRequests.ClientIdCollides | app/request_handler.py:28-29 | token and host are joined without a separator, so two distinct (token, host) pairs can share one identity |
| ClientRequests.ClientRequest.constructor | app/request_handler.py:14-21 | a new request carries the derived id, the sequence number and the payload, with an empty result slot and an unset event |
| RequestQueue.Submit | app/request_handler.py:40-49 | put_or_exchange preserves the queue invariant: no duplicate ids, and the ids queued are exactly the map's keys |
| RequestQueue.Take | app/request_handler.py:51-57 | get preserves the queue invariant, and it returns an item exactly when the queue is non-empty |
| RequestQueue.Run | app/request_handler.py:40-58 | every interleaving of put_or_exchange and get calls, each one atomic under the lock, preserves the queue invariant |
| RequestQueue.RunServesInOrder | app/request_handler.py:44-57 | if id a waits ahead of id b, no interleaving of submissions, exchanges and gets serves b before a |
| RequestQueue.StaysUntilServed | app/request_handler.py:44-57 | a queued id stays queued, exchanges included, until a get serves it |
| RequestQueue.NewIdQueuesLast | app/request_handler.py:44-48 | a new id is queued behind every id already waiting |
| RequestQueue.FirstArrivalFairness | app/request_handler.py:40-57 | if a arrives new and b arrives new later, then b is never served before a, with any operations in between |
| RequestQueue.ClientRequestQueue.constructor | app/request_handler.py:34-36 | the queue starts with no ids and an empty map |
| RequestQueue.ClientRequestQueue.PutOrExchange | app/request_handler.py:40-49 | a known id keeps its queue position and its stored request is returned; a new id is appended and None is returned; either way only that id's map entry changes, to the new request; the invariant is kept |
| RequestQueue.ClientRequestQueue.Get | app/request_handler.py:51-57 | on a non-empty queue it returns the request mapped to the front id; the queue loses its head and the map loses that id; on an empty queue nothing changes |
| ResponseCaches.Retrieval | app/request_handler.py:70-76 | a lookup returns a response exactly when the key is cached; the stored entry becomes the returned, flagged response, with its other contents unchanged; no other key is touched, and a miss leaves the cache unchanged |
| ResponseCaches.UpdateThenRetrieve | app/request_handler.py:66-76 | an update followed by a lookup of the same key returns the updated response, flagged as cached |
| ResponseCaches.LastWriterWins | app/request_handler.py:66-76 | a second update of a key overwrites the first, and later lookups see only the second |
| ResponseCaches.RetrieveIdempotent | app/request_handler.py:70-76 | looking up a key twice gives the same result and the same cache as looking it up once |
| ResponseCaches.ResponseCache.constructor | app/request_handler.py:62-64 | the cache starts empty |
| ResponseCaches.ResponseCache.Update | app/request_handler.py:66-68 | the key maps to the new response and nothing else changes |
| ResponseCaches.ResponseCache.Retrieve | app/request_handler.py:70-76 | the method returns and stores exactly what Retrieval does: a hit flags and returns the stored entry, a miss returns None and leaves the cache unchanged |
| RequestHandlers.RequestHandler.constructor | app/request_handler.py:80-84 | a handler starts with an empty queue, an empty cache and a counter of 0 |
| RequestHandlers.RequestHandler.Resolve | app/request_handler.py:93-103 | a hit returns the flagged cached response without calling the backend; a miss calls the backend once; on success the response is cached and returned; on GeneratorException a 400 default response with the error text is returned and the cache is unchanged |
| RequestHandlers.RequestHandler.ProcessNext | app/request_handler.py:86-106 | one consumer iteration dequeues as Get does and answers the dequeued request (slot written, event set) by cache hit, backend result or 400 default response; that request was unanswered before, and no other request changes |
| RequestHandlers.RequestHandler.EnqueueOrSupersede | app/request_handler.py:121-125 | the request is submitted as put_or_exchange does and joins the issued requests; the request it supersedes, which was unanswered, gets a 429 default response and its event set; the invariant is kept, so no issued request is dropped |
| RequestHandlers.RequestHandler.HandleRequest | app/request_handler.py:108-127 | the counter grows by exactly 1 and the backend is never called; a cache hit returns the flagged cached response and leaves the queue and the issued requests untouched; otherwise a fresh unanswered request is submitted and issued, and the request it supersedes, which was unanswered, gets a 429 default response and its event set |
| RequestHandlers.SupersessionScenario | app/request_handler.py:108-125 | three calls from one identity before the consumer runs: calls 1 and 2 get 429, call 3 gets the backend's answer (or its 400 default response), and the backend is called once |
| RequestHandlers.RepeatScenario | app/request_handler.py:93-119 | after a call is served, a repeat of its payload is a cache hit exactly when the backend succeeded; after a GeneratorException a repeat reaches the backend again |

## Left out

- The waits of asyncio are not modelled. This covers `event.wait()` and the final
  `return client_request.api_response` (lines 127-132), the 10 ms polling sleep in `get`
  (line 58) and the 5 ms delay before `generate` (line 96). `HandleRequest` stops where the
  source starts waiting. It returns `Waiting(request)`, and the reply is that request's
  `apiResponse` once its `event` is set.
- RequestQueue.ClientRequestQueue.Get: models one poll of the `while True` loop. On an empty queue
  it returns `None`, where the source sleeps and polls again. `ProcessNext` does nothing in that
  case.
- The endless consumer loop is not modelled as a loop. `ProcessNext` is one iteration, and
  `RequestQueue.Run` covers sequences of queue operations.
- `threading.Lock` and real concurrency are not modelled. Each locked section is one atomic
  transition, and interleavings are sequences of those transitions. Interleavings between the
  awaits inside `handle_request` and `process_request_queue` are only modelled at the queue
  level.
- Logging, `time.time()` and `creation_time` are left out. They have no effect on behaviour.
- The FastAPI `Request` is reduced to the value of the authorization header, if present, and the
  client host. The header lookup itself is not modelled. The client port is only logged.
- The unused `_cache` field of `ClientRequestQueue` (line 38) has no behaviour and is left out.
- `RequestHandlerProvider` (lines 135-140) only returns the handler it holds, so it is left out.
- Backend failures other than `GeneratorException` are left out. They propagate out of the
  consumer loop in the source. The consumer task then ends, and the request it just dequeued is
  never answered. `Generation` has only the two declared outcomes, so the invariant that no
  issued request is dropped holds only for backends that fail with `GeneratorException`.
- The collaborators in `app/model/api_models.py` are not part of this model, so they are
  stand-ins. The backend is a fixed function from payload to outcome, so a stateful or
  nondeterministic backend is not modelled. `RequestPayload.key()` is a function from payload to
  key. `generate_default_api_response(message, status)` is modelled as an uncached response that
  carries the message and the status.
- Responses are values, so object aliasing is not modelled. In the source, the response object the
  consumer stores in the cache is the same object it hands to the request. A later `retrieve`
  flags that shared object, so it also flags the response an earlier caller may still be reading.
