/**
 * The coalescing queue of app/request_handler.py (`ClientRequestQueue`): a FIFO of distinct
 * client ids and a map from each queued id to that client's latest pending request.
 *
 * `Pending` is the queue's abstract value and `Submit`/`Take` its two operations as functions;
 * the class at the end keeps the same two fields and its methods are proved against them.
 */
module RequestQueue {

  import opened Wrappers
  import opened ClientRequests

  /** No id occurs twice. */
  ghost predicate Distinct(s: seq<string>)
  {
    forall i, j :: 0 <= i < j < |s| ==> s[i] != s[j]
  }

  /** The waiting ids in first-arrival order, and the pending item of each. */
  datatype Pending<R> = Pending(order: seq<string>, items: map<string, R>)

  /** The queue's invariant: the order has no duplicates and holds exactly the map's keys. */
  ghost predicate Wellformed<R>(s: Pending<R>)
  {
    Distinct(s.order) && forall id :: id in s.items <==> id in s.order
  }

  /** The state after `put_or_exchange` and the item it hands back, if any. */
  datatype Exchange<R> = Exchange(state: Pending<R>, exchanged: Option<R>)

  /**
   * `put_or_exchange`: a known id keeps its place and its stored item is replaced and returned;
   * a new id goes to the back. Either way the id then maps to `item`.
   */
  function Submit<R>(s: Pending<R>, id: string, item: R): (r: Exchange<R>)
    ensures Wellformed(s) ==> Wellformed(r.state)
  {
    if id in s.items then Exchange(Pending(s.order, s.items[id := item]), Some(s.items[id]))
    else Exchange(Pending(s.order + [id], s.items[id := item]), None)
  }

  /** The state after one poll of `get` and the item it returns, if any. */
  datatype Dequeued<R> = Dequeued(state: Pending<R>, item: Option<R>)

  /**
   * `get`: pops the oldest id and removes its map entry, returning that entry. On an empty
   * queue there is nothing to return (`get` then sleeps and polls again).
   */
  function Take<R>(s: Pending<R>): (r: Dequeued<R>)
    requires Wellformed(s)
    ensures Wellformed(r.state)
    ensures r.item.Some? <==> s.order != []
  {
    if s.order == [] then Dequeued(s, None)
    else
      assert s.order[0] !in s.order[1..];
      Dequeued(Pending(s.order[1..], s.items - {s.order[0]}), Some(s.items[s.order[0]]))
  }

  /** A step of an interleaving of producers and the consumer. */
  datatype Op<R> = PutOrExchange(id: string, item: R) | Get

  /**
   * Runs `ops` from `s`, one atomic operation at a time; returns the final state and the ids
   * served by `Get`, in the order they were served.
   */
  function Run<R>(s: Pending<R>, ops: seq<Op<R>>): (r: (Pending<R>, seq<string>))
    requires Wellformed(s)
    ensures Wellformed(r.0)
    decreases |ops|
  {
    if ops == [] then (s, [])
    else
      match ops[0]
      case PutOrExchange(id, item) => Run(Submit(s, id, item).state, ops[1..])
      case Get =>
        if s.order == [] then Run(s, ops[1..])
        else
          var rest := Run(Take(s).state, ops[1..]);
          (rest.0, [s.order[0]] + rest.1)
  }

  /** `a` waits ahead of `b`. */
  ghost predicate Precedes(order: seq<string>, a: string, b: string)
  {
    exists i, j :: 0 <= i < j < |order| && order[i] == a && order[j] == b
  }

  /** Whenever `b` is served in `log`, `a` has been served earlier in it. */
  ghost predicate ServedBefore(log: seq<string>, a: string, b: string)
  {
    forall j :: 0 <= j < |log| && log[j] == b ==> a in log[..j]
  }

  /** Serving `h` first keeps `a` ahead of `b` if `h` is `a`, or if `a` stays ahead in the rest. */
  lemma ServedBeforeCons(h: string, log: seq<string>, a: string, b: string)
    requires h != b && (h == a || ServedBefore(log, a, b))
    ensures ServedBefore([h] + log, a, b)
  {
    forall k | 0 <= k < |[h] + log| && ([h] + log)[k] == b
      ensures a in ([h] + log)[..k]
    {
      assert ([h] + log)[..k] == [h] + log[..k - 1];
    }
  }

  /** Serving the front id, when it is not `a`, keeps `a` ahead of `b`. */
  lemma PrecedesAfterTake<R>(s: Pending<R>, a: string, b: string)
    requires Wellformed(s) && Precedes(s.order, a, b) && s.order[0] != a
    ensures s.order[0] != b && Precedes(Take(s).state.order, a, b)
  {
  }

  /**
   * FIFO across clients: if `a` waits ahead of `b`, then in every interleaving of submissions
   * (new ids and exchanges alike) and polls, `b` is never served before `a`.
   */
  lemma {:induction false} RunServesInOrder<R>(s: Pending<R>, ops: seq<Op<R>>, a: string, b: string)
    requires Wellformed(s) && Precedes(s.order, a, b)
    ensures ServedBefore(Run(s, ops).1, a, b)
    decreases |ops|
  {
    if ops == [] {
      return;
    }
    match ops[0]
    case PutOrExchange(id, item) =>
      var i, j :| 0 <= i < j < |s.order| && s.order[i] == a && s.order[j] == b;
      var s1 := Submit(s, id, item).state;
      assert s1.order[i] == a && s1.order[j] == b;
      RunServesInOrder(s1, ops[1..], a, b);
    case Get =>
      var h := s.order[0];
      var log := Run(Take(s).state, ops[1..]).1;
      assert Run(s, ops).1 == [h] + log;
      if h == a {
        assert a != b;
      } else {
        PrecedesAfterTake(s, a, b);
        RunServesInOrder(Take(s).state, ops[1..], a, b);
      }
      ServedBeforeCons(h, log, a, b);
  }

  /** A queued id stays queued in every interleaving that does not serve it. */
  lemma {:induction false} StaysUntilServed<R>(s: Pending<R>, ops: seq<Op<R>>, a: string)
    requires Wellformed(s) && a in s.items && a !in Run(s, ops).1
    ensures a in Run(s, ops).0.items
    decreases |ops|
  {
    if ops == [] {
      return;
    }
    match ops[0]
    case PutOrExchange(id, item) =>
      StaysUntilServed(Submit(s, id, item).state, ops[1..], a);
    case Get =>
      assert a in s.order;
      var log := Run(Take(s).state, ops[1..]).1;
      assert Run(s, ops).1 == [s.order[0]] + log;
      assert s.order[0] != a;
      StaysUntilServed(Take(s).state, ops[1..], a);
  }

  /** A new id is queued behind every id already waiting. */
  lemma NewIdQueuesLast<R>(s: Pending<R>, a: string, b: string, item: R)
    requires Wellformed(s) && a in s.items && b !in s.items
    ensures Precedes(Submit(s, b, item).state.order, a, b)
  {
    var i :| 0 <= i < |s.order| && s.order[i] == a;
    var order := Submit(s, b, item).state.order;
    assert order[i] == a && order[|s.order|] == b;
  }

  /**
   * FIFO by first arrival: `a` arrives new, then `mid` runs (any submissions, exchanges and
   * polls), then `b` arrives new, then `rest` runs. Every time `b` is served in `rest`, `a` has
   * already been served, in `mid` or earlier in `rest`.
   */
  lemma FirstArrivalFairness<R>(s: Pending<R>, a: string, x: R, mid: seq<Op<R>>,
                                b: string, y: R, rest: seq<Op<R>>)
    requires Wellformed(s) && a !in s.items
    requires b !in Run(Submit(s, a, x).state, mid).0.items
    ensures var s1 := Submit(s, a, x).state;
            var (s2, served) := Run(s1, mid);
            a in served || ServedBefore(Run(Submit(s2, b, y).state, rest).1, a, b)
  {
    var s1 := Submit(s, a, x).state;
    var (s2, served) := Run(s1, mid);
    if a !in served {
      StaysUntilServed(s1, mid, a);
      NewIdQueuesLast(s2, a, b, y);
      RunServesInOrder(Submit(s2, b, y).state, rest, a, b);
    }
  }

  /** `ClientRequestQueue`: the mutable queue, each method one critical section of the lock. */
  class ClientRequestQueue<P> {
    var queue: seq<string>
    var clientItems: map<string, ClientRequest<P>>

    /** The abstract value of the two fields. */
    function State(): (s: Pending<ClientRequest<P>>)
      reads this
    {
      Pending(queue, clientItems)
    }

    /** The queue invariant, and every stored request is stored under its own id. */
    ghost predicate Valid()
      reads this
    {
      Wellformed(State()) && forall id :: id in clientItems ==> clientItems[id].id == id
    }

    constructor ()
      ensures Valid() && queue == [] && clientItems == map[]
    {
      queue := [];
      clientItems := map[];
    }

    method PutOrExchange(item: ClientRequest<P>) returns (exchanged: Option<ClientRequest<P>>)
      requires Valid()
      modifies this
      ensures Valid()
      ensures Exchange(State(), exchanged) == Submit(old(State()), item.id, item)
      ensures clientItems == old(clientItems)[item.id := item]
      ensures item.id in old(clientItems) ==>
                exchanged == Some(old(clientItems)[item.id]) && queue == old(queue)
      ensures item.id !in old(clientItems) ==> exchanged == None && queue == old(queue) + [item.id]
    {
      var clientId := item.id;
      exchanged := None;
      if clientId in clientItems {
        exchanged := Some(clientItems[clientId]);
      } else {
        queue := queue + [clientId];
      }
      clientItems := clientItems[clientId := item];
    }

    method Get() returns (item: Option<ClientRequest<P>>)
      requires Valid()
      modifies this
      ensures Valid()
      ensures Dequeued(State(), item) == Take(old(State()))
      ensures old(queue) == [] ==> item == None && queue == old(queue) && clientItems == old(clientItems)
      ensures old(queue) != [] ==>
                && item == Some(old(clientItems)[old(queue)[0]])
                && item.value.id == old(queue)[0]
                && queue == old(queue)[1..]
                && clientItems == old(clientItems) - {old(queue)[0]}
    {
      item := None;
      if queue != [] {
        var clientId := queue[0];
        queue := queue[1..];
        item := Some(clientItems[clientId]);
        clientItems := clientItems - {clientId};
      }
    }
  }
}
