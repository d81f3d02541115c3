/**
 * The response cache of app/request_handler.py (`ResponseCache`): a map from payload key to
 * response, overwritten by every update, whose lookups flag the stored entry as cached.
 */
module ResponseCaches {

  import opened Wrappers
  import opened ApiModels

  /** The cache after a lookup and the response the lookup returns, if any. */
  datatype Retrieved<K> = Retrieved(entries: map<K, ApiResponse>, response: Option<ApiResponse>)

  /**
   * `retrieve`: on a hit the stored entry itself is flagged as cached and returned; on a miss
   * nothing is returned and the cache is left as it was.
   */
  function Retrieval<K>(m: map<K, ApiResponse>, key: K): (r: Retrieved<K>)
    ensures r.response.Some? <==> key in m
    ensures r.entries.Keys == m.Keys
    ensures forall k :: k in m && k != key ==> r.entries[k] == m[k]
    ensures key in m ==>
              && r.entries[key] == r.response.value
              && r.response.value.cached
              && r.response.value.(cached := false) == m[key].(cached := false)
    ensures key !in m ==> r.entries == m
  {
    if key in m then
      var flagged := m[key].(cached := true);
      Retrieved(m[key := flagged], Some(flagged))
    else
      Retrieved(m, None)
  }

  /** An update followed by a lookup of the same key returns the update's response, flagged. */
  lemma UpdateThenRetrieve<K>(m: map<K, ApiResponse>, key: K, response: ApiResponse)
    ensures Retrieval(m[key := response], key).response == Some(response.(cached := true))
  {
  }

  /** Last writer wins: a second update of a key hides the first one from every later lookup. */
  lemma LastWriterWins<K>(m: map<K, ApiResponse>, key: K, first: ApiResponse, second: ApiResponse)
    ensures m[key := first][key := second] == m[key := second]
    ensures Retrieval(m[key := first][key := second], key).response == Some(second.(cached := true))
  {
  }

  /** Looking a key up twice returns the same as looking it up once, and leaves the same cache. */
  lemma RetrieveIdempotent<K>(m: map<K, ApiResponse>, key: K)
    ensures Retrieval(Retrieval(m, key).entries, key) == Retrieval(m, key)
  {
  }

  class ResponseCache<K(==)> {
    var cache: map<K, ApiResponse>

    constructor ()
      ensures cache == map[]
    {
      cache := map[];
    }

    /** `update`, for the key `request_payload.key()` computed by the caller. */
    method Update(key: K, apiResponse: ApiResponse)
      modifies this
      ensures cache == old(cache)[key := apiResponse]
    {
      cache := cache[key := apiResponse];
    }

    /** `retrieve`, for the key `request_payload.key()` computed by the caller. */
    method Retrieve(key: K) returns (apiResponse: Option<ApiResponse>)
      modifies this
      ensures Retrieved(cache, apiResponse) == Retrieval(old(cache), key)
      ensures key !in old(cache) ==> apiResponse == None && cache == old(cache)
      ensures key in old(cache) ==>
                && apiResponse == Some(old(cache)[key].(cached := true))
                && cache == old(cache)[key := apiResponse.value]
    {
      apiResponse := None;
      if key in cache {
        var stored := cache[key].(cached := true);
        cache := cache[key := stored];
        apiResponse := Some(stored);
      }
    }
  }
}
