/**
 * The request unit of app/request_handler.py (`ClientRequest`): the client identity derived from
 * the request's headers, the payload, the sequence number, a result slot and a one-shot
 * completion signal.
 */
module ClientRequests {

  import opened Wrappers
  import opened ApiModels

  /** The scheme prefix an authorization header must start with to identify a client. */
  const BearerPrefix: string := "Bearer "

  /**
   * `ClientRequest.get_client_id`: the token after "Bearer " followed by the client's host, or
   * the empty (anonymous) identity when there is no bearer authorization header.
   */
  function ClientId(authorization: Option<string>, host: string): (id: string)
    // without a bearer header the client is anonymous
    ensures !(authorization.Some? && BearerPrefix <= authorization.value) ==> id == ""
    // with one, the id is the token followed by the host, so it ends with the host
    ensures authorization.Some? && BearerPrefix <= authorization.value ==>
      && |id| == |authorization.value| - |BearerPrefix| + |host|
      && id[|id| - |host|..] == host
  {
    if authorization.Some? && BearerPrefix <= authorization.value
    then authorization.value[|BearerPrefix|..] + host
    else ""
  }

  /** A bearer header for `token` from `host` yields exactly the token followed by the host. */
  lemma ClientIdOfBearer(token: string, host: string)
    ensures ClientId(Some(BearerPrefix + token), host) == token + host
  {
  }

  /**
   * Every non-anonymous identity comes from a bearer header: there is a token such that the
   * header is "Bearer " + token and the identity is token + host.
   */
  lemma ClientIdFromBearer(authorization: Option<string>, host: string)
    requires ClientId(authorization, host) != ""
    ensures authorization.Some?
    ensures exists token :: authorization.value == BearerPrefix + token
                         && ClientId(authorization, host) == token + host
  {
  }

  /**
   * The identity is anonymous exactly when there is no header, the header is not a bearer
   * header, or both the token and the host are empty.
   */
  lemma ClientIdAnonymous(authorization: Option<string>, host: string)
    ensures ClientId(authorization, host) == "" <==>
              authorization.None? || !(BearerPrefix <= authorization.value)
              || (authorization.value == BearerPrefix && host == "")
  {
  }

  /**
   * Token and host are concatenated without a separator, so two different clients can share an
   * identity: token "x1" from host "0.0.0.1" and token "x" from host "10.0.0.1".
   */
  lemma ClientIdCollides()
    ensures ClientId(Some(BearerPrefix + "x1"), "0.0.0.1") == ClientId(Some(BearerPrefix + "x"), "10.0.0.1")
  {
  }

  /** One client call. The identity, sequence number and payload never change after creation. */
  class ClientRequest<P> {
    const id: string
    const cnt: nat
    const payload: P
    var apiResponse: Option<ApiResponse>
    var event: bool

    /** Neither the result slot is written nor the completion signal fired. */
    predicate Unanswered()
      reads this
    {
      apiResponse == None && !event
    }

    constructor (authorization: Option<string>, host: string, payload: P, cnt: nat)
      ensures id == ClientId(authorization, host) && this.cnt == cnt && this.payload == payload
      ensures Unanswered()
    {
      id := ClientId(authorization, host);
      this.cnt := cnt;
      this.payload := payload;
      apiResponse := None;
      event := false;
    }
  }
}
