/**
 * The REST client: how a call's request is put together (headers, the
 * filter query appended to the path), how the server's answer is
 * classified, and the token kept in the shared cache. The connection is
 * represented by the answer it yields; `json.loads` and base64 are
 * parameters, and the last-checked time arrives already formatted in UTC.
 */
module Rest {
  import opened Wrappers
  import opened Json
  import Text
  import Cache

  const TokenKey: string := "token"
  const TokenTypeKey: string := "token_type"
  const NotSignedIn: string := "You are not signed in. Please sign in before making REST calls."
  const BadCredentials: string := "Incorrect username or password"

  /** The arguments of `make_api_call` that shape the request. */
  datatype ApiCall = ApiCall(api: string, data: Option<string>, verb: string, lastChecked: Option<string>,
                             filter: Option<seq<(string, Value)>>, dataType: Option<string>)

  /** A request as handed to the connection. */
  datatype Request = Request(verb: string, path: string, body: Option<string>, headers: map<string, Value>)

  /** How the connection answers. */
  datatype Response =
    | Answered(status: int, body: string)
    | BadStatusLine
    | TimedOut
    | Refused
    | Broken(what: string)

  /** The exceptions a call raises. */
  datatype ApiError =
    | AuthorizationError(message: string)
    | BadRequestError(status: int, data: Value)
    | RESTError(message: string, status: int)
    | ServerConnectionError(message: string)
    | Other(failure: Failure)

  /** What a call ends with: a decoded value, Python's `None`, or an exception. */
  datatype Outcome = Returned(value: Value) | ReturnedNone | Failed(error: ApiError)

  /**
   * The Authorization header: `<token_type> <token>` when a token is cached
   * (a missing token type raises `KeyError`), else HTTP Basic over the
   * client credentials when both are set, else none.
   */
  function AuthValue(entries: map<string, Value>, clientId: Option<string>, clientSecret: Option<string>,
                     b64: string -> string): (r: Result<Option<string>>)
    ensures TokenKey in entries && TokenTypeKey !in entries ==> r == Err(KeyError(TokenTypeKey))
    ensures TokenKey in entries && TokenTypeKey in entries && entries[TokenKey].Str? && entries[TokenTypeKey].Str? ==>
      r == Ok(Some(entries[TokenTypeKey].s + " " + entries[TokenKey].s))
    ensures TokenKey !in entries && clientId.Some? && clientSecret.Some? ==>
      r == Ok(Some("Basic " + b64(clientId.value + ":" + clientSecret.value)))
    ensures TokenKey !in entries && !(clientId.Some? && clientSecret.Some?) ==> r == Ok(None)
  {
    if TokenKey in entries then
      if TokenTypeKey !in entries then Err(KeyError(TokenTypeKey))
      else
        var tokenType :- PyStr(entries[TokenTypeKey]);
        var token :- PyStr(entries[TokenKey]);
        Ok(Some(tokenType + " " + token))
    else if clientId.Some? && clientSecret.Some? then
      Ok(Some("Basic " + b64(clientId.value + ":" + clientSecret.value)))
    else Ok(None)
  }

  /** The request headers. */
  function Headers(auth: Option<string>, verb: string, data: Option<string>, dataType: Option<string>): map<string, Value> {
    var h0 := map["Accept" := Str("application/json"), "X-Requested-With" := Str("XMLHttpRequest")];
    var h1 := if auth.Some? then h0["Authorization" := Str(auth.value)] else h0;
    var h2 := h1["X-HTTP-Method-Override" := Str(verb)];
    var h3 := if verb == "GET" then h2["Accept-encoding" := Str("gzip, deflate")] else h2;
    var h4 := if data.Some? && dataType.Some? then h3["Content-Type" := Str(dataType.value)] else h3;
    if data.Some? then h4["Content-Length" := Int(|data.value|)] else h4
  }

  /**
   * The method is always echoed in `X-HTTP-Method-Override`; compression is
   * accepted only for GET; the body's type and length are declared only
   * with a body; the Authorization header is present exactly when there is
   * a value for it.
   */
  lemma HeadersFacts(auth: Option<string>, verb: string, data: Option<string>, dataType: Option<string>)
    ensures var h := Headers(auth, verb, data, dataType);
      && h["Accept"] == Str("application/json")
      && h["X-HTTP-Method-Override"] == Str(verb)
      && ("Authorization" in h <==> auth.Some?)
      && (auth.Some? ==> h["Authorization"] == Str(auth.value))
      && ("Accept-encoding" in h <==> verb == "GET")
      && ("Content-Type" in h <==> data.Some? && dataType.Some?)
      && ("Content-Length" in h <==> data.Some?)
      && (data.Some? ==> h["Content-Length"] == Int(|data.value|))
  {
  }

  /** A filter value: a string as it is, anything else as its items' `str()` joined by commas. */
  function FieldText(v: Value): (r: Result<string>)
    ensures v.Str? ==> r == Ok(v.s)
  {
    if v.Str? then Ok(v.s)
    else
      var items :- Iter(v);
      var texts :- StrOfEach(items);
      Ok(Text.Join(texts, ","))
  }

  /** `map(str, items)`. */
  function StrOfEach(items: seq<Value>): (r: Result<seq<string>>)
    ensures r.Ok? ==> |r.value| == |items|
  {
    if items == [] then Ok([])
    else
      var first :- PyStr(items[0]);
      var rest :- StrOfEach(items[1..]);
      Ok([first] + rest)
  }

  /** The `name=value` pieces of the filter, in the order the dict yields its fields. */
  function FilterPieces(filter: seq<(string, Value)>): (r: Result<seq<string>>)
    ensures r.Ok? ==> |r.value| == |filter|
  {
    if filter == [] then Ok([])
    else
      var value :- FieldText(filter[0].1);
      var rest :- FilterPieces(filter[1..]);
      Ok([filter[0].0 + "=" + value] + rest)
  }

  /** The pieces each preceded by '&', concatenated. */
  function Ampersanded(pieces: seq<string>): string {
    if pieces == [] then "" else "&" + pieces[0] + Ampersanded(pieces[1..])
  }

  /** All the query pieces: the last-checked bound first, then the filter fields. */
  function QueryPieces(lastChecked: Option<string>, filter: Option<seq<(string, Value)>>): (r: Result<seq<string>>)
    ensures r.Ok? && lastChecked.Some? ==> |r.value| > 0 && r.value[0] == "last_modified__gte=" + lastChecked.value
  {
    var bound := if lastChecked.Some? then ["last_modified__gte=" + lastChecked.value] else [];
    if filter.None? then Ok(bound)
    else
      var fields :- FilterPieces(filter.value);
      Ok(bound + fields)
  }

  /** The path requested: the API path with the filter string appended, its first '&' turned into '?'. */
  function ApiPath(call: ApiCall): (r: Result<string>) {
    var pieces :- QueryPieces(call.lastChecked, call.filter);
    var filterString := Ampersanded(pieces);
    Ok(call.api + (if filterString != "" then "?" + filterString[1..] else ""))
  }

  lemma {:induction false} AmpersandedJoin(pieces: seq<string>)
    requires pieces != []
    ensures Ampersanded(pieces) == "&" + Text.Join(pieces, "&")
    decreases |pieces|
  {
    if |pieces| > 1 {
      AmpersandedJoin(pieces[1..]);
    }
  }

  /**
   * The path carries no query without a bound or filter fields; otherwise
   * it is the API path, '?', and the pieces joined by '&', so that pieces
   * free of '&' are found again by splitting the query.
   */
  lemma ApiPathQuery(call: ApiCall)
    requires QueryPieces(call.lastChecked, call.filter).Ok?
    ensures var pieces := QueryPieces(call.lastChecked, call.filter).value;
      && (pieces == [] ==> ApiPath(call) == Ok(call.api))
      && (pieces != [] ==> ApiPath(call) == Ok(call.api + "?" + Text.Join(pieces, "&")))
      && (pieces != [] && (forall i :: 0 <= i < |pieces| ==> '&' !in pieces[i]) ==>
            Text.Split(Text.Join(pieces, "&"), '&') == pieces)
  {
    var pieces := QueryPieces(call.lastChecked, call.filter).value;
    var filterString := Ampersanded(pieces);
    assert ApiPath(call) == Ok(call.api + (if filterString != "" then "?" + filterString[1..] else ""));
    if pieces == [] {
      assert call.api + "" == call.api;
    } else {
      AmpersandedJoin(pieces);
      assert filterString[1..] == Text.Join(pieces, "&") && filterString != "";
      assert call.api + ("?" + filterString[1..]) == call.api + "?" + Text.Join(pieces, "&");
      if forall i :: 0 <= i < |pieces| ==> '&' !in pieces[i] {
        Text.SplitJoin(pieces, '&');
      }
    }
  }

  /** A call without bound or filter requests the API path as it is. */
  lemma NoFilterPathUnchanged(call: ApiCall)
    requires call.lastChecked.None? && call.filter.None?
    ensures ApiPath(call) == Ok(call.api)
  {
    ApiPathQuery(call);
  }

  /** The pieces of two runs of fields are the two runs' pieces, the first failure winning. */
  lemma {:induction false} FilterPiecesAppend(a: seq<(string, Value)>, b: seq<(string, Value)>)
    ensures FilterPieces(a + b) ==
      if FilterPieces(a).Err? then Err(FilterPieces(a).error)
      else if FilterPieces(b).Err? then Err(FilterPieces(b).error)
      else Ok(FilterPieces(a).value + FilterPieces(b).value)
    decreases |a|
  {
    if a == [] {
      assert a + b == b;
      if FilterPieces(b).Ok? {
        assert [] + FilterPieces(b).value == FilterPieces(b).value;
      }
    } else {
      assert (a + b)[0] == a[0] && (a + b)[1..] == a[1..] + b;
      var value := FieldText(a[0].1);
      if value.Ok? {
        FilterPiecesAppend(a[1..], b);
        var rest := FilterPieces(a[1..]);
        if rest.Ok? && FilterPieces(b).Ok? {
          assert [a[0].0 + "=" + value.value] + (rest.value + FilterPieces(b).value) ==
            ([a[0].0 + "=" + value.value] + rest.value) + FilterPieces(b).value;
        }
      }
    }
  }

  lemma {:induction false} AmpersandedSnoc(pieces: seq<string>, p: string)
    ensures Ampersanded(pieces + [p]) == Ampersanded(pieces) + "&" + p
    decreases |pieces|
  {
    if pieces == [] {
      assert [] + [p] == [p];
    } else {
      assert (pieces + [p])[1..] == pieces[1..] + [p];
      AmpersandedSnoc(pieces[1..], p);
    }
  }

  /**
   * `make_api_call`'s filter string: the bound, then the filter fields
   * written one by one; the leading '&' is made '?' when it is appended to
   * the API path.
   */
  method BuildApiPath(call: ApiCall) returns (r: Result<string>)
    ensures r == ApiPath(call)
  {
    ghost var bound := if call.lastChecked.Some? then ["last_modified__gte=" + call.lastChecked.value] else [];
    var filterString := "";
    if call.lastChecked.Some? {
      filterString := filterString + "&last_modified__gte=" + call.lastChecked.value;
    }
    assert filterString == Ampersanded(bound);
    if call.filter.Some? {
      var written := WriteFilter(filterString, bound, call.filter.value);
      if written.Err? {
        return Err(written.error);
      }
      filterString := written.value;
    }
    if filterString != "" {
      filterString := "?" + filterString[1..];
    }
    r := Ok(call.api + filterString);
  }

  /** The loop of `make_api_call` that writes the filter fields after `start`, the pieces of `bound`. */
  method WriteFilter(start: string, ghost bound: seq<string>, fields: seq<(string, Value)>) returns (r: Result<string>)
    requires start == Ampersanded(bound)
    ensures FilterPieces(fields).Err? ==> r == Err(FilterPieces(fields).error)
    ensures FilterPieces(fields).Ok? ==> r == Ok(Ampersanded(bound + FilterPieces(fields).value))
  {
    var filterString := start;
    ghost var written: seq<string> := [];
    assert bound + written == bound;
    var i := 0;
    while i < |fields|
      invariant 0 <= i <= |fields|
      invariant FilterPieces(fields[..i]) == Ok(written)
      invariant filterString == Ampersanded(bound + written)
    {
      var value := FieldText(fields[i].1);
      if value.Err? {
        FilterPiecesStop(fields, i);
        return Err(value.error);
      }
      var piece := fields[i].0 + "=" + value.value;
      FilterPiecesStep(fields, i, written, piece);
      AmpersandedStep(bound, written, piece);
      filterString := filterString + "&" + piece;
      written := written + [piece];
      i := i + 1;
    }
    assert fields[..i] == fields;
    r := Ok(filterString);
  }

  /** A field whose value is written extends the pieces by one. */
  lemma FilterPiecesStep(fields: seq<(string, Value)>, i: nat, written: seq<string>, piece: string)
    requires i < |fields| && FilterPieces(fields[..i]) == Ok(written)
    requires FieldText(fields[i].1).Ok? && piece == fields[i].0 + "=" + FieldText(fields[i].1).value
    ensures FilterPieces(fields[..i + 1]) == Ok(written + [piece])
  {
    assert fields[..i + 1] == fields[..i] + [fields[i]];
    FilterPiecesAppend(fields[..i], [fields[i]]);
    assert FilterPieces([fields[i]]) == Ok([piece]) by {
      assert [fields[i]][1..] == [] && [fields[i]][0] == fields[i];
      assert FilterPieces([]) == Ok([]);
      assert [piece] + [] == [piece];
    }
  }

  /** A field whose value cannot be written makes the whole filter fail with its error. */
  lemma FilterPiecesStop(fields: seq<(string, Value)>, i: nat)
    requires i < |fields| && FilterPieces(fields[..i]).Ok? && FieldText(fields[i].1).Err?
    ensures FilterPieces(fields) == Err(FieldText(fields[i].1).error)
  {
    FilterPiecesAppend(fields[..i], fields[i..]);
    assert fields[..i] + fields[i..] == fields;
    assert fields[i..][0] == fields[i];
  }

  lemma AmpersandedStep(bound: seq<string>, written: seq<string>, piece: string)
    ensures Ampersanded(bound + written) + "&" + piece == Ampersanded(bound + (written + [piece]))
  {
    AmpersandedSnoc(bound + written, piece);
    assert bound + written + [piece] == bound + (written + [piece]);
  }

  /** The request `make_api_call` sends, or what it raises before sending. */
  function Prepared(entries: map<string, Value>, clientId: Option<string>, clientSecret: Option<string>,
                    call: ApiCall, b64: string -> string): (r: Result<Request>)
    ensures r.Ok? ==> r.value.verb == call.verb && r.value.body == call.data
    ensures r.Ok? ==> ApiPath(call) == Ok(r.value.path)
  {
    var auth :- AuthValue(entries, clientId, clientSecret, b64);
    var path :- ApiPath(call);
    Ok(Request(call.verb, path, call.data, Headers(auth, call.verb, call.data, call.dataType)))
  }

  /** An answer with status 401. */
  predicate Unauthorized(response: Response) {
    response.Answered? && response.status == 401
  }

  /** The decoded body of a successful answer: `{}` for an empty one. */
  function Decoded(body: string, loads: string -> Option<Value>): Outcome {
    if body == "" then Returned(Obj(map[]))
    else if loads(body).Some? then Returned(loads(body).value)
    else Failed(Other(ValueError("No JSON object could be decoded")))
  }

  /**
   * The outcome of an answer as the handler is written: a 401's
   * `AuthorizationError` is caught by the handler meant for retrying with a
   * full sign-in, which only retries while a token is cached; the token was
   * just removed from that same dictionary, so the handler falls through and
   * the call returns `None`.
   */
  function OutcomeAsWritten(response: Response, loads: string -> Option<Value>): (r: Outcome)
    ensures Unauthorized(response) ==> r == ReturnedNone
    ensures !Unauthorized(response) ==> r == Classified(response, loads)
  {
    if Unauthorized(response) then ReturnedNone else Classified(response, loads)
  }

  /**
   * The outcome of an answer with the 401 reaching the caller as
   * `AuthorizationError`, as the raise intends: 400 raises
   * `BadRequestError` with the decoded body, any other status from 300 up
   * raises `RESTError`, and a success returns the decoded body.
   */
  function Classified(response: Response, loads: string -> Option<Value>): (r: Outcome)
    ensures response.Answered? && response.status >= 300 ==> r.Failed?
    ensures Unauthorized(response) ==> r == Failed(AuthorizationError(BadCredentials))
    ensures response.Answered? && response.status == 400 && loads(response.body).Some? ==>
      r == Failed(BadRequestError(400, loads(response.body).value))
    ensures response.Answered? && response.status >= 300 && response.status != 400 && response.status != 401 ==>
      r == Failed(RESTError(response.body, response.status))
    ensures response.Answered? && response.status < 300 && response.body == "" ==> r == Returned(Obj(map[]))
    ensures response.BadStatusLine? ==> r == Returned(Obj(map[]))
    ensures response.TimedOut? || response.Refused? ==> r.Failed? && r.error.ServerConnectionError?
  {
    match response
    case Answered(status, body) =>
      if status >= 300 then
        if status == 401 then Failed(AuthorizationError(BadCredentials))
        else if status == 400 then
          if loads(body).Some? then Failed(BadRequestError(status, loads(body).value))
          else Failed(Other(ValueError("No JSON object could be decoded")))
        else Failed(RESTError(body, status))
      else Decoded(body, loads)
    case BadStatusLine => Returned(Obj(map[]))
    case TimedOut => Failed(ServerConnectionError("Server connection attempt timed out."))
    case Refused => Failed(ServerConnectionError("Connection to server refused."))
    case Broken(what) => Failed(Other(Raised(what)))
  }

  /** As written, a rejected sign-in or an expired token ends the call with `None` rather than an exception. */
  lemma UnauthorizedSwallowed(body: string, loads: string -> Option<Value>)
    ensures OutcomeAsWritten(Answered(401, body), loads) == ReturnedNone
    ensures Classified(Answered(401, body), loads) == Failed(AuthorizationError(BadCredentials))
  {
  }

  /** What a call ends with, given the cached entries before it and the answer it gets. */
  function CallResult(entries: map<string, Value>, clientId: Option<string>, clientSecret: Option<string>,
                      call: ApiCall, b64: string -> string, response: Response, loads: string -> Option<Value>): Outcome {
    var request := Prepared(entries, clientId, clientSecret, call, b64);
    if request.Err? then Failed(Other(request.error)) else Classified(response, loads)
  }

  /** `RESTClient`: the server, the client credentials, and the requests sent. */
  class Client {
    var domain: string
    var clientId: Option<string>
    var clientSecret: Option<string>
    var timeout: int
    const store: Cache.Store
    var requests: seq<Request>

    /** The cache exists once a client does (`get_cache()` in the constructor). */
    ghost predicate Valid()
      reads this, store
    {
      store.cache != null
    }

    /** `RESTClient(domain)`: no credentials, a 20-second timeout, and the cache loaded. */
    constructor (domain: string, store: Cache.Store, fileExists: bool, unpickled: Option<map<string, Value>>)
      modifies store
      ensures this.domain == domain && this.store == store && clientId == None && clientSecret == None
      ensures timeout == 20 && requests == []
      ensures Valid() && store.filename == old(store.filename) && store.saved == old(store.saved)
      ensures old(store.cache) != null ==> store.cache == old(store.cache) && store.cache.entries == old(store.cache.entries)
    {
      this.domain := domain;
      this.store := store;
      clientId := None;
      clientSecret := None;
      timeout := 20;
      requests := [];
      new;
      var data := store.GetCache(fileExists, unpickled);
    }

    /** `set_domain(domain)`. */
    method SetDomain(domain: string)
      modifies this
      ensures this.domain == domain && timeout == old(timeout) && requests == old(requests)
      ensures clientId == old(clientId) && clientSecret == old(clientSecret)
    {
      this.domain := domain;
    }

    /** `set_timeout(timeout)`. */
    method SetTimeout(timeout: int)
      modifies this
      ensures this.timeout == timeout && domain == old(domain) && requests == old(requests)
      ensures clientId == old(clientId) && clientSecret == old(clientSecret)
    {
      this.timeout := timeout;
    }

    /** `get_auth_token()`: the cached token, if any. */
    method GetAuthToken() returns (token: Option<Value>)
      requires Valid()
      ensures TokenKey in store.cache.entries <==> token.Some?
      ensures token.Some? ==> token.value == store.cache.entries[TokenKey]
    {
      var data := store.cache;
      token := if TokenKey in data.entries then Some(data.entries[TokenKey]) else None;
    }

    /** `invalidate_token()`: removes the token, and only the token, saving the cache when there was one. */
    method InvalidateToken()
      requires Valid()
      modifies store, store.cache
      ensures Valid() && store.cache == old(store.cache) && store.filename == old(store.filename)
      ensures store.cache.entries == old(store.cache.entries) - {TokenKey}
      ensures store.saved == old(store.saved) +
        (if TokenKey in old(store.cache.entries) then [(store.filename, Some(store.cache.entries))] else [])
    {
      var data := store.GetCache(false, None);
      if TokenKey in data.entries {
        data.entries := data.entries - {TokenKey};
        store.SaveCache();
      }
    }

    /**
     * `make_api_call(...)`: prepares the request from the cached token or the
     * client credentials, sends it when preparing it raised nothing, and
     * classifies the answer; a 401 also discards the cached token.
     */
    method MakeApiCall(call: ApiCall, b64: string -> string, response: Response, loads: string -> Option<Value>)
      returns (r: Outcome)
      requires Valid()
      modifies this, store, store.cache
      ensures Valid() && store.cache == old(store.cache) && store.filename == old(store.filename)
      ensures domain == old(domain) && clientId == old(clientId) && clientSecret == old(clientSecret)
      ensures var request := Prepared(old(store.cache.entries), clientId, clientSecret, call, b64);
        && r == CallResult(old(store.cache.entries), clientId, clientSecret, call, b64, response, loads)
        && requests == old(requests) + (if request.Ok? then [request.value] else [])
        && (request.Ok? && Unauthorized(response) ==>
              store.cache.entries == old(store.cache.entries) - {TokenKey} &&
              store.saved == old(store.saved) +
                (if TokenKey in old(store.cache.entries) then [(store.filename, Some(store.cache.entries))] else []))
        && (!(request.Ok? && Unauthorized(response)) ==>
              store.cache.entries == old(store.cache.entries) && store.saved == old(store.saved))
    {
      var auth := AuthValue(store.cache.entries, clientId, clientSecret, b64);
      if auth.Err? {
        return Failed(Other(auth.error));
      }
      var path := BuildApiPath(call);
      if path.Err? {
        return Failed(Other(path.error));
      }
      requests := requests + [Request(call.verb, path.value, call.data, Headers(auth.value, call.verb, call.data, call.dataType))];
      if Unauthorized(response) {
        InvalidateToken();
      }
      r := Classified(response, loads);
    }

    /** `call_api(...)`: refuses to call without a cached token. */
    method CallApi(call: ApiCall, b64: string -> string, response: Response, loads: string -> Option<Value>)
      returns (r: Outcome)
      requires Valid()
      modifies this, store, store.cache
      ensures Valid() && store.cache == old(store.cache) && store.filename == old(store.filename)
      ensures domain == old(domain) && clientId == old(clientId) && clientSecret == old(clientSecret)
      ensures TokenKey !in old(store.cache.entries) ==>
        r == Failed(AuthorizationError(NotSignedIn)) && requests == old(requests) &&
        store.cache.entries == old(store.cache.entries) && store.saved == old(store.saved)
      ensures TokenKey in old(store.cache.entries) ==>
        var request := Prepared(old(store.cache.entries), clientId, clientSecret, call, b64);
        && r == CallResult(old(store.cache.entries), clientId, clientSecret, call, b64, response, loads)
        && requests == old(requests) + (if request.Ok? then [request.value] else [])
        && (request.Ok? && Unauthorized(response) ==>
              store.cache.entries == old(store.cache.entries) - {TokenKey} &&
              store.saved == old(store.saved) + [(store.filename, Some(store.cache.entries))])
        && (!(request.Ok? && Unauthorized(response)) ==>
              store.cache.entries == old(store.cache.entries) && store.saved == old(store.saved))
    {
      var data := store.cache;
      if TokenKey !in data.entries {
        return Failed(AuthorizationError(NotSignedIn));
      }
      r := MakeApiCall(call, b64, response, loads);
    }
  }
}
