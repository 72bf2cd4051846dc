/**
 * The server-side user bootstrap: before the single call to the
 * WordPress.com REST API `/me` endpoint it checks the credentials and
 * builds the request headers; afterwards it turns the transport's
 * `(err, res)` pair into the promise's settlement.
 *
 * The network call itself is not modelled: the request is returned as its
 * URL and header map, and the transport's answer is an input value.
 * `decodeURIComponent`, the HMAC-MD5 hex digest, `filterUserObject` and
 * `qs.stringify` are foreign code and enter as parameters.
 */
module UserBootstrap {
  import opened Wrappers

  const ApiPath: string := "https://public-api.wordpress.com/rest/v1/me"
  const AuthCookieName: string := "wordpress_logged_in"
  const AuthorizationPrefix: string := "X-WPCALYPSO "
  const CalypsoUserAgent: string := "WordPress.com Calypso"

  const GeoCountryHeader: string := "X-Forwarded-GeoIP-Country-Code"
  const AuthorizationHeader: string := "Authorization"
  const CookieHeader: string := "Cookie"
  const UserAgentHeader: string := "User-Agent"
  const SupportSessionHeader: string := "x-support-session"

  /** The endpoint with its query string (`qs.stringify` of the query object). */
  function RequestUrl(query: string): (url: string)
    ensures |url| > |ApiPath| && url[..|ApiPath|] == ApiPath && url[|ApiPath|] == '?'
    ensures url[|ApiPath| + 1..] == query
  {
    ApiPath + "?" + query
  }

  // ---------------------------------------------------------------------
  // Values
  // ---------------------------------------------------------------------

  /** A parsed JSON value. Numbers are integers in this model. */
  datatype Json =
    | Null
    | Bool(b: bool)
    | Num(n: int)
    | Str(s: string)
    | Arr(items: seq<Json>)
    | Obj(members: map<string, Json>)

  /** What `config('wpcom_calypso_rest_api_key')` yielded. */
  datatype ConfigValue = StringValue(s: string) | NonStringValue

  /** The error object the transport passes as `err`. */
  datatype TransportError = TransportError(message: string)

  /** Why the returned promise is rejected. */
  datatype Failure =
    | ConflictingCredentials
    | MissingCredentials
      /** `decodeURIComponent` threw (URIError) inside the promise executor. */
    | MalformedCookie
    | InvalidApiKey
    | Transport(cause: TransportError)
      /** The own fields of the `Error` built from the response. */
    | Remote(fields: map<string, Json>)

  /** What happens before the network call: reject at once, or send this request. */
  datatype Start = Reject(failure: Failure) | Send(url: string, headers: map<string, string>)

  /**
   * The transport's callback arguments: an error without a response, or a
   * response with or without an error.
   */
  datatype Reply =
    | NoResponse(cause: TransportError)
    | Response(err: Option<TransportError>, status: int, body: Json)

  /** How the returned promise settles after the network call. */
  datatype Settlement = Resolved(user: Json) | Rejected(failure: Failure)

  /** JavaScript truthiness of an optional string: present and non-empty. */
  predicate Truthy(v: Option<string>)
  {
    v.Some? && v.value != ""
  }

  // ---------------------------------------------------------------------
  // The request object (`superagent.get(url)` and its `set` calls)
  // ---------------------------------------------------------------------

  class Request {
    const url: string
    var headers: map<string, string>

    constructor (url: string)
      ensures this.url == url && headers == map[]
    {
      this.url := url;
      headers := map[];
    }

    /** `req.set(field, value)`: a later value for the same field replaces the earlier one. */
    method Set(field: string, value: string)
      modifies this
      ensures headers == old(headers)[field := value]
    {
      headers := headers[field := value];
    }
  }

  // ---------------------------------------------------------------------
  // Before the call
  // ---------------------------------------------------------------------

  /** The four headers of the cookie path, for the decoded cookie and its digest. */
  function CookieHeaders(geoCountry: string, decodedCookie: string, digest: string): map<string, string>
  {
    map[GeoCountryHeader := geoCountry,
        AuthorizationHeader := AuthorizationPrefix + digest,
        CookieHeader := AuthCookieName + "=" + decodedCookie,
        UserAgentHeader := CalypsoUserAgent]
  }

  /** The single header of the support-session path. */
  function SupportSessionHeaders(session: string): map<string, string>
  {
    map[SupportSessionHeader := session]
  }

  /**
   * The decision table the bootstrap applies before the network call. A
   * request goes to the `/me` URL only with exactly one credential; every
   * early rejection is one of the four validation failures.
   */
  function Decide(
    authCookie: Option<string>, geoCountry: string, supportSession: Option<string>,
    apiKey: ConfigValue, query: string,
    decodeURIComponent: string -> Option<string>, hmacMd5Hex: (string, string) -> string): (start: Start)
    ensures start.Send? ==> start.url == RequestUrl(query) && Truthy(authCookie) != Truthy(supportSession)
    ensures start.Reject? ==>
      start.failure in {ConflictingCredentials, MissingCredentials, MalformedCookie, InvalidApiKey}
  {
    if Truthy(authCookie) && Truthy(supportSession) then Reject(ConflictingCredentials)
    else if Truthy(authCookie) then
      match decodeURIComponent(authCookie.value)
      case None => Reject(MalformedCookie)
      case Some(decoded) =>
        if apiKey.NonStringValue? then Reject(InvalidApiKey)
        else Send(RequestUrl(query), CookieHeaders(geoCountry, decoded, hmacMd5Hex(apiKey.s, decoded)))
    else if Truthy(supportSession) then Send(RequestUrl(query), SupportSessionHeaders(supportSession.value))
    else Reject(MissingCredentials)
  }

  /**
   * The exported bootstrap function up to `req.end`: validates the
   * credentials and sets the request headers one at a time.
   */
  method Prepare(
    authCookieValue: Option<string>, geoCountry: string, supportSession: Option<string>,
    apiKey: ConfigValue, query: string,
    decodeURIComponent: string -> Option<string>, hmacMd5Hex: (string, string) -> string)
    returns (start: Start)
    ensures start == Decide(authCookieValue, geoCountry, supportSession, apiKey, query,
                            decodeURIComponent, hmacMd5Hex)
  {
    if Truthy(authCookieValue) && Truthy(supportSession) {
      return Reject(ConflictingCredentials);
    }

    var req := new Request(RequestUrl(query));

    if Truthy(authCookieValue) {
      var decoded := decodeURIComponent(authCookieValue.value);
      if decoded.None? {
        return Reject(MalformedCookie);
      }
      var cookie := decoded.value;

      if apiKey.NonStringValue? {
        return Reject(InvalidApiKey);
      }

      var hash := hmacMd5Hex(apiKey.s, cookie);

      req.Set(GeoCountryHeader, geoCountry);
      req.Set(AuthorizationHeader, AuthorizationPrefix + hash);
      req.Set(CookieHeader, AuthCookieName + "=" + cookie);
      req.Set(UserAgentHeader, CalypsoUserAgent);
    } else if Truthy(supportSession) {
      req.Set(SupportSessionHeader, supportSession.value);
    } else {
      return Reject(MissingCredentials);
    }

    return Send(req.url, req.headers);
  }

  /**
   * A request is sent only with exactly one credential: both give
   * `ConflictingCredentials`, neither gives `MissingCredentials`.
   */
  lemma CredentialRules(
    authCookie: Option<string>, geoCountry: string, supportSession: Option<string>,
    apiKey: ConfigValue, query: string,
    decodeURIComponent: string -> Option<string>, hmacMd5Hex: (string, string) -> string)
    ensures var start := Decide(authCookie, geoCountry, supportSession, apiKey, query, decodeURIComponent, hmacMd5Hex);
      && (Truthy(authCookie) && Truthy(supportSession) <==> start == Reject(ConflictingCredentials))
      && (!Truthy(authCookie) && !Truthy(supportSession) <==> start == Reject(MissingCredentials))
      && (start.Send? ==> Truthy(authCookie) != Truthy(supportSession))
  {
  }

  /**
   * The cookie path rejects a cookie that does not percent-decode, then a
   * non-string API key, before any header is set.
   */
  lemma CookiePathRejections(
    authCookie: Option<string>, geoCountry: string, supportSession: Option<string>,
    apiKey: ConfigValue, query: string,
    decodeURIComponent: string -> Option<string>, hmacMd5Hex: (string, string) -> string)
    requires Truthy(authCookie) && !Truthy(supportSession)
    ensures var start := Decide(authCookie, geoCountry, supportSession, apiKey, query, decodeURIComponent, hmacMd5Hex);
      && (start == Reject(MalformedCookie) <==> decodeURIComponent(authCookie.value).None?)
      && (start == Reject(InvalidApiKey) <==>
            decodeURIComponent(authCookie.value).Some? && apiKey.NonStringValue?)
      && (start.Send? <==> decodeURIComponent(authCookie.value).Some? && apiKey.StringValue?)
  {
  }

  /**
   * On the cookie path exactly four headers are sent: the country as given,
   * the signed authorization, the decoded cookie and the fixed user agent.
   */
  lemma CookiePathHeaders(
    authCookie: Option<string>, geoCountry: string, supportSession: Option<string>,
    apiKey: ConfigValue, query: string,
    decodeURIComponent: string -> Option<string>, hmacMd5Hex: (string, string) -> string)
    requires Truthy(authCookie) && !Truthy(supportSession)
    requires decodeURIComponent(authCookie.value).Some? && apiKey.StringValue?
    ensures var start := Decide(authCookie, geoCountry, supportSession, apiKey, query, decodeURIComponent, hmacMd5Hex);
      var decoded := decodeURIComponent(authCookie.value).value;
      && start.Send?
      && start.url == RequestUrl(query)
      && start.headers.Keys == {GeoCountryHeader, AuthorizationHeader, CookieHeader, UserAgentHeader}
      && |start.headers| == 4
      && start.headers[GeoCountryHeader] == geoCountry
      && start.headers[AuthorizationHeader] == "X-WPCALYPSO " + hmacMd5Hex(apiKey.s, decoded)
      && start.headers[CookieHeader] == "wordpress_logged_in=" + decoded
      && start.headers[UserAgentHeader] == "WordPress.com Calypso"
      && SupportSessionHeader !in start.headers
  {
  }

  /**
   * On the support-session path the only header is the raw session; no
   * authorization or cookie is sent, and neither the country nor the API
   * key makes any difference.
   */
  lemma SupportSessionPathHeaders(
    authCookie: Option<string>, geoCountry: string, supportSession: Option<string>,
    apiKey: ConfigValue, query: string,
    decodeURIComponent: string -> Option<string>, hmacMd5Hex: (string, string) -> string,
    otherCountry: string, otherKey: ConfigValue)
    requires !Truthy(authCookie) && Truthy(supportSession)
    ensures var start := Decide(authCookie, geoCountry, supportSession, apiKey, query, decodeURIComponent, hmacMd5Hex);
      && start == Send(RequestUrl(query), map["x-support-session" := supportSession.value])
      && AuthorizationHeader !in start.headers && CookieHeader !in start.headers
      && start == Decide(authCookie, otherCountry, supportSession, otherKey, query, decodeURIComponent, hmacMd5Hex)
  {
  }

  // ---------------------------------------------------------------------
  // After the call
  // ---------------------------------------------------------------------

  /** The number a string of decimal digits denotes. */
  function DigitsValue(s: string): nat
    requires forall k :: 0 <= k < |s| ==> '0' <= s[k] <= '9'
  {
    if s == [] then 0
    else DigitsValue(s[..|s| - 1]) * 10 + (s[|s| - 1] - '0') as nat
  }

  /**
   * The canonical decimal form of an array index, as `for…in` yields it:
   * digits only, denoting `n`, with no leading zero.
   */
  function DecimalString(n: nat): (s: string)
    ensures |s| > 0
    ensures forall k :: 0 <= k < |s| ==> '0' <= s[k] <= '9'
    ensures DigitsValue(s) == n
    ensures s[0] == '0' ==> s == "0"
    decreases n
  {
    var digit := ['0' + (n % 10) as char];
    if n < 10 then digit else DecimalString(n / 10) + digit
  }

  /** Distinct indices give distinct keys. */
  lemma DecimalStringInjective(a: nat, b: nat)
    requires DecimalString(a) == DecimalString(b)
    ensures a == b
  {
  }

  /** The keys `for…in` yields for the first `n` indices. */
  function IndexKeys(n: nat): set<string>
  {
    set i | 0 <= i < n :: DecimalString(i)
  }

  lemma IndexKeysStep(n: nat)
    requires n > 0
    ensures IndexKeys(n) == IndexKeys(n - 1) + {DecimalString(n - 1)}
  {
  }

  /** The index keys of an array (or string) and the element at each. */
  function IndexEntries(items: seq<Json>): (entries: map<string, Json>)
    ensures entries.Keys == IndexKeys(|items|)
    decreases |items|
  {
    if items == [] then map[]
    else
      var last := |items| - 1;
      IndexKeysStep(|items|);
      IndexEntries(items[..last])[DecimalString(last) := items[last]]
  }

  /** Each index key holds the element at that index: no later index overwrites it. */
  lemma {:induction false} IndexEntriesAt(items: seq<Json>, i: nat)
    requires i < |items|
    ensures DecimalString(i) in IndexEntries(items)
    ensures IndexEntries(items)[DecimalString(i)] == items[i]
    decreases |items|
  {
    var last := |items| - 1;
    if i < last {
      IndexEntriesAt(items[..last], i);
      if DecimalString(i) == DecimalString(last) {
        DecimalStringInjective(i, last);
      }
    }
  }

  /** A string's characters, each as a one-character string value. */
  function Characters(s: string): (items: seq<Json>)
    ensures |items| == |s|
    ensures forall i :: 0 <= i < |s| ==> items[i] == Str([s[i]])
  {
    seq(|s|, i requires 0 <= i < |s| => Str([s[i]]))
  }

  /**
   * The key/value pairs `for (key in body)` visits: an object's members,
   * the indices of an array or a string, and nothing for any other value.
   */
  function ForInEntries(body: Json): (entries: map<string, Json>)
    ensures body.Obj? ==> entries == body.members
    ensures body.Arr? ==> entries.Keys == IndexKeys(|body.items|)
    ensures body.Str? ==> entries.Keys == IndexKeys(|body.s|)
    ensures body.Null? || body.Bool? || body.Num? ==> entries == map[]
  {
    match body
    case Obj(members) => members
    case Arr(items) => IndexEntries(items)
    case Str(s) => IndexEntries(Characters(s))
    case _ => map[]
  }

  /**
   * The own fields of the `Error` built for a failed response: `statusCode`
   * first, then every body entry, so a body key `statusCode` wins.
   */
  function ErrorFields(status: int, body: Json): (fields: map<string, Json>)
    ensures fields.Keys == ForInEntries(body).Keys + {"statusCode"}
    ensures forall key :: key in ForInEntries(body) ==> fields[key] == ForInEntries(body)[key]
    ensures "statusCode" !in ForInEntries(body) ==> fields["statusCode"] == Num(status)
  {
    map["statusCode" := Num(status)] + ForInEntries(body)
  }

  /**
   * How the `req.end` callback settles the promise: it resolves exactly when
   * there is a response and no error, and a rejection is never a validation
   * failure.
   */
  function Settle(reply: Reply, filterUserObject: Json -> Json): (settlement: Settlement)
    ensures settlement.Resolved? <==> reply.Response? && reply.err.None?
    ensures settlement.Rejected? ==> settlement.failure.Transport? || settlement.failure.Remote?
    ensures settlement.Rejected? && settlement.failure.Remote? ==> "statusCode" in settlement.failure.fields
  {
    match reply
    case NoResponse(err) => Rejected(Transport(err))
    case Response(err, status, body) =>
      if err.Some? then Rejected(Remote(ErrorFields(status, body)))
      else Resolved(filterUserObject(body))
  }

  /** The `Error` object the callback fills in on a failed response. */
  class ErrorObject {
    var fields: map<string, Json>

    constructor ()
      ensures fields == map[]
    {
      fields := map[];
    }

    /** `error[key] = value`. */
    method Assign(key: string, value: Json)
      modifies this
      ensures fields == old(fields)[key := value]
    {
      fields := fields[key := value];
    }
  }

  /** The `req.end` callback: maps the transport's answer to a settlement. */
  method HandleReply(reply: Reply, filterUserObject: Json -> Json) returns (settlement: Settlement)
    ensures settlement == Settle(reply, filterUserObject)
  {
    if reply.NoResponse? {
      return Rejected(Transport(reply.cause));
    }

    var body := reply.body;
    var statusCode := reply.status;

    if reply.err.Some? {
      var error := new ErrorObject();
      error.Assign("statusCode", Num(statusCode));
      var entries := ForInEntries(body);
      var pending := entries.Keys;
      while pending != {}
        invariant pending <= entries.Keys
        invariant error.fields.Keys == {"statusCode"} + (entries.Keys - pending)
        invariant forall key :: key in error.fields ==>
          error.fields[key] == if key in entries && key !in pending then entries[key] else Num(statusCode)
        decreases pending
      {
        var key :| key in pending;
        error.Assign(key, entries[key]);
        pending := pending - {key};
      }
      assert error.fields == ErrorFields(statusCode, body);
      return Rejected(Remote(error.fields));
    }

    return Resolved(filterUserObject(body));
  }

  /**
   * A transport error without a response rejects with that same error, and
   * a reply without an error resolves with the filtered body.
   */
  lemma SettleWithoutRemoteError(reply: Reply, filterUserObject: Json -> Json)
    ensures reply.NoResponse? ==> Settle(reply, filterUserObject) == Rejected(Transport(reply.cause))
    ensures reply.Response? && reply.err.None? ==>
      Settle(reply, filterUserObject) == Resolved(filterUserObject(reply.body))
  {
  }

  /**
   * A failed response rejects with `statusCode` and every body field; a body
   * field named `statusCode` overrides the HTTP status.
   */
  lemma RemoteErrorFields(err: TransportError, status: int, body: Json, filterUserObject: Json -> Json)
    ensures var s := Settle(Response(Some(err), status, body), filterUserObject);
      var entries := ForInEntries(body);
      && s.Rejected? && s.failure.Remote?
      && s.failure.fields.Keys == entries.Keys + {"statusCode"}
      && (forall key :: key in entries ==> s.failure.fields[key] == entries[key])
      && s.failure.fields["statusCode"] == (if "statusCode" in entries then entries["statusCode"] else Num(status))
  {
  }

  /** A 403 answer with an object body keeps the status and both body fields. */
  lemma ForbiddenReply(err: TransportError, filterUserObject: Json -> Json)
    ensures Settle(Response(Some(err), 403, Obj(map["error" := Str("forbidden"), "message" := Str("no")])), filterUserObject)
      == Rejected(Remote(map["statusCode" := Num(403), "error" := Str("forbidden"), "message" := Str("no")]))
  {
    var fields := ErrorFields(403, Obj(map["error" := Str("forbidden"), "message" := Str("no")]));
    assert fields == map["statusCode" := Num(403), "error" := Str("forbidden"), "message" := Str("no")];
  }

  /** An array body contributes one field per element, under its decimal index. */
  lemma ArrayBodyFields(err: TransportError, status: int, items: seq<Json>, filterUserObject: Json -> Json, i: nat)
    requires i < |items|
    ensures var r := Settle(Response(Some(err), status, Arr(items)), filterUserObject);
      r.Rejected? && r.failure.Remote? && r.failure.fields[DecimalString(i)] == items[i]
  {
    IndexEntriesAt(items, i);
  }

  /** A string body contributes one field per character, under its decimal index. */
  lemma StringBodyFields(err: TransportError, status: int, s: string, filterUserObject: Json -> Json, i: nat)
    requires i < |s|
    ensures var r := Settle(Response(Some(err), status, Str(s)), filterUserObject);
      r.Rejected? && r.failure.Remote? && r.failure.fields[DecimalString(i)] == Str([s[i]])
  {
    IndexEntriesAt(Characters(s), i);
  }

  // ---------------------------------------------------------------------
  // The exported function
  // ---------------------------------------------------------------------

  /**
   * The whole bootstrap: `transport` stands for sending the request and
   * receiving the callback's `(err, res)`.
   */
  function Bootstrap(
    authCookie: Option<string>, geoCountry: string, supportSession: Option<string>,
    apiKey: ConfigValue, query: string,
    decodeURIComponent: string -> Option<string>, hmacMd5Hex: (string, string) -> string,
    transport: (string, map<string, string>) -> Reply, filterUserObject: Json -> Json): (settlement: Settlement)
    ensures settlement.Resolved? ==> Truthy(authCookie) != Truthy(supportSession)
    ensures settlement.Resolved? || (settlement.Rejected? && (settlement.failure.Transport? || settlement.failure.Remote?))
      ==> Decide(authCookie, geoCountry, supportSession, apiKey, query, decodeURIComponent, hmacMd5Hex).Send?
  {
    match Decide(authCookie, geoCountry, supportSession, apiKey, query, decodeURIComponent, hmacMd5Hex)
    case Reject(failure) => Rejected(failure)
    case Send(url, headers) => Settle(transport(url, headers), filterUserObject)
  }

  method BootstrapUser(
    authCookieValue: Option<string>, geoCountry: string, supportSession: Option<string>,
    apiKey: ConfigValue, query: string,
    decodeURIComponent: string -> Option<string>, hmacMd5Hex: (string, string) -> string,
    transport: (string, map<string, string>) -> Reply, filterUserObject: Json -> Json)
    returns (settlement: Settlement)
    ensures settlement == Bootstrap(authCookieValue, geoCountry, supportSession, apiKey, query,
                                    decodeURIComponent, hmacMd5Hex, transport, filterUserObject)
  {
    var start := Prepare(authCookieValue, geoCountry, supportSession, apiKey, query, decodeURIComponent, hmacMd5Hex);
    if start.Reject? {
      return Rejected(start.failure);
    }
    var reply := transport(start.url, start.headers);
    settlement := HandleReply(reply, filterUserObject);
  }

  /**
   * Every validation failure settles without the transport being consulted:
   * whatever the network would answer, the settlement is the same rejection.
   */
  lemma ValidationFailuresSendNothing(
    authCookie: Option<string>, geoCountry: string, supportSession: Option<string>,
    apiKey: ConfigValue, query: string,
    decodeURIComponent: string -> Option<string>, hmacMd5Hex: (string, string) -> string,
    transport: (string, map<string, string>) -> Reply, otherTransport: (string, map<string, string>) -> Reply,
    filterUserObject: Json -> Json)
    requires (Truthy(authCookie) == Truthy(supportSession))
          || (Truthy(authCookie) && decodeURIComponent(authCookie.value).None?)
          || (Truthy(authCookie) && apiKey.NonStringValue?)
    ensures var s := Bootstrap(authCookie, geoCountry, supportSession, apiKey, query,
                               decodeURIComponent, hmacMd5Hex, transport, filterUserObject);
      && s.Rejected?
      && s.failure in {ConflictingCredentials, MissingCredentials, MalformedCookie, InvalidApiKey}
      && s == Bootstrap(authCookie, geoCountry, supportSession, apiKey, query,
                        decodeURIComponent, hmacMd5Hex, otherTransport, filterUserObject)
  {
  }
}
