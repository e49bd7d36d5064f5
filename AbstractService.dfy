/**
 * What every delivery strategy shares (AbstractC2DMService): the final
 * service URI and auth token, and the shaping of one POST request.
 */
module AbstractService {
  import opened Wrappers
  import opened Notification
  import Utilities

  /** The authorization scheme put in front of the token. */
  const AuthScheme: string := "GoogleLogin auth="

  /** An HttpPost: target URI, form-encoded body fields, request headers. */
  datatype HttpPost = HttpPost(uri: string, body: seq<NameValue>, headers: seq<NameValue>)

  /** A request handed to a strategy's push together with its notification. */
  datatype Pending = Pending(request: HttpPost, message: C2DMNotification)

  /** The two final fields set once by the constructor. */
  datatype ServiceBase = ServiceBase(serviceUri: string, authToken: string)

  /** The exception a public push can throw before anything is forwarded. */
  datatype PushError = NotImplementedYet | NotStarted

  /**
   * postMessage addresses the configured URI, posts exactly the body
   * requestBodyOf builds, and adds exactly one Authorization header from
   * which the configured token reads back unchanged.
   */
  function PostMessage(s: ServiceBase, registrationId: string, n: C2DMNotification): (p: HttpPost)
    ensures p.uri == s.serviceUri
    ensures p.body == Utilities.RequestBody(registrationId, n)
    ensures HeaderCount(p.headers, "Authorization") == 1
    ensures AuthorizationToken(p.headers) == Some(s.authToken)
  {
    HttpPost(s.serviceUri, Utilities.RequestBody(registrationId, n),
             [NameValue("Authorization", AuthScheme + s.authToken)])
  }

  /** Recovers the token from the first Authorization header that carries the scheme. */
  function AuthorizationToken(headers: seq<NameValue>): (t: Option<string>)
    ensures t.Some? ==> exists k :: 0 <= k < |headers| && headers[k].name == "Authorization"
                                     && headers[k].value == AuthScheme + t.value
  {
    if |headers| == 0 then None
    else if headers[0].name == "Authorization" && |AuthScheme| <= |headers[0].value|
            && headers[0].value[..|AuthScheme|] == AuthScheme
    then
      assert headers[0].value == AuthScheme + headers[0].value[|AuthScheme|..];
      Some(headers[0].value[|AuthScheme|..])
    else
      var t := AuthorizationToken(headers[1..]);
      assert t.Some? ==> exists k :: 1 <= k < |headers| && headers[k].name == "Authorization"
                                    && headers[k].value == AuthScheme + t.value;
      t
  }

  /** How many headers with the given name a request carries. */
  function HeaderCount(headers: seq<NameValue>, name: string): nat
  {
    if |headers| == 0 then 0
    else (if headers[0].name == name then 1 else 0) + HeaderCount(headers[1..], name)
  }

  /** push(registrationId, message): the one entry forwarded to the strategy. */
  function Forwarded(s: ServiceBase, registrationId: string, message: C2DMNotification): (e: Pending)
    ensures e.message == message
    ensures e.request.uri == s.serviceUri && AuthorizationToken(e.request.headers) == Some(s.authToken)
    ensures e.request.body == Utilities.RequestBody(registrationId, message)
  {
    Pending(PostMessage(s, registrationId, message), message)
  }

  /** push(registrationId, payload): always throws, forwarding nothing. */
  function PushPayload(s: ServiceBase, registrationId: string, payload: string): (r: Result<Pending, PushError>)
    ensures r == Failure(NotImplementedYet)
  {
    Failure(NotImplementedYet)
  }
}
