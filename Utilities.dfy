/**
 * Request shaping, response classification and delegate dispatch
 * (the static helpers of Utilities).
 */
module Utilities {
  import opened Wrappers
  import opened Response
  import opened Notification

  /** DEFAULT_C2DM_SERVICE_URI */
  const DefaultServiceUri: string := "https://android.apis.google.com/c2dm/send"

  // ---------------------------------------------------------------------
  // requestBodyOf

  /**
   * The form fields posted for one notification. Field order: registration
   * id first, collapse key second, the delay flag third exactly when it is
   * set, then every payload entry verbatim and in order, duplicates
   * included.
   */
  function RequestBody(registrationId: string, n: C2DMNotification): (body: seq<NameValue>)
    ensures |body| == FixedFields(n) + |n.data|
    ensures body[0] == NameValue("registration_id", registrationId)
    ensures body[1] == NameValue("collapse_key", n.collapseKey)
    ensures n.delayWhileIdle ==> body[2] == NameValue("delay_while_idle", "1")
    ensures body[FixedFields(n)..] == n.data
  {
    [NameValue("registration_id", registrationId), NameValue("collapse_key", n.collapseKey)]
    + (if n.delayWhileIdle then [NameValue("delay_while_idle", "1")] else [])
    + n.data
  }

  /** Number of fixed form fields in front of the payload. */
  function FixedFields(n: C2DMNotification): nat {
    if n.delayWhileIdle then 3 else 2
  }

  /** requestBodyOf: fills the list by successive appends and a loop. */
  method RequestBodyOf(registrationId: string, n: C2DMNotification)
    returns (pairs: seq<NameValue>)
    ensures pairs == RequestBody(registrationId, n)
  {
    pairs := [];
    pairs := pairs + [NameValue("registration_id", registrationId)];
    pairs := pairs + [NameValue("collapse_key", n.collapseKey)];
    if n.delayWhileIdle {
      pairs := pairs + [NameValue("delay_while_idle", "1")];
    }
    ghost var fixed := pairs;
    var i := 0;
    while i < |n.data|
      invariant 0 <= i <= |n.data|
      invariant pairs == fixed + n.data[..i]
    {
      pairs := pairs + [n.data[i]];
      i := i + 1;
    }
    assert n.data[..i] == n.data;
  }

  /** A prefixed payload name is never the reserved delay field name. */
  lemma PrefixedNameIsNotDelayField(name: string)
    requires |DataPrefix| <= |name| && name[..|DataPrefix|] == DataPrefix
    ensures name != "delay_while_idle"
  {
    var reserved := "delay_while_idle";
    assert reserved[..|DataPrefix|][1] != DataPrefix[1];
  }

  /**
   * For a notification from the builder, a `delay_while_idle` field occurs
   * anywhere in the body if and only if the flag is set.
   */
  lemma {:induction false} DelayFieldIffFlag(registrationId: string, n: C2DMNotification)
    requires AllPrefixed(n.data)
    ensures (exists k :: 0 <= k < |RequestBody(registrationId, n)|
               && RequestBody(registrationId, n)[k].name == "delay_while_idle")
            <==> n.delayWhileIdle
  {
    var body := RequestBody(registrationId, n);
    if n.delayWhileIdle {
      assert body[2].name == "delay_while_idle";
    } else {
      forall k | 0 <= k < |body|
        ensures body[k].name != "delay_while_idle"
      {
        if k >= 2 {
          assert body[k] == body[2..][k - 2] == n.data[k - 2];
          PrefixedNameIsNotDelayField(n.data[k - 2].name);
        }
      }
    }
  }

  // ---------------------------------------------------------------------
  // logicalResponseFor

  /**
   * The decision table: 503 and 401 by status alone; 200 by the first
   * response pair (name exactly "id" means success, otherwise its value is
   * looked up as a reason code); any other status is an unknown error.
   */
  function Classify(status: int, pairs: seq<NameValue>): (r: C2DMResponse)
    requires status == 200 ==> |pairs| >= 1
    ensures r == Successful <==> status == 200 && pairs[0].name == "id"
    ensures IsServerReason(r) ==> status == 200 && pairs[0].name != "id" && Key(r) == Some(pairs[0].value)
    ensures status == 503 <==> r == ServerUnavailable
    ensures status == 401 <==> r == InvalidAuthentication
  {
    if status == 503 then ServerUnavailable
    else if status == 401 then InvalidAuthentication
    else if status == 200 then
      if pairs[0].name == "id" then Successful
      else match ReasonNamed(pairs[0].value)
        case Some(r) => r
        case None => UnknownError
    else UnknownError
  }

  /** logicalResponseFor, with the early-return scan over values(). */
  method LogicalResponseFor(status: int, pairs: seq<NameValue>) returns (r: C2DMResponse)
    requires status == 200 ==> |pairs| >= 1
    ensures r == Classify(status, pairs)
  {
    if status == 503 {
      return ServerUnavailable;
    } else if status == 401 {
      return InvalidAuthentication;
    } else if status != 200 {
      return UnknownError;
    }
    var entry := pairs[0];
    if entry.name == "id" {
      return Successful;
    }
    var value := entry.value;
    for i := 0 to |LogicalResponses|
      invariant forall j :: 0 <= j < i ==> Key(LogicalResponses[j]) != Some(value)
    {
      if Key(LogicalResponses[i]) == Some(value) {
        ReasonNamedMatchesKey(value, LogicalResponses[i]);
        return LogicalResponses[i];
      }
    }
    assert ReasonNamed(value).None? by {
      if ReasonNamed(value).Some? {
        LogicalResponsesComplete(ReasonNamed(value).value);
        assert false;
      }
    }
    return UnknownError;
  }

  /** 503, 401 and every status other than 200 ignore the response pairs. */
  lemma ClassifyIgnoresPairsOffStatus200(status: int, pairs: seq<NameValue>, others: seq<NameValue>)
    requires status != 200
    ensures Classify(status, pairs) == Classify(status, others)
    ensures status == 503 ==> Classify(status, pairs) == ServerUnavailable
    ensures status == 401 ==> Classify(status, pairs) == InvalidAuthentication
    ensures status != 503 && status != 401 ==> Classify(status, pairs) == UnknownError
  {
  }

  /**
   * A 200 response whose first pair is not "id" yields the constant whose
   * key is the pair's value, or UnknownError when no constant has it.
   */
  lemma ClassifyReasonCode(pairs: seq<NameValue>, r: C2DMResponse)
    requires |pairs| >= 1 && pairs[0].name != "id"
    ensures Key(r) == Some(pairs[0].value) ==> Classify(200, pairs) == r
    ensures (forall x :: Key(x) != Some(pairs[0].value)) ==> Classify(200, pairs) == UnknownError
  {
    ReasonNamedMatchesKey(pairs[0].value, r);
    if ReasonNamed(pairs[0].value).Some? {
      ReasonNamedMatchesKey(pairs[0].value, ReasonNamed(pairs[0].value).value);
    }
  }

  /** "Error=R" classifies as R for each of the six server reason codes. */
  lemma ClassifyErrorBody(r: C2DMResponse)
    requires IsServerReason(r)
    ensures Classify(200, [NameValue("Error", Key(r).value)]) == r
  {
  }

  // ---------------------------------------------------------------------
  // fireDelegate

  /**
   * The response as the delegate protocol sees it: the status code, the
   * already-decoded body pairs and the value of the first
   * Update-Client-Auth header, if any.
   */
  datatype HttpResponse = HttpResponse(
    status: int,
    pairs: seq<NameValue>,
    updateClientAuth: Option<string>)

  /** One callback invocation on a C2DMDelegate. */
  datatype DelegateEvent =
    | MessageSent(message: C2DMNotification, response: C2DMResponse, id: string)
    | MessageFailed(message: C2DMNotification, response: C2DMResponse)
    | AuthTokenUpdated(token: string)

  /** A caller's delegate, observed through the callbacks it receives. */
  class RecordingDelegate {
    var events: seq<DelegateEvent>

    constructor ()
      ensures events == []
    {
      events := [];
    }

    method MessageSent(message: C2DMNotification, response: C2DMResponse, id: string)
      modifies this
      ensures events == old(events) + [DelegateEvent.MessageSent(message, response, id)]
    {
      events := events + [DelegateEvent.MessageSent(message, response, id)];
    }

    method MessageFailed(message: C2DMNotification, response: C2DMResponse)
      modifies this
      ensures events == old(events) + [DelegateEvent.MessageFailed(message, response)]
    {
      events := events + [DelegateEvent.MessageFailed(message, response)];
    }

    method AuthTokenUpdated(token: string)
      modifies this
      ensures events == old(events) + [DelegateEvent.AuthTokenUpdated(token)]
    {
      events := events + [DelegateEvent.AuthTokenUpdated(token)];
    }
  }

  /**
   * The callbacks a present delegate receives for one response: exactly one
   * of messageSent (with the first pair's value as id) or messageFailed
   * (with the classified reason) comes first, and a second and last
   * callback, authTokenUpdated with the header's value, follows if and only
   * if the header is present.
   */
  function FiredEvents(message: C2DMNotification, response: HttpResponse): (ev: seq<DelegateEvent>)
    requires response.status == 200 ==> |response.pairs| >= 1
    ensures var r := Classify(response.status, response.pairs);
      && 1 <= |ev| <= 2
      && (ev[0].MessageSent? <==> r == Successful)
      && (ev[0].MessageSent? ==> ev[0] == DelegateEvent.MessageSent(message, Successful, response.pairs[0].value))
      && (ev[0].MessageFailed? <==> r != Successful)
      && (ev[0].MessageFailed? ==> ev[0] == DelegateEvent.MessageFailed(message, r))
      && (|ev| == 2 <==> response.updateClientAuth.Some?)
      && (|ev| == 2 ==> ev[1] == DelegateEvent.AuthTokenUpdated(response.updateClientAuth.value))
  {
    var r := Classify(response.status, response.pairs);
    var outcome :=
      if r == Successful then DelegateEvent.MessageSent(message, r, response.pairs[0].value)
      else DelegateEvent.MessageFailed(message, r);
    [outcome] + match response.updateClientAuth
      case Some(token) => [DelegateEvent.AuthTokenUpdated(token)]
      case None => []
  }

  /**
   * fireDelegate: nothing at all with a null delegate (the response is not
   * even classified); otherwise the outcome callback, then the token
   * callback when the header is present.
   */
  method FireDelegate(message: C2DMNotification, response: HttpResponse, delegate: RecordingDelegate?)
    requires delegate != null && response.status == 200 ==> |response.pairs| >= 1
    modifies delegate
    ensures delegate != null ==> delegate.events == old(delegate.events) + FiredEvents(message, response)
  {
    if delegate == null {
      return;
    }
    var r := LogicalResponseFor(response.status, response.pairs);
    if r == Successful {
      var id := response.pairs[0].value;
      delegate.MessageSent(message, r, id);
    } else {
      delegate.MessageFailed(message, r);
    }
    if response.updateClientAuth.Some? {
      delegate.AuthTokenUpdated(response.updateClientAuth.value);
    }
  }

  /** A successful send carries the message id the server returned. */
  lemma FiredEventsOnId(message: C2DMNotification, id: string)
    ensures FiredEvents(message, HttpResponse(200, [NameValue("id", id)], None))
         == [DelegateEvent.MessageSent(message, Successful, id)]
  {
  }

  /**
   * A reason code plus a rotated token: the failure for that reason, then
   * the token update, each exactly once.
   */
  lemma FiredEventsOnErrorWithToken(message: C2DMNotification, r: C2DMResponse, token: string)
    requires IsServerReason(r)
    ensures FiredEvents(message, HttpResponse(200, [NameValue("Error", Key(r).value)], Some(token)))
         == [DelegateEvent.MessageFailed(message, r), DelegateEvent.AuthTokenUpdated(token)]
  {
  }
}
