/**
 * The logical outcome of one delivery attempt (the enum C2DMResponse).
 *
 * The six server reason codes are the constants the enum declares; the
 * classifier additionally refers to four outcomes that are not declared in
 * that revision of the enum (Successful, ServerUnavailable,
 * InvalidAuthentication, UnknownError), so the datatype adds them.
 */
module Response {
  import opened Wrappers

  datatype C2DMResponse =
    | QuotaExceeded
    | DeviceQuotaExceeded
    | InvalidRegistration
    | NotRegistered
    | MessageTooBig
    | MissingCollapseKey
    | Successful
    | ServerUnavailable
    | InvalidAuthentication
    | UnknownError

  /** The six reason codes the server can send after `Error=`. */
  predicate IsServerReason(r: C2DMResponse) {
    r in {QuotaExceeded, DeviceQuotaExceeded, InvalidRegistration,
          NotRegistered, MessageTooBig, MissingCollapseKey}
  }

  /**
   * getKey(): the literal reason code a constant answers to. The six
   * declared constants answer to their own name; the four added outcomes
   * answer to no server code.
   */
  function Key(r: C2DMResponse): (k: Option<string>)
    ensures k.Some? <==> IsServerReason(r)
  {
    match r
    case QuotaExceeded => Some("QuotaExceeded")
    case DeviceQuotaExceeded => Some("DeviceQuotaExceeded")
    case InvalidRegistration => Some("InvalidRegistration")
    case NotRegistered => Some("NotRegistered")
    case MessageTooBig => Some("MessageTooBig")
    case MissingCollapseKey => Some("MissingCollapseKey")
    case _ => None
  }

  /** values(): every constant, declared reasons first, once each. */
  const LogicalResponses: seq<C2DMResponse> :=
    [QuotaExceeded, DeviceQuotaExceeded, InvalidRegistration, NotRegistered,
     MessageTooBig, MissingCollapseKey,
     Successful, ServerUnavailable, InvalidAuthentication, UnknownError]

  /**
   * Reference lookup of a reason code, independent of any scan order:
   * the constant whose key is exactly `code`, if there is one.
   */
  function ReasonNamed(code: string): (r: Option<C2DMResponse>)
    ensures r.Some? ==> IsServerReason(r.value) && Key(r.value) == Some(code)
  {
    if code == "QuotaExceeded" then Some(QuotaExceeded)
    else if code == "DeviceQuotaExceeded" then Some(DeviceQuotaExceeded)
    else if code == "InvalidRegistration" then Some(InvalidRegistration)
    else if code == "NotRegistered" then Some(NotRegistered)
    else if code == "MessageTooBig" then Some(MessageTooBig)
    else if code == "MissingCollapseKey" then Some(MissingCollapseKey)
    else None
  }

  /** Distinct constants have distinct keys, so a key names one constant. */
  lemma KeyInjective(a: C2DMResponse, b: C2DMResponse)
    requires Key(a).Some? && Key(a) == Key(b)
    ensures a == b
  {
  }

  /** values() lists every constant exactly once. */
  lemma LogicalResponsesComplete(r: C2DMResponse)
    ensures r in LogicalResponses
    ensures forall i, j :: 0 <= i < j < |LogicalResponses| ==> LogicalResponses[i] != LogicalResponses[j]
  {
  }

  /**
   * The table lookup agrees with getKey in both directions: `code` maps to
   * `r` exactly when `r`'s key is `code`, and to nothing exactly when no
   * constant answers to `code`.
   */
  lemma ReasonNamedMatchesKey(code: string, r: C2DMResponse)
    ensures ReasonNamed(code) == Some(r) <==> Key(r) == Some(code)
    ensures ReasonNamed(code).None? ==> Key(r) != Some(code)
  {
  }

  /** Every server reason code looks up to its own constant (a round trip). */
  lemma ReasonNamedRoundTrip(r: C2DMResponse)
    requires IsServerReason(r)
    ensures ReasonNamed(Key(r).value) == Some(r)
  {
  }
}
