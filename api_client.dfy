/**
 * The shared HTTP client (`apiClient`) and its two interceptors: every
 * outgoing request carries the session's access token as a Bearer header,
 * and a request answered 401 is retried once after a token refresh.
 * The network is an oracle: the replies to the first and to the retried
 * transmission are parameters.
 */
module ApiClient {
  import opened Wrappers
  import opened UserStore

  /** The parts of an outgoing request the interceptors read or write. */
  class RequestConfig {
    /** The `Authorization` header, if any. */
    var authorization: Option<string>
    /** The `_retry` flag: this request has already been retried once. */
    var retry: bool

    constructor(authorization: Option<string>)
      ensures this.authorization == authorization && !retry
    {
      this.authorization := authorization;
      retry := false;
    }
  }

  /** What one transmission came back with. */
  datatype HttpReply = Success(body: string) | ErrorStatus(status: int) | NoResponse

  /** What the caller of `apiClient(config)` finally sees. */
  datatype Outcome = Resolved(body: string) | Rejected(status: Option<int>)

  datatype Recovery = Reject | Resend

  const Unauthorized := 401

  /** The header value `Bearer ${token}`. */
  function BearerHeader(token: string): (h: string)
    ensures |h| == 7 + |token| && h[..7] == "Bearer " && h[7..] == token
  {
    "Bearer " + token
  }

  function StatusOf(reply: HttpReply): Option<int>
  {
    if reply.ErrorStatus? then Some(reply.status) else None
  }

  /** The request interceptor: a truthy access token in the store becomes the Bearer header; otherwise the request goes out as it was. */
  method AttachToken(config: RequestConfig, session: Session)
    modifies config
    ensures Truthy(session.accessToken) ==> config.authorization == Some(BearerHeader(session.accessToken.value))
    ensures !Truthy(session.accessToken) ==> config.authorization == old(config.authorization)
    ensures config.retry == old(config.retry)
  {
    var token := session.accessToken;
    if Truthy(token) {
      config.authorization := Some(BearerHeader(token.value));
    }
  }

  /**
   * The response-error interceptor. A request without a config or already
   * retried is rejected untouched; a 401 marks the request as retried,
   * refreshes the token and, when that yields a truthy token, sets it as the
   * Bearer header and asks for the request to be sent again; any other
   * error is rejected.
   */
  method OnResponseError(config: RequestConfig?, status: Option<int>, session: Session,
                         refreshReply: ApiReply<TokenRefresh>, now: int)
    returns (recovery: Recovery, refreshed: bool, token: Option<string>)
    requires session.Valid()
    modifies config, session
    ensures session.Valid()
    ensures config == null || old(config.retry) || status != Some(Unauthorized) ==>
      recovery == Reject && !refreshed && session.State() == old(session.State())
      && (config != null ==> config.retry == old(config.retry) && config.authorization == old(config.authorization))
    ensures config != null && !old(config.retry) && status == Some(Unauthorized) ==>
      && refreshed && config.retry
      && (token, session.State()) == AfterRefresh(old(session.State()), refreshReply, now)
      && (recovery == Resend <==> Truthy(token))
      && (recovery == Resend ==> config.authorization == Some(BearerHeader(token.value)))
      && (recovery == Reject ==> config.authorization == old(config.authorization))
  {
    refreshed, token := false, None;
    if config == null || config.retry {
      return Reject, refreshed, token;
    }
    if status == Some(Unauthorized) {
      config.retry := true;
      token := session.RefreshAccessToken(refreshReply, now);
      refreshed := true;
      if !Truthy(token) {
        return Reject, refreshed, token;
      }
      config.authorization := Some(BearerHeader(token.value));
      return Resend, refreshed, token;
    }
    recovery := Reject;
  }

  /**
   * `apiClient(config)` from the caller's point of view: the request goes out
   * with the current token; a 401 leads to one refresh and at most one
   * resend, which goes out with the refreshed token. `sent` lists the
   * Authorization header of every transmission.
   */
  method Request(config: RequestConfig, session: Session, first: HttpReply, second: HttpReply,
                 refreshReply: ApiReply<TokenRefresh>, now: int)
    returns (outcome: Outcome, sent: seq<Option<string>>, refreshes: nat)
    requires session.Valid() && !config.retry
    modifies config, session
    ensures session.Valid()
    ensures 1 <= |sent| <= 2 && refreshes <= 1
    ensures Truthy(old(session.accessToken)) ==> sent[0] == Some(BearerHeader(old(session.accessToken).value))
    ensures !Truthy(old(session.accessToken)) ==> sent[0] == old(config.authorization)
    ensures first.Success? ==> outcome == Resolved(first.body) && |sent| == 1 && refreshes == 0
    ensures !first.Success? && StatusOf(first) != Some(Unauthorized) ==>
      outcome == Rejected(StatusOf(first)) && |sent| == 1 && refreshes == 0 && session.State() == old(session.State())
    ensures StatusOf(first) == Some(Unauthorized) ==>
      var (token, after) := AfterRefresh(old(session.State()), refreshReply, now);
      && refreshes == 1
      && session.State() == after
      && (|sent| == 2 <==> Truthy(token))
      && (|sent| == 1 ==> outcome == Rejected(Some(Unauthorized)))
      && (|sent| == 2 ==> sent[1] == Some(BearerHeader(token.value)))
      && (|sent| == 2 ==> outcome == if second.Success? then Resolved(second.body) else Rejected(StatusOf(second)))
  {
    AttachToken(config, session);
    sent := [config.authorization];
    refreshes := 0;
    if first.Success? {
      return Resolved(first.body), sent, refreshes;
    }
    var recovery, refreshed, token := OnResponseError(config, StatusOf(first), session, refreshReply, now);
    if refreshed {
      refreshes := 1;
    }
    if recovery == Reject {
      return Rejected(StatusOf(first)), sent, refreshes;
    }
    AttachToken(config, session);
    sent := sent + [config.authorization];
    if second.Success? {
      return Resolved(second.body), sent, refreshes;
    }
    var again, refreshedAgain, _ := OnResponseError(config, StatusOf(second), session, refreshReply, now);
    assert again == Reject && !refreshedAgain;
    outcome := Rejected(StatusOf(second));
  }
}
