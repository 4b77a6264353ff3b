/**
 * The authentication session store (`useUserStore`): the logged-in user and
 * the token pair in memory, a snapshot of them in browser storage under one
 * key, and at most one timer that refreshes the access token one minute
 * before it expires.
 *
 * Every action is specified by a function from the old `SessionState` to the
 * new one; the `Session` class performs the action step by step and promises
 * exactly that function's result. The clock (`Date.now()`) and the two
 * backend calls (token refresh, logout) are parameters.
 */
module UserStore {
  import opened Wrappers

  datatype UserRole = Admin | User

  datatype AuthUser = AuthUser(id: int, name: string, email: string, role: UserRole)

  /** What the login endpoint hands out; `expiresIn` is in seconds. */
  datatype AuthTokens = AuthTokens(accessToken: string, refreshToken: string, expiresIn: int)

  /** The body of a successful token-refresh reply. */
  datatype TokenRefresh = TokenRefresh(accessToken: string, expiresIn: int)

  /**
   * What `localStorage.getItem` hands back under the auth key once read:
   * an empty text, text that is not a JSON object, or an object whose
   * fields may each be missing.
   */
  datatype StorageEntry =
    | BlankText
    | Malformed
    | Record(user: Option<AuthUser>, accessToken: Option<string>, refreshToken: Option<string>, expiresAt: Option<int>)

  /** The refresh-timer handle: none, one still waiting, or one whose callback has already run. */
  datatype TimerSlot = NoTimer | Scheduled(delay: int) | Fired(delay: int)

  datatype SessionState = SessionState(
    isLoggedIn: bool,
    user: Option<AuthUser>,
    accessToken: Option<string>,
    refreshToken: Option<string>,
    expiresAt: Option<int>,
    isRefreshing: bool,
    timer: TimerSlot,
    storage: Option<StorageEntry>)

  /** How the first half of `refreshAccessToken` (up to the network call) ended. */
  datatype RefreshStart =
    | AlreadyRefreshing(current: Option<string>)
    | NoRefreshToken
    | Requested(refreshToken: string)

  /** The refresh is armed this many milliseconds before the access token expires. */
  const RefreshLeadMs := 60000

  /** JavaScript truthiness of an optional string: absent and empty are both false. */
  predicate Truthy(s: Option<string>)
  {
    s.Some? && s.value != ""
  }

  function ExpiryTime(now: int, expiresIn: int): int
  {
    now + expiresIn * 1000
  }

  /** The timer left behind by "clear the old timer, then arm one only for a positive delay". */
  function TimerFor(delay: int): (t: TimerSlot)
    ensures t.Scheduled? <==> delay > 0
    ensures t.Scheduled? ==> t.delay == delay
    ensures !t.Fired?
  {
    if delay > 0 then Scheduled(delay) else NoTimer
  }

  function Snapshot(user: AuthUser, accessToken: string, refreshToken: string, expiresAt: int): StorageEntry
  {
    Record(Some(user), Some(accessToken), Some(refreshToken), Some(expiresAt))
  }

  /** The store as created, with whatever browser storage already holds. */
  function Initial(storage: Option<StorageEntry>): (st: SessionState)
    ensures !st.isLoggedIn && !st.isRefreshing && st.timer == NoTimer && st.storage == storage
    ensures st.user.None? && st.accessToken.None? && st.refreshToken.None? && st.expiresAt.None?
  {
    SessionState(false, None, None, None, None, false, NoTimer, storage)
  }

  /** Memory and storage agree: logged in with the snapshot of exactly the in-memory session, or logged out with nothing stored. */
  predicate Persisted(st: SessionState)
  {
    if st.isLoggedIn then
      st.user.Some? && st.accessToken.Some? && st.refreshToken.Some? && st.expiresAt.Some?
      && st.storage == Some(Snapshot(st.user.value, st.accessToken.value, st.refreshToken.value, st.expiresAt.value))
    else
      st == Initial(None)
  }

  /** `setAuth(user, tokens)` at time `now`. */
  function AfterSetAuth(st: SessionState, user: AuthUser, tokens: AuthTokens, now: int): (r: SessionState)
    ensures r.isLoggedIn && r.user == Some(user)
    ensures r.accessToken == Some(tokens.accessToken) && r.refreshToken == Some(tokens.refreshToken)
    ensures r.expiresAt == Some(now + tokens.expiresIn * 1000)
    ensures Persisted(r)
    ensures r.timer.Scheduled? <==> tokens.expiresIn * 1000 > RefreshLeadMs
    ensures r.timer.Scheduled? ==> r.timer.delay == tokens.expiresIn * 1000 - RefreshLeadMs
    ensures r.isRefreshing == st.isRefreshing
  {
    var expiresAt := ExpiryTime(now, tokens.expiresIn);
    st.(isLoggedIn := true, user := Some(user),
        accessToken := Some(tokens.accessToken), refreshToken := Some(tokens.refreshToken),
        expiresAt := Some(expiresAt),
        timer := TimerFor(tokens.expiresIn * 1000 - RefreshLeadMs),
        storage := Some(Snapshot(user, tokens.accessToken, tokens.refreshToken, expiresAt)))
  }

  /** `clearAuth()`: storage removed, timer cancelled, every field back to its initial value. */
  function AfterClearAuth(st: SessionState): (r: SessionState)
    ensures r == Initial(None)
    ensures Persisted(r)
  {
    st.(isLoggedIn := false, user := None, accessToken := None, refreshToken := None,
        expiresAt := None, isRefreshing := false, timer := NoTimer, storage := None)
  }

  /** `loadAuthFromStorage()` at time `now`. */
  function AfterLoadAuth(st: SessionState, now: int): (r: SessionState)
    ensures st.storage.None? || st.storage == Some(BlankText) ==> r == st
    ensures st.storage == Some(Malformed) ==> r == st.(storage := None)
    ensures st.storage.Some? && st.storage.value.Record? ==>
      var e := st.storage.value.expiresAt;
      if e.None? || e.value == 0 || e.value <= now then
        r == st.(storage := None)
      else
        (&& r.isLoggedIn && r.storage == st.storage && r.expiresAt == e
         && r.user == st.storage.value.user
         && r.accessToken == st.storage.value.accessToken
         && r.refreshToken == st.storage.value.refreshToken
         && r.isRefreshing == st.isRefreshing
         && r.timer == TimerFor(e.value - now - RefreshLeadMs))
  {
    match st.storage
    case None => st
    case Some(BlankText) => st
    case Some(Malformed) => st.(storage := None)
    case Some(Record(user, accessToken, refreshToken, expiresAt)) =>
      if expiresAt.None? || expiresAt.value == 0 || expiresAt.value <= now then st.(storage := None)
      else
        st.(isLoggedIn := true, user := user, accessToken := accessToken, refreshToken := refreshToken,
            expiresAt := expiresAt, timer := TimerFor(expiresAt.value - now - RefreshLeadMs))
  }

  /** `refreshAccessToken()` up to the network call. */
  function AfterBeginRefresh(st: SessionState): (r: (RefreshStart, SessionState))
    ensures st.isRefreshing ==> r == (AlreadyRefreshing(st.accessToken), st)
    ensures !st.isRefreshing && !Truthy(st.refreshToken) ==> r == (NoRefreshToken, AfterClearAuth(st))
    ensures !st.isRefreshing && Truthy(st.refreshToken) ==>
      r == (Requested(st.refreshToken.value), st.(isRefreshing := true))
  {
    if st.isRefreshing then (AlreadyRefreshing(st.accessToken), st)
    else if !Truthy(st.refreshToken) then (NoRefreshToken, AfterClearAuth(st))
    else (Requested(st.refreshToken.value), st.(isRefreshing := true))
  }

  /** The rest of `refreshAccessToken()`, once the backend has answered the request made with `refreshToken`. */
  function AfterFinishRefresh(st: SessionState, refreshToken: string, reply: ApiReply<TokenRefresh>, now: int): (r: (Option<string>, SessionState))
    ensures !r.1.isRefreshing
    ensures reply.Failed? ==> r == (None, AfterClearAuth(st))
    ensures reply.Ok? ==>
      var e := now + reply.body.expiresIn * 1000;
      && r.0 == Some(reply.body.accessToken)
      && r.1.accessToken == r.0 && r.1.expiresAt == Some(e)
      && r.1.isLoggedIn == st.isLoggedIn && r.1.user == st.user && r.1.refreshToken == st.refreshToken
      && r.1.timer == TimerFor(reply.body.expiresIn * 1000 - RefreshLeadMs)
      && r.1.storage == (if st.user.Some? then Some(Snapshot(st.user.value, reply.body.accessToken, refreshToken, e)) else st.storage)
  {
    match reply
    case Failed(_) => (None, AfterClearAuth(st))
    case Ok(TokenRefresh(accessToken, expiresIn)) =>
      var expiresAt := ExpiryTime(now, expiresIn);
      var storage := if st.user.Some? then Some(Snapshot(st.user.value, accessToken, refreshToken, expiresAt)) else st.storage;
      (Some(accessToken),
       st.(accessToken := Some(accessToken), expiresAt := Some(expiresAt), isRefreshing := false,
           timer := TimerFor(expiresIn * 1000 - RefreshLeadMs), storage := storage))
  }

  /** `refreshAccessToken()` run to completion with no other action in between. */
  function AfterRefresh(st: SessionState, reply: ApiReply<TokenRefresh>, now: int): (r: (Option<string>, SessionState))
  {
    match AfterBeginRefresh(st).0
    case AlreadyRefreshing(current) => (current, st)
    case NoRefreshToken => (None, AfterClearAuth(st))
    case Requested(refreshToken) => AfterFinishRefresh(AfterBeginRefresh(st).1, refreshToken, reply, now)
  }

  /** The page is reloaded: memory starts over, storage survives. */
  function Restart(st: SessionState): SessionState
  {
    Initial(st.storage)
  }

  // ---------------------------------------------------------------------------
  // Properties of the actions
  // ---------------------------------------------------------------------------

  /** A session saved by `setAuth` is restored unchanged by `loadAuthFromStorage` after a reload, as long as it has not expired. */
  lemma RestoreAfterSetAuth(st: SessionState, user: AuthUser, tokens: AuthTokens, loginTime: int, now: int)
    requires now < ExpiryTime(loginTime, tokens.expiresIn) && ExpiryTime(loginTime, tokens.expiresIn) != 0
    ensures var saved := AfterSetAuth(st, user, tokens, loginTime);
      var restored := AfterLoadAuth(Restart(saved), now);
      && restored.isLoggedIn && restored.user == Some(user)
      && restored.accessToken == Some(tokens.accessToken) && restored.refreshToken == Some(tokens.refreshToken)
      && restored.expiresAt == saved.expiresAt && restored.storage == saved.storage
      && !restored.isRefreshing
      && restored.timer == TimerFor(ExpiryTime(loginTime, tokens.expiresIn) - now - RefreshLeadMs)
  {
  }

  /** An expired (or expiry-less) snapshot is deleted and the in-memory session is left as it was. */
  lemma ExpiredSnapshotDiscarded(st: SessionState, now: int)
    requires st.storage.Some? && st.storage.value.Record?
    requires st.storage.value.expiresAt.None? || st.storage.value.expiresAt.value <= now
    ensures AfterLoadAuth(st, now) == st.(storage := None)
  {
  }

  /** A second refresh started while one is in flight makes no backend call and returns the current access token. */
  lemma SecondRefreshDeduplicated(st: SessionState)
    requires AfterBeginRefresh(st).0.Requested?
    ensures var inFlight := AfterBeginRefresh(st).1;
      AfterBeginRefresh(inFlight) == (AlreadyRefreshing(st.accessToken), inFlight)
  {
  }

  /** A completed refresh never leaves the in-flight flag set, unless another refresh was already in flight when it was asked for. */
  lemma RefreshClearsFlag(st: SessionState, reply: ApiReply<TokenRefresh>, now: int)
    requires !st.isRefreshing
    ensures !AfterRefresh(st, reply, now).1.isRefreshing
  {
  }

  /** A successful refresh replaces the access token and its expiry only: the user and the refresh token are kept. */
  lemma {:induction false} RefreshKeepsIdentity(st: SessionState, body: TokenRefresh, now: int)
    requires !st.isRefreshing && Truthy(st.refreshToken)
    ensures var (token, r) := AfterRefresh(st, Ok(body), now);
      && token == Some(body.accessToken) && r.accessToken == token
      && r.user == st.user && r.refreshToken == st.refreshToken && r.isLoggedIn == st.isLoggedIn
      && r.expiresAt == Some(ExpiryTime(now, body.expiresIn))
  {
    var inFlight := AfterBeginRefresh(st).1;
    assert AfterBeginRefresh(st).0 == Requested(st.refreshToken.value);
    assert inFlight.user == st.user && inFlight.refreshToken == st.refreshToken;
  }

  /** Every action keeps memory and storage in agreement (the load only at start-up, on fresh memory). */
  lemma {:induction false} ActionsKeepPersisted(st: SessionState, user: AuthUser, tokens: AuthTokens,
                                                reply: ApiReply<TokenRefresh>, now: int)
    requires Persisted(st)
    ensures Persisted(AfterSetAuth(st, user, tokens, now))
    ensures Persisted(AfterClearAuth(st))
    ensures Persisted(AfterRefresh(st, reply, now).1)
    ensures Persisted(AfterLoadAuth(Restart(st), now))
  {
    if st.isLoggedIn {
      if !st.isRefreshing && Truthy(st.refreshToken) && reply.Ok? {
        var inFlight := AfterBeginRefresh(st).1;
        var r := AfterFinishRefresh(inFlight, st.refreshToken.value, reply, now).1;
        assert r.storage == Some(Snapshot(r.user.value, r.accessToken.value, r.refreshToken.value, r.expiresAt.value));
      }
    }
  }

  // ---------------------------------------------------------------------------
  // Timer bookkeeping: every armed timer is cancelled or has fired before the
  // next one is armed.
  // ---------------------------------------------------------------------------

  datatype TimerEvent = Armed(delay: int) | Cancelled | Ran

  /** Timers armed and neither cancelled nor run, after the events in `log`. */
  function Pending(log: seq<TimerEvent>): int
  {
    if log == [] then 0
    else Pending(log[..|log| - 1]) + (if log[|log| - 1].Armed? then 1 else -1)
  }

  /** At no point in the history were two timers waiting at once. */
  ghost predicate AtMostOnePending(log: seq<TimerEvent>)
  {
    forall k :: 0 <= k <= |log| ==> 0 <= Pending(log[..k]) <= 1
  }

  lemma LogAppend(log: seq<TimerEvent>, e: TimerEvent)
    requires AtMostOnePending(log)
    requires 0 <= Pending(log) + (if e.Armed? then 1 else -1) <= 1
    ensures Pending(log + [e]) == Pending(log) + (if e.Armed? then 1 else -1)
    ensures AtMostOnePending(log + [e])
  {
    var log' := log + [e];
    assert log'[..|log'| - 1] == log;
    forall k | 0 <= k <= |log'| ensures 0 <= Pending(log'[..k]) <= 1 {
      if k <= |log| {
        assert log'[..k] == log[..k];
      } else {
        assert log'[..k] == log';
      }
    }
  }

  class Session {
    var isLoggedIn: bool
    var user: Option<AuthUser>
    var accessToken: Option<string>
    var refreshToken: Option<string>
    var expiresAt: Option<int>
    var isRefreshing: bool
    /** The module-level `refreshTimeoutId`. */
    var timer: TimerSlot
    /** The `medinote_auth` entry of browser storage. */
    var storage: Option<StorageEntry>
    ghost var timerLog: seq<TimerEvent>

    function State(): SessionState
      reads this
    {
      SessionState(isLoggedIn, user, accessToken, refreshToken, expiresAt, isRefreshing, timer, storage)
    }

    ghost predicate Valid()
      reads this
    {
      AtMostOnePending(timerLog) && Pending(timerLog) == (if timer.Scheduled? then 1 else 0)
    }

    constructor(stored: Option<StorageEntry>)
      ensures Valid() && State() == Initial(stored)
    {
      isLoggedIn, user, accessToken, refreshToken, expiresAt := false, None, None, None, None;
      isRefreshing, timer, storage := false, NoTimer, stored;
      timerLog := [];
    }

    /** `if (refreshTimeoutId) { clearTimeout(refreshTimeoutId); refreshTimeoutId = null; }` */
    method CancelTimer()
      requires Valid()
      modifies this
      ensures Valid() && timer == NoTimer
      ensures State() == old(State()).(timer := NoTimer)
    {
      if timer != NoTimer {
        if timer.Scheduled? {
          LogAppend(timerLog, Cancelled);
          timerLog := timerLog + [Cancelled];
        }
        timer := NoTimer;
      }
    }

    /** Arms the refresh timer when the delay is positive; the slot must be empty. */
    method ArmTimer(delay: int)
      requires Valid() && timer == NoTimer
      modifies this
      ensures Valid()
      ensures State() == old(State()).(timer := TimerFor(delay))
    {
      if delay > 0 {
        LogAppend(timerLog, Armed(delay));
        timerLog := timerLog + [Armed(delay)];
        timer := Scheduled(delay);
      }
    }

    method SetAuth(u: AuthUser, tokens: AuthTokens, now: int)
      requires Valid()
      modifies this
      ensures Valid() && State() == AfterSetAuth(old(State()), u, tokens, now)
    {
      var e := ExpiryTime(now, tokens.expiresIn);
      storage := Some(Snapshot(u, tokens.accessToken, tokens.refreshToken, e));
      CancelTimer();
      ArmTimer(tokens.expiresIn * 1000 - RefreshLeadMs);
      isLoggedIn, user, accessToken, refreshToken, expiresAt := true, Some(u), Some(tokens.accessToken), Some(tokens.refreshToken), Some(e);
    }

    method ClearAuth()
      requires Valid()
      modifies this
      ensures Valid() && State() == AfterClearAuth(old(State()))
    {
      storage := None;
      CancelTimer();
      isLoggedIn, user, accessToken, refreshToken, expiresAt, isRefreshing := false, None, None, None, None, false;
    }

    /** `logout()`; `calledBackend` says whether the logout endpoint was asked to revoke the refresh token. */
    method Logout(reply: ApiReply<string>) returns (calledBackend: bool)
      requires Valid()
      modifies this
      ensures calledBackend <==> Truthy(old(refreshToken))
      ensures Valid() && State() == AfterClearAuth(old(State()))
    {
      calledBackend := Truthy(refreshToken);
      ClearAuth();
    }

    method LoadAuthFromStorage(now: int)
      requires Valid()
      modifies this
      ensures Valid() && State() == AfterLoadAuth(old(State()), now)
    {
      match storage {
        case None =>
        case Some(BlankText) =>
        case Some(Malformed) =>
          storage := None;
        case Some(Record(u, at, rt, e)) =>
          if e.None? || e.value == 0 || e.value <= now {
            storage := None;
          } else {
            CancelTimer();
            ArmTimer(e.value - now - RefreshLeadMs);
            isLoggedIn, user, accessToken, refreshToken, expiresAt := true, u, at, rt, e;
          }
      }
    }

    method BeginRefresh() returns (start: RefreshStart)
      requires Valid()
      modifies this
      ensures Valid() && (start, State()) == AfterBeginRefresh(old(State()))
    {
      if isRefreshing {
        return AlreadyRefreshing(accessToken);
      }
      if !Truthy(refreshToken) {
        ClearAuth();
        return NoRefreshToken;
      }
      isRefreshing := true;
      start := Requested(refreshToken.value);
    }

    method FinishRefresh(requestedWith: string, reply: ApiReply<TokenRefresh>, now: int) returns (token: Option<string>)
      requires Valid()
      modifies this
      ensures Valid() && (token, State()) == AfterFinishRefresh(old(State()), requestedWith, reply, now)
    {
      match reply {
        case Failed(_) =>
          ClearAuth();
          token := None;
        case Ok(TokenRefresh(at, expiresIn)) =>
          var e := ExpiryTime(now, expiresIn);
          if user.Some? {
            storage := Some(Snapshot(user.value, at, requestedWith, e));
          }
          CancelTimer();
          ArmTimer(expiresIn * 1000 - RefreshLeadMs);
          accessToken, expiresAt, isRefreshing := Some(at), Some(e), false;
          token := Some(at);
      }
      isRefreshing := false;
    }

    method RefreshAccessToken(reply: ApiReply<TokenRefresh>, now: int) returns (token: Option<string>)
      requires Valid()
      modifies this
      ensures Valid() && (token, State()) == AfterRefresh(old(State()), reply, now)
    {
      var start := BeginRefresh();
      match start {
        case AlreadyRefreshing(current) => token := current;
        case NoRefreshToken => token := None;
        case Requested(rt) => token := FinishRefresh(rt, reply, now);
      }
    }

    /** The scheduled timer's callback runs: it starts a refresh. */
    method TimerFires(reply: ApiReply<TokenRefresh>, now: int) returns (token: Option<string>)
      requires Valid() && timer.Scheduled?
      modifies this
      ensures Valid()
      ensures (token, State()) == AfterRefresh(old(State()).(timer := Fired(old(timer).delay)), reply, now)
    {
      LogAppend(timerLog, Ran);
      timerLog := timerLog + [Ran];
      timer := Fired(timer.delay);
      token := RefreshAccessToken(reply, now);
    }
  }
}
