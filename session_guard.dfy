/** The session guard: one process-wide client handle and its tokens, brought to a usable state
    before every tool call by `init_r2r_client` and `check_login`. Every exchange failure falls
    through to the next strategy and is never raised. */
module SessionGuard {
  import opened Wrappers
  import opened Jwt
  import opened Remote

  const DefaultBaseUrl: string := "http://localhost:7272"

  /** The environment: `R2R_BASE_URL`, `R2R_USERNAME`, `R2R_PASSWORD` (None when unset). */
  datatype Config = Config(baseUrl: Option<string>, username: Option<string>, password: Option<string>)

  /** Python truthiness of an environment value: set and non-empty. */
  predicate Truthy(s: Option<string>) {
    s.Some? && s.value != ""
  }

  predicate CredentialsConfigured(cfg: Config) {
    Truthy(cfg.username) && Truthy(cfg.password)
  }

  function BaseUrl(cfg: Config): (url: string)
    ensures cfg.baseUrl.None? ==> url == DefaultBaseUrl
    ensures cfg.baseUrl.Some? ==> url == cfg.baseUrl.value
  {
    cfg.baseUrl.GetOr(DefaultBaseUrl)
  }

  /** The global `r2r_client` and the token state it holds. */
  datatype SessionState = SessionState(
    hasClient: bool, baseUrl: string, accessToken: Option<Token>, refreshToken: Option<Token>)

  /** What one guard operation does: the state it leaves and the exchanges it issued, in order. */
  datatype Step = Step(after: SessionState, issued: seq<Exchange>)

  /** `users.login` with the configured credentials: one login call; the tokens change only
      when it succeeds, and a failure is swallowed. */
  function LoginStep(st: SessionState, cfg: Config, login: LoginOutcome): (r: Step)
    requires CredentialsConfigured(cfg)
    ensures r.issued == [LoginCall(cfg.username.value, cfg.password.value)]
    ensures r.after.hasClient == st.hasClient && r.after.baseUrl == st.baseUrl
    ensures login.LoginOk? ==>
      r.after == st.(accessToken := Some(login.access), refreshToken := Some(login.refresh))
    ensures login.LoginFailed? ==> r.after == st
  {
    var call := LoginCall(cfg.username.value, cfg.password.value);
    match login
    case LoginOk(access, refresh) => Step(st.(accessToken := Some(access), refreshToken := Some(refresh)), [call])
    case LoginFailed => Step(st, [call])
  }

  /** `init_r2r_client`. */
  function InitStep(st: SessionState, cfg: Config, login: LoginOutcome): (r: Step)
    ensures st.hasClient ==> r == Step(st, [])
    ensures r.after.hasClient
    ensures !st.hasClient ==> r.after.baseUrl == BaseUrl(cfg)
    ensures forall e :: e in r.issued ==> e.LoginCall?
    ensures Refreshes(r.issued) == 0
    ensures Logins(r.issued) == (if !st.hasClient && CredentialsConfigured(cfg) then 1 else 0)
    ensures !st.hasClient ==>
      (r.issued == if CredentialsConfigured(cfg) then [LoginCall(cfg.username.value, cfg.password.value)] else [])
    ensures !st.hasClient ==>
      (r.after.accessToken == if CredentialsConfigured(cfg) && login.LoginOk? then Some(login.access) else None)
    ensures !st.hasClient ==>
      (r.after.refreshToken == if CredentialsConfigured(cfg) && login.LoginOk? then Some(login.refresh) else None)
  {
    if st.hasClient then Step(st, [])
    else
      var created := SessionState(true, BaseUrl(cfg), None, None);
      if CredentialsConfigured(cfg) then LoginStep(created, cfg, login) else Step(created, [])
  }

  /** `check_login`, with one reading `now` of the clock for the whole call. */
  function CheckLoginStep(st: SessionState, cfg: Config, now: int, login: LoginOutcome, refresh: RefreshOutcome): (r: Step)
    ensures r.after.hasClient
    ensures forall e :: e in r.issued ==> e.LoginCall? || e.RefreshCall?
    ensures Logins(r.issued) <= 1 && Refreshes(r.issued) <= 1
    ensures Refreshes(r.issued) == 1 ==>
      st.hasClient && CredentialsConfigured(cfg) &&
      !VerifyExpiration(st.accessToken, now) && VerifyExpiration(st.refreshToken, now)
    ensures Refreshes(r.issued) == 1 && refresh.RefreshOk? ==> Logins(r.issued) == 0
    ensures st.hasClient && !CredentialsConfigured(cfg) ==> r == Step(st, [])
  {
    if !st.hasClient then InitStep(st, cfg, login)
    else if !CredentialsConfigured(cfg) then Step(st, [])
    else if st.accessToken.Some? && VerifyExpiration(st.accessToken, now) then Step(st, [])
    else if st.refreshToken.Some? && VerifyExpiration(st.refreshToken, now) then
      var call := RefreshCall(st.refreshToken.value);
      match refresh
      case RefreshOk(access, rt) =>
        Step(st.(accessToken := Some(access), refreshToken := Some(rt)), [call])
      case RefreshFailed =>
        var relogin := LoginStep(st, cfg, login);
        assert Logins([call] + relogin.issued) == Logins(relogin.issued);
        assert Refreshes([call] + relogin.issued) == 1 + Refreshes(relogin.issued);
        Step(relogin.after, [call] + relogin.issued)
    else LoginStep(st, cfg, login)
  }

  /** Without a client, `check_login` initialises and returns: no token check, no refresh,
      and no login beyond the one `init_r2r_client` may issue. */
  lemma NoClientOnlyInitializes(st: SessionState, cfg: Config, now: int, login: LoginOutcome, refresh: RefreshOutcome)
    requires !st.hasClient
    ensures CheckLoginStep(st, cfg, now, login, refresh) == InitStep(st, cfg, login)
    ensures Refreshes(CheckLoginStep(st, cfg, now, login, refresh).issued) == 0
  {
  }

  /** With a client and a still-valid access token, nothing is issued and nothing changes. */
  lemma ValidAccessTokenIsNoOp(st: SessionState, cfg: Config, now: int, login: LoginOutcome, refresh: RefreshOutcome)
    requires st.hasClient && VerifyExpiration(st.accessToken, now)
    ensures CheckLoginStep(st, cfg, now, login, refresh) == Step(st, [])
  {
  }

  /** A refresh that succeeds is the only exchange of the call, and installs its tokens. */
  lemma SuccessfulRefreshSkipsLogin(st: SessionState, cfg: Config, now: int, login: LoginOutcome, access: Token, rt: Token)
    requires st.hasClient && CredentialsConfigured(cfg)
    requires !VerifyExpiration(st.accessToken, now) && VerifyExpiration(st.refreshToken, now)
    ensures CheckLoginStep(st, cfg, now, login, RefreshOk(access, rt)) ==
      Step(st.(accessToken := Some(access), refreshToken := Some(rt)), [RefreshCall(st.refreshToken.value)])
  {
  }

  /** When the access token is unusable and the refresh token is unusable or its exchange fails,
      the call ends with exactly one login with the configured credentials; its outcome alone
      decides the new tokens. */
  lemma FallbackIsExactlyOneLogin(st: SessionState, cfg: Config, now: int, login: LoginOutcome, refresh: RefreshOutcome)
    requires st.hasClient && CredentialsConfigured(cfg)
    requires !VerifyExpiration(st.accessToken, now)
    requires !VerifyExpiration(st.refreshToken, now) || refresh.RefreshFailed?
    ensures var r := CheckLoginStep(st, cfg, now, login, refresh);
      Logins(r.issued) == 1 &&
      r.issued[|r.issued| - 1] == LoginCall(cfg.username.value, cfg.password.value) &&
      r.after == LoginStep(st, cfg, login).after &&
      (Refreshes(r.issued) == 1 <==> VerifyExpiration(st.refreshToken, now)) &&
      (VerifyExpiration(st.refreshToken, now) ==>
        r.issued == [RefreshCall(st.refreshToken.value), LoginCall(cfg.username.value, cfg.password.value)])
  {
  }

  /** A renewal sticks: when the call has to renew (no client yet, or an unusable access token)
      and whichever exchange renews it succeeds with access token `access`, that token is
      installed, and while it is still valid at a later call, that call issues nothing. */
  lemma RenewedSessionNeedsNothingMore(
    st: SessionState, cfg: Config, now: int, access: Token, rt: Token, refreshSucceeds: bool,
    later: int, login2: LoginOutcome, refresh2: RefreshOutcome)
    requires CredentialsConfigured(cfg)
    requires !st.hasClient || !VerifyExpiration(st.accessToken, now)
    requires VerifyExpiration(Some(access), later)
    ensures var refresh := if refreshSucceeds then RefreshOk(access, rt) else RefreshFailed;
      var r := CheckLoginStep(st, cfg, now, LoginOk(access, rt), refresh);
      r.issued != [] && r.after.accessToken == Some(access) &&
      CheckLoginStep(r.after, cfg, later, login2, refresh2) == Step(r.after, [])
  {
  }

  /** The client handle. Its fields are the global `r2r_client` and the token state the R2R
      client keeps; `log` records every exchange issued through it. */
  class Session {
    var hasClient: bool
    var baseUrl: string
    var accessToken: Option<Token>
    var refreshToken: Option<Token>
    ghost var log: seq<Exchange>

    function State(): SessionState
      reads this
    {
      SessionState(hasClient, baseUrl, accessToken, refreshToken)
    }

    /** Module load: `r2r_client = None`. */
    constructor ()
      ensures !hasClient && accessToken.None? && refreshToken.None? && log == []
    {
      hasClient := false;
      baseUrl := "";
      accessToken := None;
      refreshToken := None;
      log := [];
    }

    method Login(cfg: Config, login: LoginOutcome)
      requires CredentialsConfigured(cfg) && hasClient
      modifies this
      ensures var r := LoginStep(old(State()), cfg, login);
        State() == r.after && log == old(log) + r.issued
    {
      log := log + [LoginCall(cfg.username.value, cfg.password.value)];
      match login
      case LoginOk(access, refresh) =>
        accessToken := Some(access);
        refreshToken := Some(refresh);
      case LoginFailed =>
    }

    /** `init_r2r_client`. */
    method Init(cfg: Config, login: LoginOutcome)
      modifies this
      ensures hasClient
      ensures var r := InitStep(old(State()), cfg, login);
        State() == r.after && log == old(log) + r.issued
    {
      if !hasClient {
        hasClient := true;
        baseUrl := BaseUrl(cfg);
        accessToken := None;
        refreshToken := None;
        if CredentialsConfigured(cfg) {
          Login(cfg, login);
        }
      }
    }

    /** `check_login`. */
    method CheckLogin(cfg: Config, now: int, login: LoginOutcome, refresh: RefreshOutcome)
      modifies this
      ensures hasClient
      ensures var r := CheckLoginStep(old(State()), cfg, now, login, refresh);
        State() == r.after && log == old(log) + r.issued
    {
      if !hasClient {
        Init(cfg, login);
        return;
      }
      if !CredentialsConfigured(cfg) {
        return;
      }
      if accessToken.Some? && VerifyExpiration(accessToken, now) {
        return;
      }
      if refreshToken.Some? && VerifyExpiration(refreshToken, now) {
        log := log + [RefreshCall(refreshToken.value)];
        match refresh
        case RefreshOk(access, rt) =>
          accessToken := Some(access);
          refreshToken := Some(rt);
          return;
        case RefreshFailed =>
      }
      Login(cfg, login);
    }
  }
}
