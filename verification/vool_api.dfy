/** The Vool API client of vool_api.py: one client per device, holding the
    account credentials, the last bearer token obtained from the login
    endpoint and a persistent transport session for status queries.

    The network is abstract: each HTTP exchange is an `Exchange` input (the
    reply, or the transport error raised instead), JWT decoding is a function
    `jwt` from a token to the claims it yields, and the clock is an integer
    `now`. The class `VoolApi` is specified by the pure functions `AuthToken`,
    `Authenticated` and `StatusCall`, and the ghost field `sent` records the
    requests the client has put on the wire. */
module Api {
  import opened Common
  import opened Payload

  const LoginUrl: string := "https://api.vool.com/v2/auth/login"

  /** The per-device status endpoint. */
  function StatusUrl(deviceId: string): string {
    "https://api.vool.com/v2/devices/" + deviceId + "/status"
  }

  /** The `Authorization` header of a bearer-token request (RFC 6750, section 2.1). */
  function BearerAuthorization(token: string): string {
    "Bearer " + token
  }

  /** What decoding a token without checking its signature yields: a decode
      error, a payload without an `exp` claim (RFC 7519, section 4.1.4), or
      the claim's value in seconds since the epoch. */
  datatype Claims = DecodeFailed | NoExp | Exp(exp: int)

  /** A reply of the login endpoint: its HTTP status and the body's `token`
      field (`None` when absent or null). */
  datatype LoginReply = LoginReply(status: int, token: Option<string>)

  /** A reply of the status endpoint: its HTTP status and its JSON body. */
  datatype StatusReply = StatusReply(status: int, body: StatusBody)

  /** A request put on the wire. */
  datatype Request =
    | Login(url: string, email: string, password: string)
    | StatusQuery(url: string, authorization: string)

  /** What a client is constructed with. */
  datatype ClientConfig = ClientConfig(email: string, password: string, deviceId: string)

  function LoginRequest(cfg: ClientConfig): Request {
    Login(LoginUrl, cfg.email, cfg.password)
  }

  function StatusRequest(cfg: ClientConfig, token: string): Request {
    StatusQuery(StatusUrl(cfg.deviceId), BearerAuthorization(token))
  }

  /** The stored token is truthy: present and not the empty string. */
  predicate HasToken(token: Option<string>) {
    token.Some? && token.value != ""
  }

  /** `is_token_expired`: a falsy token, an undecodable one, or one whose
      `exp` claim is missing or zero counts as expired; otherwise the token
      expires strictly after `exp`. */
  function IsTokenExpired(token: Option<string>, jwt: string -> Claims, now: int): (expired: bool)
    ensures !HasToken(token) ==> expired
    ensures !expired <==>
      HasToken(token) && jwt(token.value).Exp? && jwt(token.value).exp != 0 && now <= jwt(token.value).exp
  {
    if !HasToken(token) then true
    else match jwt(token.value)
      case DecodeFailed => true
      case NoExp => true
      case Exp(exp) => if exp != 0 then now > exp else true
  }

  /** Once expired, a token stays expired as time goes on. */
  lemma ExpiryIsMonotone(token: Option<string>, jwt: string -> Claims, now: int, later: int)
    requires now <= later && IsTokenExpired(token, jwt, now)
    ensures IsTokenExpired(token, jwt, later)
  {
  }

  /** The observable state of a client: its stored token and whether its
      persistent session exists. */
  datatype ClientState = ClientState(token: Option<string>, sessionOpen: bool)

  /** Effect of one `get_auth_token` call: the token stored afterwards and
      what the call produced. */
  datatype LoginEffect = LoginEffect(token: Option<string>, result: Outcome<Option<string>>)

  /** `get_auth_token` on a client holding `token`, when the login exchange
      goes as `login` says. */
  function AuthToken(token: Option<string>, login: Exchange<LoginReply>): (e: LoginEffect)
    ensures e.result.Raise? <==> login.Failed?
    ensures login.Failed? ==> e == LoginEffect(token, Raise(Failure(login.message)))
    ensures login.Replied? && login.reply.status == 200 ==>
      e.token == login.reply.token && e.result == Return(login.reply.token)
    ensures login.Replied? && login.reply.status != 200 ==> e == LoginEffect(token, Return(None))
    ensures e.token != token ==> login.Replied? && login.reply.status == 200
    ensures e.result.Return? && e.result.value.Some? ==> e.token == e.result.value
  {
    match login
    case Failed(message) => LoginEffect(token, Raise(Failure(message)))
    case Replied(reply) =>
      if reply.status == 200 then LoginEffect(reply.token, Return(reply.token))
      else LoginEffect(token, Return(None))
  }

  /** `authenticate`: whether `get_auth_token` returned a token other than
      `None`. An empty token counts as obtained. */
  function Authenticated(login: Exchange<LoginReply>): (r: Outcome<bool>)
    ensures r == Return(true) <==> login.Replied? && login.reply.status == 200 && login.reply.token.Some?
    ensures r.Raise? <==> login.Failed?
    ensures login.Failed? ==> r == Raise(Failure(login.message))
  {
    match AuthToken(None, login).result
    case Raise(err) => Raise(err)
    case Return(token) => Return(token.Some?)
  }

  /** Effect of one `get_device_status` call: the client state afterwards,
      what the call produced, and the requests it sent, in order. */
  datatype StatusEffect = StatusEffect(state: ClientState, result: Outcome<Option<StatusBody>>, sent: seq<Request>)
  {
    /** The call reached the authenticated GET. */
    predicate Queried() {
      |sent| > 0 && sent[|sent| - 1].StatusQuery?
    }
  }

  /** The part of `get_device_status` after the token check: skip when no
      truthy token remains, otherwise open the persistent session if needed
      and send the GET. */
  function Query(cfg: ClientConfig, st: ClientState, status: Exchange<StatusReply>): StatusEffect {
    if !HasToken(st.token) then StatusEffect(st, Return(None), [])
    else
      var result := match status
        case Failed(message) => Raise(Failure(message))
        case Replied(reply) => Return(if reply.status == 200 then Some(reply.body) else None);
      StatusEffect(ClientState(st.token, true), result, [StatusRequest(cfg, st.token.value)])
  }

  /** `get_device_status` on a client in state `st` at time `now`, when the
      login exchange (if one is made) goes as `login` and the status
      exchange (if one is made) goes as `status`. */
  function StatusCall(cfg: ClientConfig, st: ClientState, now: int, jwt: string -> Claims,
                      login: Exchange<LoginReply>, status: Exchange<StatusReply>): (e: StatusEffect)
    // a login is sent exactly when the stored token is expired, and first
    ensures IsTokenExpired(st.token, jwt, now) <==> |e.sent| > 0 && e.sent[0].Login?
    ensures IsTokenExpired(st.token, jwt, now) ==> e.sent[0] == LoginRequest(cfg)
    // one login when expired, one GET when it goes out, nothing else
    ensures |e.sent| <= 2 && forall i | 0 < i < |e.sent| :: e.sent[i].StatusQuery?
    ensures |e.sent| == (if IsTokenExpired(st.token, jwt, now) then 1 else 0) + (if e.Queried() then 1 else 0)
    // the GET goes out exactly when a truthy token remains and the login did not raise
    ensures e.Queried() <==> HasToken(e.state.token) && !(IsTokenExpired(st.token, jwt, now) && login.Failed?)
    ensures e.Queried() ==> e.sent[|e.sent| - 1] == StatusRequest(cfg, e.state.token.value)
    // only a re-login stores a token, and it stores what `get_auth_token` does
    ensures e.state.token == if IsTokenExpired(st.token, jwt, now) then AuthToken(st.token, login).token else st.token
    ensures e.state.token != st.token ==>
      IsTokenExpired(st.token, jwt, now) && login.Replied? && login.reply.status == 200
    // the session is created by the first GET and never dropped
    ensures e.state.sessionOpen == (st.sessionOpen || e.Queried())
    // results
    ensures !e.Queried() && e.result.Return? ==> e.result.value == None
    // no GET and no raising login: the call returns None
    ensures !e.Queried() && !(IsTokenExpired(st.token, jwt, now) && login.Failed?) ==> e.result == Return(None)
    ensures e.Queried() && status.Replied? ==>
      e.result == Return(if status.reply.status == 200 then Some(status.reply.body) else None)
    ensures e.result.Return? && e.result.value.Some? ==>
      status.Replied? && status.reply.status == 200 && e.result.value.value == status.reply.body
    // a transport error from the login or the GET propagates
    ensures IsTokenExpired(st.token, jwt, now) && login.Failed? ==> e.result == Raise(Failure(login.message))
    ensures e.Queried() && status.Failed? ==> e.result == Raise(Failure(status.message))
    ensures e.result.Raise? ==> e.result.error.Failure?
  {
    if IsTokenExpired(st.token, jwt, now) then
      var relogin := AuthToken(st.token, login);
      var after := ClientState(relogin.token, st.sessionOpen);
      if relogin.result.Raise? then
        StatusEffect(after, Raise(relogin.result.error), [LoginRequest(cfg)])
      else
        var q := Query(cfg, after, status);
        StatusEffect(q.state, q.result, [LoginRequest(cfg)] + q.sent)
    else
      Query(cfg, st, status)
  }

  /** A token the client still holds that has not expired is reused: no
      login, and the GET carries it. */
  lemma FreshTokenIsReused(cfg: ClientConfig, st: ClientState, now: int, jwt: string -> Claims,
                           login: Exchange<LoginReply>, status: Exchange<StatusReply>)
    requires !IsTokenExpired(st.token, jwt, now)
    ensures StatusCall(cfg, st, now, jwt, login, status).sent == [StatusRequest(cfg, st.token.value)]
  {
  }

  /** A failed re-login keeps the stale token, and the GET still goes out
      carrying it. */
  lemma StaleTokenSurvivesFailedLogin(cfg: ClientConfig, st: ClientState, now: int, jwt: string -> Claims,
                                      login: Exchange<LoginReply>, status: Exchange<StatusReply>)
    requires HasToken(st.token) && IsTokenExpired(st.token, jwt, now)
    requires login.Replied? && login.reply.status != 200
    ensures StatusCall(cfg, st, now, jwt, login, status).state.token == st.token
    ensures StatusCall(cfg, st, now, jwt, login, status).sent ==
      [LoginRequest(cfg), StatusRequest(cfg, st.token.value)]
  {
  }

  /** A login that yields an empty token authenticates, yet a status call
      holding it skips the GET. */
  lemma EmptyTokenAuthenticatesButIsUnusable(cfg: ClientConfig, sessionOpen: bool, now: int,
                                             jwt: string -> Claims, status: Exchange<StatusReply>)
    ensures Authenticated(Replied(LoginReply(200, Some("")))) == Return(true)
    ensures StatusCall(cfg, ClientState(None, sessionOpen), now, jwt,
                         Replied(LoginReply(200, Some(""))), status).result == Return(None)
  {
  }

  /** Inputs of one status poll. */
  datatype Poll = Poll(now: int, login: Exchange<LoginReply>, status: Exchange<StatusReply>)

  /** A run of status calls with no `close` in between: the final state, how
      many persistent sessions were created and every request sent. */
  datatype PollRun = PollRun(state: ClientState, sessionsOpened: nat, sent: seq<Request>)

  function RunPolls(cfg: ClientConfig, st: ClientState, jwt: string -> Claims, polls: seq<Poll>): PollRun
    decreases |polls|
  {
    if polls == [] then PollRun(st, 0, [])
    else
      var e := StatusCall(cfg, st, polls[0].now, jwt, polls[0].login, polls[0].status);
      var rest := RunPolls(cfg, e.state, jwt, polls[1..]);
      PollRun(rest.state, rest.sessionsOpened + (if !st.sessionOpen && e.state.sessionOpen then 1 else 0),
              e.sent + rest.sent)
  }

  /** The persistent session is created at most once and then reused: a run
      creates one session exactly when it starts without one and ends with
      one, and never drops an open session. */
  lemma {:induction false} RunOpensAtMostOneSession(cfg: ClientConfig, st: ClientState,
                                                    jwt: string -> Claims, polls: seq<Poll>)
    ensures st.sessionOpen ==> RunPolls(cfg, st, jwt, polls).state.sessionOpen
    ensures RunPolls(cfg, st, jwt, polls).sessionsOpened ==
      (if !st.sessionOpen && RunPolls(cfg, st, jwt, polls).state.sessionOpen then 1 else 0)
    decreases |polls|
  {
    if polls != [] {
      var e := StatusCall(cfg, st, polls[0].now, jwt, polls[0].login, polls[0].status);
      RunOpensAtMostOneSession(cfg, e.state, jwt, polls[1..]);
    }
  }

  /** A transport session (`aiohttp.ClientSession`). */
  class Session {
    var closed: bool

    constructor ()
      ensures !closed
    {
      closed := false;
    }

    method Close()
      modifies this
      ensures closed
    {
      closed := true;
    }
  }

  /** `VoolAPI`. */
  class VoolApi {
    const email: string
    const password: string
    const deviceId: string
    var token: Option<string>
    var session: Session?
    /** Every request this client has sent, oldest first. */
    ghost var sent: seq<Request>

    function Config(): ClientConfig {
      ClientConfig(email, password, deviceId)
    }

    function State(): ClientState
      reads this
    {
      ClientState(token, session != null)
    }

    /** A stored session is one that has not been closed. */
    ghost predicate Valid()
      reads this, session
    {
      session != null ==> !session.closed
    }

    constructor (email: string, password: string, deviceId: string)
      ensures Valid()
      ensures Config() == ClientConfig(email, password, deviceId)
      ensures token == None && session == null && sent == []
    {
      this.email := email;
      this.password := password;
      this.deviceId := deviceId;
      token := None;
      session := null;
      sent := [];
    }

    /** `get_auth_token`: one POST through a short-lived session of its own;
        the persistent session is left alone. */
    method GetAuthToken(login: Exchange<LoginReply>) returns (r: Outcome<Option<string>>)
      modifies this`token, this`sent
      ensures token == AuthToken(old(token), login).token
      ensures r == AuthToken(old(token), login).result
      ensures sent == old(sent) + [LoginRequest(Config())]
    {
      var transport := new Session();
      sent := sent + [LoginRequest(Config())];
      match login {
        case Failed(message) =>
          r := Raise(Failure(message));
        case Replied(reply) =>
          if reply.status == 200 {
            token := reply.token;
            r := Return(token);
          } else {
            r := Return(None);
          }
      }
      transport.Close();
    }

    /** `authenticate`. */
    method Authenticate(login: Exchange<LoginReply>) returns (r: Outcome<bool>)
      modifies this`token, this`sent
      ensures r == Authenticated(login)
      ensures token == AuthToken(old(token), login).token
      ensures sent == old(sent) + [LoginRequest(Config())]
    {
      var obtained := GetAuthToken(login);
      match obtained {
        case Raise(err) => r := Raise(err);
        case Return(t) => r := Return(t.Some?);
      }
    }

    /** `get_device_status`: re-authenticates at most once, then queries the
        status endpoint through the persistent session, creating it on first
        use. */
    method GetDeviceStatus(now: int, jwt: string -> Claims, login: Exchange<LoginReply>,
                           status: Exchange<StatusReply>) returns (r: Outcome<Option<StatusBody>>)
      requires Valid()
      modifies this
      ensures Valid()
      ensures State() == StatusCall(Config(), old(State()), now, jwt, login, status).state
      ensures r == StatusCall(Config(), old(State()), now, jwt, login, status).result
      ensures sent == old(sent) + StatusCall(Config(), old(State()), now, jwt, login, status).sent
      ensures old(session) != null ==> session == old(session)
      ensures old(session) == null && session != null ==> fresh(session)
    {
      if IsTokenExpired(token, jwt, now) {
        var relogin := GetAuthToken(login);
        if relogin.Raise? {
          return Raise(relogin.error);
        }
      }
      if !HasToken(token) {
        return Return(None);
      }
      var query := StatusRequest(Config(), token.value);
      if session == null {
        session := new Session();
      }
      sent := sent + [query];
      match status {
        case Failed(message) =>
          r := Raise(Failure(message));
        case Replied(reply) =>
          r := Return(if reply.status == 200 then Some(reply.body) else None);
      }
    }

    /** `close`: closes the persistent session if there is one and forgets
        it; a second call changes nothing. */
    method Close()
      requires Valid()
      modifies this`session, session
      ensures Valid() && session == null
      ensures old(session) != null ==> old(session).closed
      ensures old(session) == null ==> unchanged(this)
    {
      if session != null {
        session.Close();
        session := null;
      }
    }
  }
}
