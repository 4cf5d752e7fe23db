/** The setup flow of config_flow.py: the user form, validation by logging in
    once for each of the two devices, and the mapping of what went wrong to a
    single error code shown on the form. */
module ConfigFlow {
  import opened Common
  import Api

  const EmailKey: string := "email"
  const PasswordKey: string := "password"
  const LmcDeviceIdKey: string := "lmc_device_id"
  const WallboxDeviceIdKey: string := "wallbox_device_id"
  const ScanIntervalKey: string := "scan_interval"

  /** Poll interval, in seconds, when the user leaves it out. */
  const DefaultScanInterval: int := 300

  /** The form as submitted: every field may be missing. */
  datatype FormInput = FormInput(email: Option<string>, password: Option<string>,
                                 lmcDeviceId: Option<string>, wallboxDeviceId: Option<string>,
                                 scanInterval: Option<int>)

  /** The form after the schema: four required texts and the interval. */
  datatype UserInput = UserInput(email: string, password: string, lmcDeviceId: string,
                                 wallboxDeviceId: string, scanInterval: int)

  /** `STEP_USER_DATA_SCHEMA`: the four text fields are required and the
      interval defaults to 300 seconds. */
  function ApplySchema(form: FormInput): (r: Option<UserInput>)
    ensures r.Some? <==>
      form.email.Some? && form.password.Some? && form.lmcDeviceId.Some? && form.wallboxDeviceId.Some?
    ensures r.Some? ==>
      && r.value.email == form.email.value && r.value.password == form.password.value
      && r.value.lmcDeviceId == form.lmcDeviceId.value && r.value.wallboxDeviceId == form.wallboxDeviceId.value
      && r.value.scanInterval == (if form.scanInterval.Some? then form.scanInterval.value else DefaultScanInterval)
  {
    match (form.email, form.password, form.lmcDeviceId, form.wallboxDeviceId)
    case (Some(email), Some(password), Some(lmc), Some(wallbox)) =>
      Some(UserInput(email, password, lmc, wallbox, form.scanInterval.GetOr(DefaultScanInterval)))
    case _ => None
  }

  /** The user input as the dictionary stored in the configuration entry. */
  function EntryData(input: UserInput): map<string, Value> {
    map[EmailKey := Text(input.email),
        PasswordKey := Text(input.password),
        LmcDeviceIdKey := Text(input.lmcDeviceId),
        WallboxDeviceIdKey := Text(input.wallboxDeviceId),
        ScanIntervalKey := Number(input.scanInterval)]
  }

  /** The entry dictionary keeps every field of the input under its own key. */
  lemma EntryDataKeepsInput(input: UserInput)
    ensures EntryData(input).Keys == {EmailKey, PasswordKey, LmcDeviceIdKey, WallboxDeviceIdKey, ScanIntervalKey}
    ensures EntryData(input)[EmailKey] == Text(input.email)
    ensures EntryData(input)[PasswordKey] == Text(input.password)
    ensures EntryData(input)[LmcDeviceIdKey] == Text(input.lmcDeviceId)
    ensures EntryData(input)[WallboxDeviceIdKey] == Text(input.wallboxDeviceId)
    ensures EntryData(input)[ScanIntervalKey] == Number(input.scanInterval)
  {
  }

  /** Why setup failed: the flow's own `CannotConnect` and `InvalidAuth`, or
      any other exception that escaped validation. */
  datatype SetupError = CannotConnect | InvalidAuth | Unexpected(raised: Error)

  /** The two clients validation builds. */
  datatype Role = Lmc | Wallbox

  /** What `validate_input` did: the entry title it returned or the error it
      raised, and which clients it asked to authenticate, in order. */
  datatype SetupResult =
    | Valid(title: string, asked: seq<Role>)
    | Invalid(error: SetupError, asked: seq<Role>)

  function Title(input: UserInput): string {
    "Vool LMC " + input.lmcDeviceId + " and Wallbox " + input.wallboxDeviceId
  }

  /** The client `validate_input` builds for each role. */
  function ClientFor(input: UserInput, role: Role): Api.ClientConfig {
    Api.ClientConfig(input.email, input.password,
                     if role == Lmc then input.lmcDeviceId else input.wallboxDeviceId)
  }

  /** The login payload carries no device id: both clients send the same
      login request. */
  lemma BothClientsSendTheSameLogin(input: UserInput)
    ensures Api.LoginRequest(ClientFor(input, Lmc)) == Api.LoginRequest(ClientFor(input, Wallbox))
  {
  }

  /** `validate_input`: authenticate the LMC client and, only if that
      succeeds, the Wallbox client; `lmcLogin` and `wallboxLogin` are the two
      login exchanges. */
  function ValidateInput(input: UserInput, lmcLogin: Exchange<Api.LoginReply>,
                         wallboxLogin: Exchange<Api.LoginReply>): (v: SetupResult)
    ensures v.Valid? <==>
      Api.Authenticated(lmcLogin) == Return(true) && Api.Authenticated(wallboxLogin) == Return(true)
    ensures v.Valid? ==> v.title == Title(input)
    ensures v.asked == if Api.Authenticated(lmcLogin) == Return(true) then [Lmc, Wallbox] else [Lmc]
    ensures v.Invalid? ==> v.error != CannotConnect
    ensures lmcLogin.Failed? ==> v == Invalid(Unexpected(Failure(lmcLogin.message)), [Lmc])
    ensures Api.Authenticated(lmcLogin) == Return(true) && wallboxLogin.Failed? ==>
      v == Invalid(Unexpected(Failure(wallboxLogin.message)), [Lmc, Wallbox])
    ensures v.Invalid? && v.error.Unexpected? ==> lmcLogin.Failed? || wallboxLogin.Failed?
    ensures v.Invalid? && v.error == SetupError.InvalidAuth <==>
      (lmcLogin.Replied? && Api.Authenticated(lmcLogin) != Return(true))
      || (Api.Authenticated(lmcLogin) == Return(true) && wallboxLogin.Replied?
          && Api.Authenticated(wallboxLogin) != Return(true))
  {
    match Api.Authenticated(lmcLogin)
    case Raise(err) => Invalid(Unexpected(err), [Lmc])
    case Return(false) => Invalid(SetupError.InvalidAuth, [Lmc])
    case Return(true) =>
      match Api.Authenticated(wallboxLogin)
      case Raise(err) => Invalid(Unexpected(err), [Lmc, Wallbox])
      case Return(false) => Invalid(SetupError.InvalidAuth, [Lmc, Wallbox])
      case Return(true) => Valid(Title(input), [Lmc, Wallbox])
  }

  /** The value written under `errors["base"]` for each kind of failure. */
  function ErrorCode(error: SetupError): (code: string)
    ensures code in {"cannot_connect", "invalid_auth", "unknown"}
    ensures code == "cannot_connect" <==> error == CannotConnect
    ensures code == "invalid_auth" <==> error == SetupError.InvalidAuth
    ensures code == "unknown" <==> error.Unexpected?
  {
    match error
    case CannotConnect => "cannot_connect"
    case InvalidAuth => "invalid_auth"
    case Unexpected(_) => "unknown"
  }

  /** What the flow step hands back: the form, with its error map, or a new
      configuration entry. */
  datatype FlowResult =
    | ShowForm(errors: map<string, string>)
    | CreateEntry(title: string, data: map<string, Value>)

  /** `ConfigFlow.async_step_user`: without input show the empty form; with
      input validate it and either create the entry or show the form again
      with exactly one error under `"base"`. */
  function StepUser(userInput: Option<UserInput>, lmcLogin: Exchange<Api.LoginReply>,
                    wallboxLogin: Exchange<Api.LoginReply>): (r: FlowResult)
    ensures userInput.None? ==> r == ShowForm(map[])
    ensures r.CreateEntry? <==>
      userInput.Some? && Api.Authenticated(lmcLogin) == Return(true)
      && Api.Authenticated(wallboxLogin) == Return(true)
    ensures r.CreateEntry? ==> r.title == Title(userInput.value) && r.data == EntryData(userInput.value)
    ensures userInput.Some? && r.ShowForm? ==>
      r.errors == map["base" := ErrorCode(ValidateInput(userInput.value, lmcLogin, wallboxLogin).error)]
    ensures userInput.Some? && r.ShowForm? ==> r.errors["base"] in {"invalid_auth", "unknown"}
  {
    match userInput
    case None => ShowForm(map[])
    case Some(input) =>
      match ValidateInput(input, lmcLogin, wallboxLogin)
      case Valid(title, _) => CreateEntry(title, EntryData(input))
      case Invalid(error, _) => ShowForm(map["base" := ErrorCode(error)])
  }

  /** A transport error while authenticating either client is reported as
      `unknown`, never as `cannot_connect`. */
  lemma NetworkErrorIsUnknown(input: UserInput, lmcLogin: Exchange<Api.LoginReply>,
                              wallboxLogin: Exchange<Api.LoginReply>)
    requires lmcLogin.Failed? || (Api.Authenticated(lmcLogin) == Return(true) && wallboxLogin.Failed?)
    ensures StepUser(Some(input), lmcLogin, wallboxLogin) == ShowForm(map["base" := "unknown"])
  {
  }

  /** When the LMC login is refused, the Wallbox client is never asked and
      the form reports `invalid_auth`. */
  lemma LmcRefusalSkipsWallbox(input: UserInput, lmcLogin: Exchange<Api.LoginReply>,
                               wallboxLogin: Exchange<Api.LoginReply>)
    requires lmcLogin.Replied? && (lmcLogin.reply.status != 200 || lmcLogin.reply.token.None?)
    ensures ValidateInput(input, lmcLogin, wallboxLogin).asked == [Lmc]
    ensures StepUser(Some(input), lmcLogin, wallboxLogin) == ShowForm(map["base" := "invalid_auth"])
  {
  }

  /** When the LMC login succeeds but the Wallbox login is refused, both
      clients were asked and the form reports `invalid_auth`. */
  lemma WallboxRefusalIsInvalidAuth(input: UserInput, lmcLogin: Exchange<Api.LoginReply>,
                                    wallboxLogin: Exchange<Api.LoginReply>)
    requires Api.Authenticated(lmcLogin) == Return(true)
    requires wallboxLogin.Replied? && (wallboxLogin.reply.status != 200 || wallboxLogin.reply.token.None?)
    ensures ValidateInput(input, lmcLogin, wallboxLogin) == Invalid(SetupError.InvalidAuth, [Lmc, Wallbox])
    ensures StepUser(Some(input), lmcLogin, wallboxLogin) == ShowForm(map["base" := "invalid_auth"])
  {
  }
}
