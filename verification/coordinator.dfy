/** The update coordinator of coordinator.py: built from a configuration
    entry, it wraps one API client and turns each status fetch into the data
    published to the sensors, an authentication failure, or an update
    failure. */
module Coordinator {
  import opened Common
  import opened Payload
  import Api
  import ConfigFlow

  /** The entry key the coordinator reads the device id from. */
  const DeviceIdKey: string := "device_id"

  /** What every update-failure message starts with. */
  const ErrorPrefix: string := "Error communicating with API: "

  /** A constructed coordinator: the client it wraps and its update interval
      in seconds. */
  datatype CoordinatorSetup = CoordinatorSetup(client: Api.ClientConfig, updateInterval: int)

  /** What `VoolCoordinator.__init__` did: a coordinator, or the `KeyError`
      (missing key) or type error (value of the wrong kind) it raised. */
  datatype Construction = Built(setup: CoordinatorSetup) | MissingKey(key: string) | WrongType(key: string)

  /** `VoolCoordinator.__init__`: build the client from the entry's `email`,
      `password` and `device_id` (looked up in that order) and take the
      update interval from its scan interval. */
  function NewCoordinator(data: map<string, Value>): (c: Construction)
    ensures c.Built? <==>
      && ConfigFlow.EmailKey in data && data[ConfigFlow.EmailKey].Text?
      && ConfigFlow.PasswordKey in data && data[ConfigFlow.PasswordKey].Text?
      && DeviceIdKey in data && data[DeviceIdKey].Text?
      && ConfigFlow.ScanIntervalKey in data && data[ConfigFlow.ScanIntervalKey].Number?
    ensures c.Built? ==>
      && c.setup.client == Api.ClientConfig(data[ConfigFlow.EmailKey].text, data[ConfigFlow.PasswordKey].text,
                                            data[DeviceIdKey].text)
      && c.setup.updateInterval == data[ConfigFlow.ScanIntervalKey].number
    // the key named is the first lookup that fails: email, password, device_id, then scan_interval
    ensures c == MissingKey(ConfigFlow.EmailKey) <==> ConfigFlow.EmailKey !in data
    ensures c == MissingKey(ConfigFlow.PasswordKey) <==>
      ConfigFlow.EmailKey in data && ConfigFlow.PasswordKey !in data
    ensures c == MissingKey(DeviceIdKey) <==>
      ConfigFlow.EmailKey in data && ConfigFlow.PasswordKey in data && DeviceIdKey !in data
    ensures c == MissingKey(ConfigFlow.ScanIntervalKey) <==>
      && ConfigFlow.EmailKey in data && data[ConfigFlow.EmailKey].Text?
      && ConfigFlow.PasswordKey in data && data[ConfigFlow.PasswordKey].Text?
      && DeviceIdKey in data && data[DeviceIdKey].Text?
      && ConfigFlow.ScanIntervalKey !in data
    ensures c.MissingKey? ==>
      c.key !in data && c.key in {ConfigFlow.EmailKey, ConfigFlow.PasswordKey, DeviceIdKey, ConfigFlow.ScanIntervalKey}
  {
    if ConfigFlow.EmailKey !in data then MissingKey(ConfigFlow.EmailKey)
    else if ConfigFlow.PasswordKey !in data then MissingKey(ConfigFlow.PasswordKey)
    else if DeviceIdKey !in data then MissingKey(DeviceIdKey)
    else if !data[ConfigFlow.EmailKey].Text? then WrongType(ConfigFlow.EmailKey)
    else if !data[ConfigFlow.PasswordKey].Text? then WrongType(ConfigFlow.PasswordKey)
    else if !data[DeviceIdKey].Text? then WrongType(DeviceIdKey)
    else if ConfigFlow.ScanIntervalKey !in data then MissingKey(ConfigFlow.ScanIntervalKey)
    else if !data[ConfigFlow.ScanIntervalKey].Number? then WrongType(ConfigFlow.ScanIntervalKey)
    else
      var client := Api.ClientConfig(data[ConfigFlow.EmailKey].text, data[ConfigFlow.PasswordKey].text,
                                     data[DeviceIdKey].text);
      Built(CoordinatorSetup(client, data[ConfigFlow.ScanIntervalKey].number))
  }

  /** An entry written by the setup flow has no `device_id` key, so building
      the coordinator from it raises `KeyError('device_id')`. */
  lemma FlowEntryLacksDeviceId(input: ConfigFlow.UserInput)
    ensures NewCoordinator(ConfigFlow.EntryData(input)) == MissingKey(DeviceIdKey)
  {
  }

  /** What one update hands to the coordinator machinery: the data to
      publish, an authentication failure (`ConfigEntryAuthFailed`), or an
      update failure (`UpdateFailed`) with its message. */
  datatype UpdateResult = Data(data: Option<StatusBody>) | AuthFailed | UpdateFailed(message: string)

  /** `_async_update_data`, given what the one `get_device_status` call
      produced: a returned value, `None` included, passes through unchanged;
      the client's `InvalidAuth` becomes an authentication failure; any other
      exception an update failure whose message carries the error text. */
  function UpdateData(call: Outcome<Option<StatusBody>>): (u: UpdateResult)
    ensures u.Data? <==> call.Return?
    ensures u.Data? ==> u.data == call.value
    ensures u == AuthFailed <==> call == Raise(InvalidAuth)
    ensures u.UpdateFailed? ==>
      call.Raise? && call.error.Failure? && u.message == ErrorPrefix + call.error.message
    ensures u.UpdateFailed? ==> u.message[..|ErrorPrefix|] == ErrorPrefix
  {
    match call
    case Return(data) => Data(data)
    case Raise(InvalidAuth) => AuthFailed
    case Raise(Failure(message)) => UpdateFailed(ErrorPrefix + message)
  }

  /** One refresh: one `get_device_status` on the wrapped client, classified.
      Returns the client's new state and the update result. Since the client
      never raises `InvalidAuth`, a refresh never reports an authentication
      failure: a refused login shows up as data, at worst `None`. */
  function Refresh(setup: CoordinatorSetup, st: Api.ClientState, now: int, jwt: string -> Api.Claims,
                   login: Exchange<Api.LoginReply>, status: Exchange<Api.StatusReply>): (r: (Api.ClientState, UpdateResult))
    ensures r.0 == Api.StatusCall(setup.client, st, now, jwt, login, status).state
    ensures r.1 != AuthFailed
    ensures r.1.Data? && r.1.data.Some? ==>
      status.Replied? && status.reply.status == 200 && r.1.data.value == status.reply.body
    ensures r.1.UpdateFailed? ==>
      (login.Failed? && r.1.message == ErrorPrefix + login.message)
      || (status.Failed? && r.1.message == ErrorPrefix + status.message)
    // a 200 status body is published, and a transport error becomes an update failure
    ensures Api.StatusCall(setup.client, st, now, jwt, login, status).Queried() && status.Replied? ==>
      r.1 == Data(if status.reply.status == 200 then Some(status.reply.body) else None)
    ensures Api.IsTokenExpired(st.token, jwt, now) && login.Failed? ==>
      r.1 == UpdateFailed(ErrorPrefix + login.message)
    ensures !Api.StatusCall(setup.client, st, now, jwt, login, status).Queried()
            && !(Api.IsTokenExpired(st.token, jwt, now) && login.Failed?) ==>
      r.1 == Data(None)
    ensures Api.StatusCall(setup.client, st, now, jwt, login, status).Queried() && status.Failed? ==>
      r.1 == UpdateFailed(ErrorPrefix + status.message)
  {
    var e := Api.StatusCall(setup.client, st, now, jwt, login, status);
    (e.state, UpdateData(e.result))
  }

  /** A refresh whose login is refused and whose stored token is falsy
      publishes `None` as a successful update and sends no GET. */
  lemma RefusedLoginPublishesNone(setup: CoordinatorSetup, now: int, jwt: string -> Api.Claims,
                                  sessionOpen: bool, status: Exchange<Api.StatusReply>, code: int)
    requires code != 200
    ensures Refresh(setup, Api.ClientState(None, sessionOpen), now, jwt,
                    Replied(Api.LoginReply(code, None)), status).1 == Data(None)
    ensures !Api.StatusCall(setup.client, Api.ClientState(None, sessionOpen), now, jwt,
                            Replied(Api.LoginReply(code, None)), status).Queried()
  {
  }
}
