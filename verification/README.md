# Vool integration for Home Assistant — a Dafny model

This project models the core of the Vool integration, which polls the Vool
cloud API for one metering device and shows its live readings as seven
sensors. The model covers four parts:

- **The API client** (`Api`, vool_api.py). `VoolApi` is a class with the
  source's `token` and `session` fields. Its methods `GetAuthToken`,
  `Authenticate`, `GetDeviceStatus` and `Close` update those fields. The pure
  functions `AuthToken`, `Authenticated` and `StatusCall` specify them. A
  ghost field `sent` logs every request the client puts on the wire. This
  makes "at most one login", "no GET without a truthy token" and "the GET
  carries `Authorization: Bearer <token>` (RFC 6750, section 2.1)" statable.
  Inputs stand in for the network, the clock and the JWT library:
  - an `Exchange` is the reply received, or the text of the transport error
    raised instead;
  - `now` is an integer;
  - `jwt` maps a token to `DecodeFailed`, `NoExp` or `Exp(n)`. The signature
    is never checked. `exp` is the claim of RFC 7519, section 4.1.4.
- **The sensors** (`Sensor`, sensor.py). This part covers the seven-sensor
  table, unique ids and display names. It also covers the `state` lookup of
  `deviceStatus.connectors[0][key]` over a typed snapshot (`Payload`), where
  every absent step is `None`, and the kW→W conversion.
- **The setup flow** (`ConfigFlow`, config_flow.py). This covers the form
  schema and `validate_input`: the LMC client authenticates first, and the
  Wallbox client only if the LMC succeeded. It also covers the mapping of a
  failure to a single `errors["base"]` code.
- **The coordinator** (`Coordinator`, coordinator.py). This covers
  construction from a configuration entry and the classification of one
  status fetch as data, authentication failure or update failure.

Behaviour of the code as written that the model keeps:

- A failed re-login does not clear a stale token, so the GET still goes out
  with the expired token (`StaleTokenSurvivesFailedLogin`).
- `authenticate` counts an empty token as success, although a status call
  then skips the GET (`EmptyTokenAuthenticatesButIsUnusable`).
- The coordinator reads `entry.data["device_id"]`. The setup flow never
  writes that key, so an entry it creates cannot build a coordinator
  (`FlowEntryLacksDeviceId`).
- The client never raises `InvalidAuth`, so a refresh never reports an
  authentication failure (`Refresh`).
- A transport error during setup is reported as `unknown`, never as
  `cannot_connect` (`NetworkErrorIsUnknown`, `ValidateInput`).
- The configuration flow's `InvalidAuth` is a different class from the
  client's. An `InvalidAuth` that reached the flow would also read as
  `unknown`.
- The coordinator wraps one client, for the entry's `device_id`, and
  publishes that one device's status body as it arrives.
- The sensors read the connector keys `active_power`, `current_l1` …
  `voltage_l3`, in snake_case as the code writes them.

## Model

| member | source | states |
|---|---|---|
| `Api.VoolApi.constructor` | vool_api.py:12-18 | a new client keeps its email, password and device id, and has no token, no session and no requests sent |
| `Api.IsTokenExpired` | vool_api.py:44-57 | a falsy token is expired; otherwise the token is unexpired exactly when it decodes to a non-zero `exp` and now ≤ `exp` (a failed decode, a missing `exp` or `exp` = 0 all mean expired) |
| `Api.ExpiryIsMonotone` | vool_api.py:52-53 | once expired at some time, a token stays expired at every later time |
| `Api.AuthToken` | vool_api.py:25-42 | a transport error raises that same error and keeps the token; on 200 the body's token (possibly None) is stored and returned; any other status returns None and keeps the token; only a 200 changes the token |
| `Api.VoolApi.GetAuthToken` | vool_api.py:25-42 | the stored token and the result are as `AuthToken` says; one login request is sent; the persistent session is not touched |
| `Api.Authenticated` | vool_api.py:20-23 | true exactly when the login reply is 200 with a non-None token; raises exactly when the exchange failed, and then raises that transport error |
| `Api.VoolApi.Authenticate` | vool_api.py:20-23 | returns `Authenticated(login)` and stores the token as `get_auth_token` does |
| `Api.StatusCall` | vool_api.py:59-79 | a login is sent first exactly when the token is expired; the requests sent are one login when the token is expired, then one GET when it goes out, and nothing else; the token afterwards is the one `get_auth_token` leaves when expired and the old one otherwise; the GET goes out exactly when a truthy token remains and the login did not raise, and it carries that token as a Bearer header; the session exists afterwards iff it did before or the GET went out; a transport error from the login or the GET is raised as is; a body is returned exactly from a 200 status reply; a non-200 reply returns None; when the GET is skipped and the login did not raise, the call returns None |
| `Api.VoolApi.GetDeviceStatus` | vool_api.py:59-79 | the new token, session presence, result and sent requests are those of `StatusCall`; an existing session is reused, and a new one is fresh |
| `Api.FreshTokenIsReused` | vool_api.py:61-69 | an unexpired token causes no login, and the only request is the GET with that token |
| `Api.StaleTokenSurvivesFailedLogin` | vool_api.py:59-74 | with an expired truthy token and a non-200 login, the token is kept and the GET goes out with it |
| `Api.EmptyTokenAuthenticatesButIsUnusable` | vool_api.py:20-66 | a 200 login with token "" authenticates, but a status call that obtains it returns None |
| `Api.RunOpensAtMostOneSession` | vool_api.py:71-72 | over any run of status calls without `close`, an open session stays open, and exactly one session is created iff the run starts without one and ends with one |
| `Api.VoolApi.Close` | vool_api.py:81-85 | afterwards there is no session and the old one is closed; with no session the call changes nothing |
| `Sensor.NewSensor` | sensor.py:38-45 | the unique id is the device id, then `_`, then the key |
| `Sensor.UniqueIdDeterminesKey` | sensor.py:45 | for one device, equal unique ids mean equal keys |
| `Sensor.DisplayName` | sensor.py:47-50 | the name is `Vool ` followed by the table row's name |
| `Sensor.SetupEntities` | sensor.py:17-33 | exactly seven sensors, one per table row; unique ids and display names pairwise distinct; only `active_power` converts to watts |
| `Sensor.State` | sensor.py:52-62 | None for falsy data; a reading exists exactly when the first connector exists and holds a non-null value under the key; the reading is that value, times 1000 when converting |
| `Sensor.OnlyFirstConnectorCounts` | sensor.py:56-58 | connectors after the first never change the reading |
| `Sensor.ConversionScalesReading` | sensor.py:58-61 | the converting sensor is unavailable exactly when the plain one is, and otherwise reads 1000 times its value |
| `Sensor.ExampleReadings` | sensor.py:52-62 | 5 kW reads 5000 W, 10 A reads 10 A, and a missing key reads None |
| `ConfigFlow.ApplySchema` | config_flow.py:17-25 | accepted exactly when the four text fields are present; the interval is the given one or 300 |
| `ConfigFlow.EntryDataKeepsInput` | config_flow.py:62 | the entry data holds the five input fields under their keys and nothing else |
| `ConfigFlow.BothClientsSendTheSameLogin` | config_flow.py:29-30 | the LMC and Wallbox clients send identical login requests |
| `ConfigFlow.ValidateInput` | config_flow.py:27-35 | valid exactly when both clients authenticate, with title `Vool LMC <lmc> and Wallbox <wallbox>`; the Wallbox is asked only after the LMC succeeded; a refused login gives `InvalidAuth`; a transport error from the LMC login gives that error with only the LMC asked, and one from the Wallbox login after an LMC success gives that error with both asked; `CannotConnect` never arises |
| `ConfigFlow.ErrorCode` | config_flow.py:55-60 | `CannotConnect` maps to `cannot_connect`, `InvalidAuth` to `invalid_auth` and any other exception to `unknown`, each in both directions |
| `ConfigFlow.StepUser` | config_flow.py:42-66 | without input, the form with no errors; an entry is created exactly when both clients authenticate, with the title and the unchanged input; otherwise the form with the single entry `base` set to the code of the error `validate_input` raised, which is `invalid_auth` or `unknown` |
| `ConfigFlow.WallboxRefusalIsInvalidAuth` | config_flow.py:32-33 | an accepted LMC login followed by a refused Wallbox login asks both clients and shows `base: invalid_auth` |
| `ConfigFlow.NetworkErrorIsUnknown` | config_flow.py:53-60 | a transport error from either login shows the form with `base: unknown` |
| `ConfigFlow.LmcRefusalSkipsWallbox` | config_flow.py:32-33 | a refused LMC login never asks the Wallbox and shows `base: invalid_auth` |
| `Coordinator.NewCoordinator` | coordinator.py:17-25 | built exactly when email, password and device_id are present as text and scan_interval is present as a number; the client uses the entry's email, password and `device_id`; the interval is the scan interval in seconds; a missing key is reported exactly when it is the first failing lookup in the order email, password, device_id, scan_interval |
| `Coordinator.FlowEntryLacksDeviceId` | coordinator.py:19 | an entry written by the setup flow makes construction fail on the missing `device_id` |
| `Coordinator.UpdateData` | coordinator.py:27-34 | a returned value, None included, passes through unchanged; `InvalidAuth` and only it becomes an auth failure; any other error becomes an update failure with message `Error communicating with API: ` + its text |
| `Coordinator.Refresh` | coordinator.py:27-34 | one status call whose client state it keeps; never an auth failure; when the GET went out, a 200 body is published, another status publishes None, and a transport error becomes an update failure with the prefixed message; a transport error from a re-login becomes an update failure the same way; when the GET is skipped and the login did not raise, None is published as data; published data is always a 200 status body |
| `Coordinator.RefusedLoginPublishesNone` | coordinator.py:29-30 | with no token and a refused login, None is published as success and no GET is sent |

## Left out

- HTTP, aiohttp sessions beyond their open/closed state, JSON parsing, logging and async scheduling are not modelled. Each exchange is an input: a reply, or a transport error.
- PyJWT's decoding is not modelled. It is the input function `jwt`. Tokens that are not strings, and PyJWT errors other than a decode error, are not represented.
- `time.time()` is a float. The model uses an integer `now`, and `exp` is an integer.
- Home Assistant's `DataUpdateCoordinator` is not modelled: its timer, single-flight refresh and keeping the last good data after a failure. Entity registration, `device_info` (sensor.py:69-78) and `unit_of_measurement` are also left out.
- Voluptuous enforcement is modelled only as required fields and the default interval. Type coercion is not.
- const.py is not part of this model. The entry keys `lmc_device_id`, `wallbox_device_id` and `scan_interval` are assumed. The only fact used is that none of them is `device_id`.
- The snapshot is typed. A `deviceStatus` that is null or not an object, where the source raises `AttributeError`, cannot be represented. Neither can a reading that is not a number: for a string, Python's `* 1000` would repeat it. Readings are exact reals, with no float rounding.
- `NewCoordinator`: a number stored under email, password or device_id is reported as `WrongType`. Python would store such a value as is.
- Other malformed payloads are not representable either. These are a null or non-object first connector, where the source raises `AttributeError`, and a truthy `connectors` value that is not a list. The model also cannot represent a 200 status reply whose JSON body is null, where the source returns None and the model returns the typed body.
- A non-numeric `exp` claim, where the comparison raises `TypeError` that the decode-error handler does not catch, is not representable: `Exp` holds an integer.
- `close` on a session that itself raises is not modelled.
