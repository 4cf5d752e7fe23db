/** Shared value types: optional values, the exceptions the integration can see,
    the outcome of a call that may raise, and the abstract network exchanges
    that stand in for aiohttp. */
module Common {

  /** Python's `None` or a present value. */
  datatype Option<+T> = None | Some(value: T)
  {
    function GetOr(default: T): T {
      match this
      case Some(v) => v
      case None => default
    }
  }

  /** An exception escaping a call: `InvalidAuth` is the class declared in
      vool_api.py; every other exception (aiohttp errors, malformed JSON, ...)
      is a `Failure` carrying its text, i.e. `str(err)`. */
  datatype Error = InvalidAuth | Failure(message: string)

  /** What a call produced: the value it returned, or the exception it raised. */
  datatype Outcome<+T> = Return(value: T) | Raise(error: Error)

  /** One HTTP exchange as the client sees it: the reply the server sent, or
      the text of the transport error aiohttp raised instead. */
  datatype Exchange<+R> = Replied(reply: R) | Failed(message: string)

  /** A value stored in a configuration entry's data dictionary. */
  datatype Value = Text(text: string) | Number(number: int)
}

/** The status payload returned by `GET /v2/devices/{id}/status`, typed so
    that every absent step of the lookup path is an explicit `None`. */
module Payload {
  import opened Common

  /** One connector object: reading key to number; a key bound to `None`
      holds a JSON null. */
  type Connector = map<string, Option<real>>

  /** The `deviceStatus` object; `connectors` is `None` when the key is
      absent or null. */
  datatype DeviceStatus = DeviceStatus(connectors: Option<seq<Connector>>)

  /** The top-level body: its `deviceStatus` member, if any, and the names of
      its other top-level keys (such as `firmwareVersion`), whose values the
      core never reads. */
  datatype StatusBody = StatusBody(deviceStatus: Option<DeviceStatus>, otherKeys: set<string>)
  {
    /** The body is the empty dictionary `{}` (falsy in Python). */
    predicate IsEmpty() {
      deviceStatus.None? && otherKeys == {}
    }
  }
}
