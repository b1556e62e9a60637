/**
 * What a call into the client can raise. The library's own three error
 * kinds are `Error`; the others are exceptions of the HTTP library or of
 * Python itself that escape the client unchanged.
 */
module Errors {

  datatype Error =
    | SettingConfigError(msg: string)
    | IndiscernibleResponseFromWebUiError(msg: string)
    | RequestsError(msg: string)

  datatype Exception =
    | Library(error: Error)
      /** `requests.HTTPError` raised by `raise_for_status` on a 4xx or 5xx status. */
    | HTTPError(status: int)
      /** any other `requests.RequestException` (connection refused, timeout, ...). */
    | RequestException(reason: string)
      /** a dictionary lookup of a missing key. */
    | KeyError(key: string)
      /** unpacking a sequence of the wrong length. */
    | ValueError(text: string)
      /** a local variable read before it was assigned. */
    | UnboundLocalError(name: string)

  /** The outcome of a Python call: its return value, or what it raised. */
  datatype Outcome<+T> = Ok(value: T) | Raise(exc: Exception)

  function Fail<T>(e: Error): Outcome<T>
  {
    Raise(Library(e))
  }

  /** Python 2's `e.message` for each kind of exception. */
  function Message(e: Exception): string
  {
    match e
    case Library(err) => err.msg
    case HTTPError(s) => PyStrOf(s) + (if s < 500 then " Client Error" else " Server Error")
    case RequestException(reason) => reason
    case KeyError(key) => key
    case ValueError(text) => text
    case UnboundLocalError(name) => "local variable '" + name + "' referenced before assignment"
  }

  function PyStrOf(i: int): string
  {
    PyStr.IntToString(i)
  }

  import PyStr
}
