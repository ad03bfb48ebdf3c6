/** The bridge's error type. */
module Errors {
  datatype BridgeError =
    | BadRequest(message: string)
    | NotFound(message: string)
    | Conflict(message: string)
    | Unauthorized(message: string)
    | UnknownModel(alias: string)
    | Upstream(status: nat, message: string)
    | UpstreamUnreachable(message: string)
    | NotImplemented(message: string)
    | Internal(message: string)

  function Decimal(n: nat): string {
    (if n < 10 then "" else Decimal(n / 10)) + [(n % 10) as char + '0']
  }

  function Describe(e: BridgeError): string {
    match e
    case BadRequest(message) => "bad request: " + message
    case NotFound(message) => "not found: " + message
    case Conflict(message) => "conflict: " + message
    case Unauthorized(message) => "unauthorized: " + message
    case UnknownModel(alias) => "unknown model: " + alias
    case Upstream(status, message) => "upstream error (" + Decimal(status) + "): " + message
    case UpstreamUnreachable(message) => "upstream unreachable: " + message
    case NotImplemented(message) => "not implemented: " + message
    case Internal(message) => "internal error: " + message
  }
}
