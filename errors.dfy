/** The exception types that the modelled code raises. */
module Errors {

  datatype Failure =
    /** OSMCPAuthError(message) */
    | AuthError(message: string)
    /** NotImplementedError(message): an authentication mode that has no implementation */
    | NotImplemented(message: string)
    /** OSMCPAPIError(message, status_code), also used for an error raised by the HTTP layer */
    | ApiError(message: string, status: int)
}
