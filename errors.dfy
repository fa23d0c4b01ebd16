/** The exceptions the client throws, one constructor per distinct
    condition, and the message text each carries. */
module Errors {

  datatype Error =
    | MissingCredentials                               // the constructor's credential check
    | EmptyTokenReply                                  // the token endpoint answered with an empty body
    | FormatNotSupported                               // the token reply did not decode to an object
    | AuthError(code: string, description: string)     // the token reply carried an `error` field
    | TokenNotFound                                    // the token reply had neither error nor access token
    | MissingParameter(message: string)                // a domain operation's validation failed
    | EmptyResponse                                    // a domain endpoint answered with an empty body
    | CurlParameterMissing                             // no URL, or an unsupported HTTP verb
    | CurlFailed                                       // transport failure or HTTP 400
    | UndefinedMethod(name: string)                    // PHP's fatal error for a call to a missing method

  /** The message the PHP exception carries. */
  function Message(e: Error): string {
    match e
    case MissingCredentials => "client credentials Missing. Secret, realmName Required"
    case EmptyTokenReply => "Empty returned"
    case FormatNotSupported => "Data format not supported."
    case AuthError(code, description) => "!!ERROR: " + code + " \n Description: " + description
    case TokenNotFound => "Token Not Found"
    case MissingParameter(message) => message
    case EmptyResponse => "Empty returned."
    case CurlParameterMissing => "CURL Required Parameter Missing"
    case CurlFailed => "CURL Failed OR 400 Bad Request "
    case UndefinedMethod(name) => "Call to undefined method NexwayConnect::" + name + "()"
  }
}
