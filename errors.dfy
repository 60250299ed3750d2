/** The values a handler's `catch (err)` can receive. */
module Errors {
  import opened Wrappers

  /** A thrown value. An `Error` instance always has a string `message`
      (empty when none was given); any other thrown value may or may not
      carry `message` and `code` properties (a thrown primitive has neither). */
  datatype Thrown =
    | ErrorObject(message: string, code: Option<string>)
    | OtherObject(optMessage: Option<string>, optCode: Option<string>)
  {
    /** `err.message`: None stands for `undefined`. */
    function Message(): Option<string> {
      match this
      case ErrorObject(m, _) => Some(m)
      case OtherObject(m, _) => m
    }

    /** `err.code`: None stands for `undefined`. */
    function Code(): Option<string> {
      match this
      case ErrorObject(_, c) => c
      case OtherObject(_, c) => c
    }
  }

  /** `new Error(message)`. */
  function NewError(message: string): (t: Thrown)
    ensures t.ErrorObject? && t.Message() == Some(message) && t.Code() == None
  {
    ErrorObject(message, None)
  }
}
