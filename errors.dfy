/** A second, parallel error hierarchy (pycharts/errors.py) that the client
    itself never raises. Same codes as the exception hierarchy, but the default
    message is `None`, the fixed messages have no final period, and the
    rendering is "<message>: <code>". */
module Errors {
  import opened Wrappers
  import opened Strings

  /** One constructor per error class. */
  datatype RequestError =
    | RequestError(message: MaybeText)   // PyChartsRequestError
    | UrlNotFoundError                   // PyChartsRequestUrlNotFoundError
    | UnauthorizedError                  // PyChartsRequestUnauthorizedError
    | TooLongError(message: MaybeText)   // PyChartsRequestTooLongError
  {
    /** The `error_code` attribute. */
    function ErrorCode(): int {
      match this
      case RequestError(_) => 400
      case UrlNotFoundError => 404
      case UnauthorizedError => 401
      case TooLongError(_) => 414
    }

    /** The `error_message` attribute. */
    function ErrorMessage(): MaybeText {
      match this
      case RequestError(m) => m
      case UrlNotFoundError => Text("URL not found")
      case UnauthorizedError => Text("Invalid or Missing API Key")
      case TooLongError(m) => m
    }

    /** `__str__`, inherited by every subclass: the message, ": ", the code. */
    function ToString(): (s: string)
      ensures var m := Render(ErrorMessage());
        |s| == |m| + 5 && s[..|m|] == m && s[|m|..|m| + 2] == ": " &&
        ParseInt(s[|m| + 2..]) == Some(ErrorCode())
    {
      MessageAndCode(Render(ErrorMessage()), ": ", ErrorCode());
      Render(ErrorMessage()) + ": " + IntToDecimal(ErrorCode())
    }
  }

  /** `PyChartsRequestError(error_message=None)`. */
  function NewRequestError(message: MaybeText := NoneValue): (e: RequestError)
    ensures e.ErrorCode() == 400 && e.ErrorMessage() == message
  {
    RequestError(message)
  }

  /** `PyChartsRequestUrlNotFoundError()`. */
  function NewUrlNotFoundError(): (e: RequestError)
    ensures e.ErrorCode() == 404 && e.ErrorMessage() == Text("URL not found")
  {
    UrlNotFoundError
  }

  /** `PyChartsRequestUnauthorizedError()`. */
  function NewUnauthorizedError(): (e: RequestError)
    ensures e.ErrorCode() == 401 && e.ErrorMessage() == Text("Invalid or Missing API Key")
  {
    UnauthorizedError
  }

  /** `PyChartsRequestTooLongError(error_message=None)`. */
  function NewTooLongError(message: MaybeText := NoneValue): (e: RequestError)
    ensures e.ErrorCode() == 414 && e.ErrorMessage() == message
  {
    TooLongError(message)
  }

  /** The default base error renders its missing message as "None". */
  lemma DefaultErrorRendering()
    ensures NewRequestError().ToString() == "None: 400"
  {
    assert IntToDecimal(400) == "400";
  }
}
