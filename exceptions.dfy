/** The exception hierarchy the client raises (pycharts/exceptions.py): a base
    class for malformed requests and three subclasses, each with a fixed
    `error_code` and an `error_message`, rendered as "<message> code:<code>". */
module Exceptions {
  import opened Wrappers
  import opened Strings

  /** One constructor per exception class. */
  datatype RequestException =
    | RequestException(message: MaybeText)   // PyChartsRequestException
    | UrlNotFoundException                   // PyChartsRequestUrlNotFoundException
    | UnauthorizedException                  // PyChartsRequestUnauthorizedException
    | TooLongException(message: MaybeText)   // PyChartsRequestTooLongException
  {
    /** The `error_code` attribute. */
    function ErrorCode(): int {
      match this
      case RequestException(_) => 400
      case UrlNotFoundException => 404
      case UnauthorizedException => 401
      case TooLongException(_) => 414
    }

    /** The `error_message` attribute. */
    function ErrorMessage(): MaybeText {
      match this
      case RequestException(m) => m
      case UrlNotFoundException => Text(UrlNotFoundMessage)
      case UnauthorizedException => Text(UnauthorizedMessage)
      case TooLongException(m) => m
    }

    /** `__str__`, inherited by every subclass: the message, then " code:",
        then the three-digit code, so both can be read back off the text. */
    function ToString(): (s: string)
      ensures var m := Render(ErrorMessage());
        |s| == |m| + 9 && s[..|m|] == m && s[|m|..|m| + 6] == " code:" &&
        ParseInt(s[|m| + 6..]) == Some(ErrorCode())
    {
      MessageAndCode(Render(ErrorMessage()), " code:", ErrorCode());
      Render(ErrorMessage()) + " code:" + IntToDecimal(ErrorCode())
    }
  }

  const UrlNotFoundMessage: string := "URL not found."
  const UnauthorizedMessage: string := "Invalid or Missing API Key."

  /** `PyChartsRequestException(error_message='')`. */
  function NewRequestException(message: MaybeText := Text("")): (e: RequestException)
    ensures e.ErrorCode() == 400 && e.ErrorMessage() == message
    ensures ClassOf(e) == RequestExceptionClass
  {
    RequestException(message)
  }

  /** `PyChartsRequestUrlNotFoundException()`: takes no message. */
  function NewUrlNotFoundException(): (e: RequestException)
    ensures e.ErrorCode() == 404 && e.ErrorMessage() == Text("URL not found.")
    ensures ClassOf(e) == UrlNotFoundExceptionClass
  {
    UrlNotFoundException
  }

  /** `PyChartsRequestUnauthorizedException()`: takes no message. */
  function NewUnauthorizedException(): (e: RequestException)
    ensures e.ErrorCode() == 401 && e.ErrorMessage() == Text("Invalid or Missing API Key.")
    ensures ClassOf(e) == UnauthorizedExceptionClass
  {
    UnauthorizedException
  }

  /** `PyChartsRequestTooLongException(error_message=None)`. */
  function NewTooLongException(message: MaybeText := NoneValue): (e: RequestException)
    ensures e.ErrorCode() == 414 && e.ErrorMessage() == message
    ensures ClassOf(e) == TooLongExceptionClass
  {
    TooLongException(message)
  }

  // ---------------------------------------------------------------------------
  // the class hierarchy, as `except` clauses see it

  datatype ExceptionClass =
    | RequestExceptionClass
    | UrlNotFoundExceptionClass
    | UnauthorizedExceptionClass
    | TooLongExceptionClass

  function ClassOf(e: RequestException): ExceptionClass {
    match e
    case RequestException(_) => RequestExceptionClass
    case UrlNotFoundException => UrlNotFoundExceptionClass
    case UnauthorizedException => UnauthorizedExceptionClass
    case TooLongException(_) => TooLongExceptionClass
  }

  /** `issubclass`: each subclass derives directly from PyChartsRequestException. */
  predicate IsSubclass(sub: ExceptionClass, sup: ExceptionClass) {
    sub == sup || sup == RequestExceptionClass
  }

  /** `isinstance(e, cls)`, which decides whether `except cls` catches `e`. */
  predicate IsInstance(e: RequestException, cls: ExceptionClass) {
    IsSubclass(ClassOf(e), cls)
  }

  /** A handler for the base class catches every exception of the hierarchy, and
      a handler for a subclass catches exactly the exceptions of that subclass. */
  lemma HandlersCatch(e: RequestException, cls: ExceptionClass)
    ensures IsInstance(e, RequestExceptionClass)
    ensures cls != RequestExceptionClass ==> (IsInstance(e, cls) <==> ClassOf(e) == cls)
  {
  }

  /** The not-found exception renders with its fixed message and code. */
  lemma NotFoundRendering()
    ensures NewUrlNotFoundException().ToString() == "URL not found. code:404"
  {
    assert IntToDecimal(404) == "404";
  }

  /** The code of an exception tells its class. */
  lemma CodeDeterminesClass(e1: RequestException, e2: RequestException)
    ensures e1.ErrorCode() == e2.ErrorCode() <==> ClassOf(e1) == ClassOf(e2)
  {
  }
}
