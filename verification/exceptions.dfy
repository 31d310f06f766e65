/** The exceptions the payment core throws or lets through, by the type the handler dispatches on. */
module Exceptions {
  import opened Wrappers
  import opened PaymentRequests

  /** The error code a BusinessException carries unless one is given. */
  const DefaultBusinessCode := "BUSINESS_ERROR"

  datatype Exception =
    /** The application's own runtime exception; its message may be null. */
    | BusinessException(errorCode: string, message: Option<string>)
    /** Spring's MethodArgumentNotValidException, with its binding result's field errors. */
    | ArgumentNotValid(fieldErrors: seq<FieldError>)
    /** Any other RuntimeException; its message may be null. */
    | OtherRuntime(message: Option<string>)
    /** Any other (checked) Exception; its message may be null. */
    | OtherChecked(message: Option<string>)

  /** `new BusinessException(message)`: the default code and the given message. */
  function Business(message: string): (e: Exception)
    ensures e.BusinessException? && e.errorCode == "BUSINESS_ERROR" && e.message == Some(message)
  {
    BusinessException(DefaultBusinessCode, Some(message))
  }
}
