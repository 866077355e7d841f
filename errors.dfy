/** The exceptions the email service raises or passes on. */
module MailerErrors {
  import opened Wrappers

  /** The PostieErrorCode constants the service uses. */
  datatype ErrorCode =
    | MailerServiceNotRegistered  // INTERNAL_MAILER_SERVICE_NOT_REGISTERED
    | GuidGenerationError         // INTERNAL_GUID_GENERATION_ERROR

  /** A thrown exception: an AppException with its code and context text, a
      CriticalException with its code, or any other Throwable, of which only
      its (possibly null) message is kept. */
  datatype Exception =
    | AppException(code: ErrorCode, detail: string)
    | CriticalException(code: ErrorCode)
    | Thrown(message: Option<string>)
}
