/** Resolution of a mailer handler alias to the name of the class that
    implements it (the lookup-with-default in EmailService.create). */
module MailerRegistry {
  import opened Wrappers
  import opened MailerErrors

  /** How the alias appears in the exception's context text; a null alias
      prints as "null". */
  function AliasText(alias: Option<string>): string
  {
    match alias
    case None => "null"
    case Some(value) => value
  }

  /** The class name registered for `alias`, or for the default service when
      there is no alias; a missing, null or empty name is the
      not-registered error. A Java map that holds null for a key behaves as
      if the key were absent, which is why `services` has no null values here. */
  function Resolve(services: map<string, string>, defaultService: Option<string>, alias: Option<string>)
    : (r: Result<string, Exception>)
    ensures alias.Some? ==>
      (r.Success? <==> alias.value in services && services[alias.value] != "")
    ensures alias.Some? && r.Success? ==> r.value == services[alias.value]
    ensures alias.None? ==>
      (r.Success? <==> defaultService.Some? && defaultService.value != "")
    ensures alias.None? && r.Success? ==> defaultService == Some(r.value)
    ensures r.Failure? ==>
      r.error == AppException(MailerServiceNotRegistered, "serviceAlias: " + AliasText(alias))
  {
    var className :=
      if alias.Some? then
        (if alias.value in services then Some(services[alias.value]) else None)
      else defaultService;
    if className.None? || className.value == "" then
      Failure(AppException(MailerServiceNotRegistered, "serviceAlias: " + AliasText(alias)))
    else
      Success(className.value)
  }
}
