/** Normalisation of handler failures (RqueueMessageHandler.processHandlerMethodException). */
module Failures {
  import opened Values
  import Routing

  /** The handler method that threw, as an opaque token. */
  datatype HandlerMethod = HandlerMethod(beanName: string, methodName: string)

  /** The text of the wrapping exception. */
  const HANDLER_FAILURE_MESSAGE := "An exception occurred while invoking the handler method"

  /** processHandlerMethodException. It first runs the base class's handling
      (AbstractMethodMessageHandler is not part of this model), whose outcome is
      `superOutcome`; should that throw, its exception propagates. Otherwise the
      handler's exception is re-thrown wrapped in a MessagingException. */
  function ProcessHandlerMethodException(
    handlerMethod: HandlerMethod,
    ex: Exception,
    message: Routing.Message,
    superOutcome: Result<Unit>): (r: Result<Unit>)
    // never returns normally
    ensures r.Err?
    ensures superOutcome.Ok? ==> r.error.MessagingException?
    ensures superOutcome.Ok? ==> r.error.message == HANDLER_FAILURE_MESSAGE
    ensures superOutcome.Ok? ==> r.error.cause == ex
    ensures superOutcome.Err? ==> r.error == superOutcome.error
  {
    match superOutcome
    case Err(thrown) => Err(thrown)
    case Ok(_) => Err(MessagingException(HANDLER_FAILURE_MESSAGE, ex))
  }

  /** The original exception is recoverable from the thrown one by getCause,
      whatever the handler threw, a MessagingException included. */
  lemma CauseIsPreserved(handlerMethod: HandlerMethod, ex: Exception, message: Routing.Message)
    ensures GetCause(ProcessHandlerMethodException(handlerMethod, ex, message, Ok(Unit)).error) == Some(ex)
  {
  }
}
