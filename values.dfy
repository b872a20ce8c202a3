/** Value types shared by the model of io.rqueue.listener.RqueueMessageHandler:
    optional values (Java's null), the outcome of a call that returns or throws,
    the exceptions the handler raises or passes on, and converter tokens. */
module Values {

  /** A reference that may be null. */
  datatype Option<+T> = None | Some(value: T)

  /** The value of a Java method declared `void`. */
  datatype Unit = Unit

  /** The outcome of a Java call: it returns a value or it throws an exception. */
  datatype Result<+T> = Ok(value: T) | Err(error: Exception)

  /** The exceptions the handler throws itself, the one it may provoke by a cast,
      and those thrown by application handler methods (opaque to the handler).
      A ClassCastException carries the class of the object that failed the
      cast; the JVM's message text is not modelled. */
  datatype Exception =
    | IllegalStateException(message: string)
    | IllegalArgumentException(message: string)
    | ClassCastException(sourceClass: string)
    | MessagingException(message: string, cause: Exception)
    | ApplicationException(className: string, message: string)

  /** Throwable.getCause: the exception a wrapper carries, null for the others. */
  function GetCause(e: Exception): Option<Exception>
  {
    if e.MessagingException? then Some(e.cause) else None
  }

  /** A message converter, as an opaque token: the model does not decode payloads.
      Every `new GenericMessageConverter()` is the same token. */
  datatype MessageConverter =
    | GenericMessageConverter
    | UserConverter(name: string)
}
