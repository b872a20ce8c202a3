# rqueue listener mapping — a Dafny model

This project models the listener-mapping logic that rqueue's
`RqueueMessageHandler` (a Spring `AbstractMethodMessageHandler`) adds on top of
its base class:

- turning a method's `@RqueueListener` declaration into a `MappingInformation`:
  the queue-name expressions become the union of what each resolves to, the
  dead-letter-queue expression must resolve to exactly one string, and a mapping
  that is not valid is dropped (returned as null);
- routing a message: its destination is the `QUEUE_NAME` header, a mapping's
  direct-lookup keys are its queue names, and a mapping matches a message
  exactly when the destination is one of them;
- the ordered converter list: the no-argument constructor gives
  `[GenericMessageConverter]`; the list-taking constructor and
  `setMessageConverters` reject a null or empty list, store the caller's own
  list and append the generic converter to it;
- failure normalisation: a handler method's exception is re-thrown as a
  `MessagingException` whose cause is that exception.

Files, one module each: `values.dfy` (Option, Result, the exceptions,
converter tokens), `resolution.dfy` (`ValueResolver`, `resolveQueueNames`,
`resolveDelayedQueue`), `mapping.dfy` (`MappingInformation`,
`getMappingForMethod`), `routing.dfy` (messages, `getDestination`,
`getDirectLookupDestinations`, `getMatchingMapping`), `converters.dfy` (the
caller-owned list and the handler's converter state, as classes),
`failures.dfy` (`processHandlerMethodException`).

Modelling decisions:

- Java's `null` is `None`; a method that may throw returns `Result` (`Ok` or
  `Err(exception)`).
- The `ValueResolver` bound to the application context is a parameter: three
  arbitrary total functions from expression to string array, boolean and
  integer. `MappingInformation.isValid` is a parameter too (a predicate on
  mappings), because its definition lies outside the modelled file.
- The annotation lookup becomes the `Option<RqueueListener>` it produces.
- `getDestination` casts the header to `String`; a header of another class
  makes the cast throw `ClassCastException`, which the model keeps, and which
  `getMatchingMapping` propagates. A missing header is null. Resolved queue
  names and header values are taken to be non-null strings (see "Left out"),
  so under that assumption no set of queue names contains null and such a
  message matches nothing.
- The handler stores the list it is given (aliasing), so the caller's list is
  changed in place by the appended generic converter. This is modelled with a
  `ConverterList` class and a handler class whose field references it. A Dafny
  constructor cannot throw, so the list-taking constructor is the static method
  `Create`, which allocates the object and then runs `SetMessageConverters`,
  as the Java constructor does.
- The dead-letter-queue error text says "more than one", but the check is
  `length == 1`: zero resolved values also fail, and the model proves that.
- Validity is whatever `MappingInformation.isValid` decides; it is left
  abstract here. A message without a `QUEUE_NAME` header gives a null
  destination, which matches no mapping; it is not an error.
- `ConverterList.Add` stands for `List.add` and `IsEmpty` for
  `CollectionUtils.isEmpty`, the two foreign calls the converter code makes.
- `GetMessageConverters` is a plain accessor returning the stored reference
  (not a copy); what callers get from it after construction or
  `setMessageConverters` is stated by `DefaultHandlerConverters`,
  `ConfiguredHandlerConverters` and `SetThenGet`.
- A `ClassCastException` carries the class of the header value that failed
  the cast; the JVM's message text is not modelled.

## Model

| member | source | states |
|---|---|---|
| `Resolution.ResolveQueueNames` | rqueue/src/main/java/io/rqueue/listener/RqueueMessageHandler.java:94-101 | the loop's result is the union of the resolved arrays: a name is in it iff some declared expression resolves to it; no declarations give the empty set |
| `Resolution.QueueNameUnionMembers` | rqueue/src/main/java/io/rqueue/listener/RqueueMessageHandler.java:94-101 | membership in the union of resolved queue names holds iff some declared expression resolves to that name |
| `Resolution.QueueNameUnionIgnoresOrder` | rqueue/src/main/java/io/rqueue/listener/RqueueMessageHandler.java:94-101 | the set of queue names depends only on which expressions are declared, not on their order or repetition (duplicates collapse) |
| `Resolution.ResolveDelayedQueue` | rqueue/src/main/java/io/rqueue/listener/RqueueMessageHandler.java:85-92 | succeeds iff the expression resolves to exactly one string, and then returns that string; otherwise (zero or several) throws IllegalStateException with the source's message |
| `Mapping.GetMappingForMethod` | rqueue/src/main/java/io/rqueue/listener/RqueueMessageHandler.java:68-83 | null without a declaration; with one, throws iff the dead-letter queue is not a single string, even for an invalid mapping; otherwise returns the mapping iff it is valid, with the resolved queue names, delayed flag, retry count and dead-letter queue |
| `Routing.GetDestination` | rqueue/src/main/java/io/rqueue/listener/RqueueMessageHandler.java:108-111 | null iff the QUEUE_NAME header is absent, the header's String when it is one, ClassCastException naming the value's class iff it is of another class |
| `Routing.GetDirectLookupDestinations` | rqueue/src/main/java/io/rqueue/listener/RqueueMessageHandler.java:103-106 | every direct-lookup key routes a message carrying it back to the mapping; `DirectLookupAgreesWithMatching` adds the converse and `DeclaredQueuesRoute` shows the keys are exactly the resolved queue names |
| `Routing.GetMatchingMapping` | rqueue/src/main/java/io/rqueue/listener/RqueueMessageHandler.java:113-119 | returns the mapping itself iff the QUEUE_NAME header is a String among its queue names, null otherwise; fails exactly when reading the destination fails |
| `Routing.MissingDestinationNeverMatches` | rqueue/src/main/java/io/rqueue/listener/RqueueMessageHandler.java:113-119 | a message without a QUEUE_NAME header matches no mapping |
| `Routing.EmptyMappingNeverMatches` | rqueue/src/main/java/io/rqueue/listener/RqueueMessageHandler.java:113-119 | a mapping without queue names is never the match for any message |
| `Routing.DirectLookupAgreesWithMatching` | rqueue/src/main/java/io/rqueue/listener/RqueueMessageHandler.java:103-119 | a message matches a mapping iff its destination is one of the mapping's direct-lookup keys |
| `Routing.DeclaredQueuesRoute` | rqueue/src/main/java/io/rqueue/listener/RqueueMessageHandler.java:68-119 | for a mapping built from a declaration, the lookup keys are exactly the resolved queue names, and a message matches iff its destination is a string some declared expression resolves to |
| `Converters.DefaultConverterIsLast` | rqueue/src/main/java/io/rqueue/listener/RqueueMessageHandler.java:44-46 | appending the default converter keeps the given converters in order, puts the generic converter last, adds one element and one generic converter |
| `Converters.RqueueMessageHandler.constructor` | rqueue/src/main/java/io/rqueue/listener/RqueueMessageHandler.java:35-38 | the no-argument constructor stores a fresh list holding exactly one generic converter |
| `Converters.RqueueMessageHandler.Unconfigured` | rqueue/src/main/java/io/rqueue/listener/RqueueMessageHandler.java:33 | an object of the class before any list is stored holds null |
| `Converters.RqueueMessageHandler.Create` | rqueue/src/main/java/io/rqueue/listener/RqueueMessageHandler.java:40-42 | the list-taking constructor throws IllegalArgumentException iff the list is null or empty, leaving it unchanged; otherwise the new handler holds the caller's list, now the original converters followed by the generic one |
| `Converters.RqueueMessageHandler.AddDefaultMessageConverter` | rqueue/src/main/java/io/rqueue/listener/RqueueMessageHandler.java:44-46 | the stored list gains one generic converter at its end |
| `Converters.DefaultHandlerConverters` | rqueue/src/main/java/io/rqueue/listener/RqueueMessageHandler.java:35-46 | after the no-argument constructor, getMessageConverters hands out exactly `[GenericMessageConverter]` |
| `Converters.ConfiguredHandlerConverters` | rqueue/src/main/java/io/rqueue/listener/RqueueMessageHandler.java:40-46 | the list-taking constructor fails with IllegalArgumentException iff the list is empty; otherwise getMessageConverters hands out the given converters in order followed by one generic converter, one longer than the given list |
| `Converters.SetThenGet` | rqueue/src/main/java/io/rqueue/listener/RqueueMessageHandler.java:139-149 | after a successful setMessageConverters(L), getMessageConverters returns L itself, extended in place by the generic converter, and a different previously stored list is left untouched; after a failed one it returns what it returned before |
| `Converters.RqueueMessageHandler.SetMessageConverters` | rqueue/src/main/java/io/rqueue/listener/RqueueMessageHandler.java:143-149 | throws IllegalArgumentException iff the list is null or empty, and then changes neither the stored reference nor the list; otherwise stores the caller's list itself and appends the generic converter to it in place |
| `Failures.ProcessHandlerMethodException` | rqueue/src/main/java/io/rqueue/listener/RqueueMessageHandler.java:132-137 | never returns normally: after the base class's handling it throws a MessagingException with the source's message whose cause is the handler's exception; an exception from the base class's handling propagates instead |
| `Failures.CauseIsPreserved` | rqueue/src/main/java/io/rqueue/listener/RqueueMessageHandler.java:132-137 | getCause of the thrown exception is the handler's original exception |

## Left out

- Failures inside `ValueResolver` (an unparsable integer, say): the resolver is external, so its functions are total here.
- `MappingInformation.isValid` and `MappingInformation.compareTo`: not part of this model; validity is a parameter, and `getMappingComparator` (which delegates to `compareTo`) is not modelled, so no tie-break between mappings is stated.
- The registry, handler scanning, invocation and dispatch loop of `AbstractMethodMessageHandler`: not part of this model; only the hooks this class overrides are modelled, and the base class's exception handling is a parameter of `ProcessHandlerMethodException`.
- `initArgumentResolvers`, `initReturnValueHandlers`, `isHandler` and `createExceptionHandlerMethodResolverFor`: thin wrappers that build Spring objects (payload conversion, return-value handling, exception-handler lookup); converters are tokens and payloads are not decoded.
- Reflection and annotation lookup, and the unused `handlerType` argument of `getMappingForMethod`: the lookup's result is the input.
- The text of `Constants.QUEUE_NAME`: not part of this model, so it is an unspecified constant.
- Null elements in a resolved array and null header values: the resolver yields non-null strings and header values are non-null; otherwise a `HashSet` holding null could make a message without the header match.
- A caller's list that refuses `add` (an unmodifiable list throws `UnsupportedOperationException`): the converter list always accepts appends.
- Logging of invalid mappings, the Spring configuration class that constructs the handler, and the concurrent delivery workers that call it.
