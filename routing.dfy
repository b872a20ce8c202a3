/** Routing an inbound message to a mapping: the destination header, the
    direct-lookup keys of a mapping and the matching test
    (RqueueMessageHandler.getDestination, getDirectLookupDestinations,
    getMatchingMapping). */
module Routing {
  import opened Values
  import opened Resolution
  import opened Mapping

  /** The header key io.rqueue.constants.Constants.QUEUE_NAME; its text is not
      part of this model, and nothing here depends on it. */
  const QUEUE_NAME: string

  /** A header value: a String, or an object of some other class. */
  datatype HeaderValue = StringHeader(text: string) | OtherHeader(className: string)

  /** An inbound Spring message: its headers and its raw payload. */
  datatype Message = Message(headers: map<string, HeaderValue>, payload: seq<bv8>)

  /** True when the message's QUEUE_NAME header is the String `queue`. */
  predicate CarriesDestination(message: Message, queue: string)
  {
    QUEUE_NAME in message.headers && message.headers[QUEUE_NAME] == StringHeader(queue)
  }

  /** getDestination: the QUEUE_NAME header cast to String. A missing header is
      null; a header of another class makes the cast throw. */
  function GetDestination(message: Message): (r: Result<Option<string>>)
    ensures r == Ok(None) <==> QUEUE_NAME !in message.headers
    ensures r.Ok? && r.value.Some? ==> CarriesDestination(message, r.value.value)
    ensures r.Err? <==> QUEUE_NAME in message.headers && message.headers[QUEUE_NAME].OtherHeader?
    ensures r.Err? ==> r.error == ClassCastException(message.headers[QUEUE_NAME].className)
  {
    if QUEUE_NAME !in message.headers then Ok(None)
    else
      match message.headers[QUEUE_NAME]
      case StringHeader(text) => Ok(Some(text))
      case OtherHeader(className) =>
        Err(ClassCastException(className))
  }

  /** getDirectLookupDestinations: the keys under which the base class indexes
      a mapping for direct lookup. */
  function GetDirectLookupDestinations(mapping: MappingInformation): (r: set<string>)
    // every lookup key routes its messages back to this mapping
    ensures forall key, message ::
      key in r && CarriesDestination(message, key) ==> GetMatchingMapping(mapping, message) == Ok(Some(mapping))
  {
    mapping.queueNames
  }

  /** getMatchingMapping: the mapping itself when the message's destination is
      one of its queue names, null otherwise (a null destination is in no set of
      names); a failing cast propagates. */
  function GetMatchingMapping(mapping: MappingInformation, message: Message): (r: Result<Option<MappingInformation>>)
    ensures r.Ok? && r.value.Some? ==> r.value.value == mapping
    ensures r == Ok(Some(mapping)) <==>
      QUEUE_NAME in message.headers && message.headers[QUEUE_NAME].StringHeader?
      && message.headers[QUEUE_NAME].text in mapping.queueNames
    ensures r.Err? <==> GetDestination(message).Err?
    ensures r.Err? ==> r.error == GetDestination(message).error
  {
    var destination := GetDestination(message);
    if destination.Err? then Err(destination.error)
    else if destination.value.Some? && destination.value.value in mapping.queueNames then Ok(Some(mapping))
    else Ok(None)
  }

  /** A message without a QUEUE_NAME header matches no mapping. */
  lemma MissingDestinationNeverMatches(mapping: MappingInformation, message: Message)
    requires QUEUE_NAME !in message.headers
    ensures GetMatchingMapping(mapping, message) == Ok(None)
  {
  }

  /** A mapping without queue names is never selected by any destination. */
  lemma EmptyMappingNeverMatches(mapping: MappingInformation, message: Message)
    requires mapping.queueNames == {}
    ensures GetMatchingMapping(mapping, message).Ok? ==> GetMatchingMapping(mapping, message) == Ok(None)
  {
  }

  /** The direct-lookup index and the matching test agree: a message matches a
      mapping exactly when its destination is one of the mapping's lookup keys. */
  lemma DirectLookupAgreesWithMatching(mapping: MappingInformation, message: Message)
    ensures GetMatchingMapping(mapping, message) == Ok(Some(mapping))
        <==> exists key :: key in GetDirectLookupDestinations(mapping) && CarriesDestination(message, key)
  {
  }

  /** End to end: when a listener declaration yields a mapping, a message is
      routed to it exactly when its destination is one of the strings some
      declared queue-name expression resolves to; the lookup keys are exactly
      those strings. */
  lemma {:induction false} DeclaredQueuesRoute(
    resolver: ValueResolver,
    isValid: MappingInformation -> bool,
    listener: RqueueListener,
    mapping: MappingInformation,
    message: Message,
    queue: string)
    requires GetMappingForMethod(resolver, isValid, Some(listener)) == Ok(Some(mapping))
    requires CarriesDestination(message, queue)
    ensures GetDirectLookupDestinations(mapping) == QueueNameUnion(resolver, listener.value)
    ensures GetMatchingMapping(mapping, message) == Ok(Some(mapping))
        <==> exists i :: 0 <= i < |listener.value| && queue in resolver.toArrayOfStrings(listener.value[i])
  {
  }
}
