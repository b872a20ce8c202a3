/** Turning a listener method's @RqueueListener declaration into a
    MappingInformation (RqueueMessageHandler.getMappingForMethod). */
module Mapping {
  import opened Values
  import opened Resolution

  /** The resolved configuration of one listener registration. */
  datatype MappingInformation = MappingInformation(
    queueNames: set<string>,
    isDelayedQueue: bool,
    numRetries: int,
    deadLetterQueue: string)

  /** The attributes of an @RqueueListener annotation, still unresolved:
      the queue-name expressions, and the delayed-queue, retry-count and
      dead-letter-queue expressions. */
  datatype RqueueListener = RqueueListener(
    value: seq<string>,
    delayedQueue: string,
    numRetries: string,
    deadLaterQueue: string)

  /** getMappingForMethod. `listener` is what the annotation lookup found on
      the method (None when it carries no @RqueueListener); `isValid` stands for
      MappingInformation.isValid, whose definition is not part of this model.
      A null result is Ok(None); a thrown exception is Err. */
  function GetMappingForMethod(
    resolver: ValueResolver,
    isValid: MappingInformation -> bool,
    listener: Option<RqueueListener>): (r: Result<Option<MappingInformation>>)
    // no declaration: null
    ensures listener.None? ==> r == Ok(None)
    // a declaration fails exactly when its dead-letter queue is not a single string,
    // whether or not the mapping would have been valid
    ensures listener.Some? ==>
      (r.Err? <==> |resolver.toArrayOfStrings(listener.value.deadLaterQueue)| != 1)
    ensures r.Err? ==>
      r.error == IllegalStateException(DeadLetterQueueError(listener.value.deadLaterQueue))
    // a declared mapping is returned exactly when it is valid
    ensures listener.Some? && r.Ok? ==>
      (r.value.Some? <==>
        isValid(MappingInformation(
          QueueNameUnion(resolver, listener.value.value),
          resolver.toBoolean(listener.value.delayedQueue),
          resolver.toInteger(listener.value.numRetries),
          resolver.toArrayOfStrings(listener.value.deadLaterQueue)[0])))
    // what a returned mapping holds
    ensures r.Ok? && r.value.Some? ==>
      var m := r.value.value;
      listener.Some? && isValid(m)
      && (forall name :: (name in m.queueNames
            <==> exists i :: 0 <= i < |listener.value.value|
                   && name in resolver.toArrayOfStrings(listener.value.value[i])))
      && m.isDelayedQueue == resolver.toBoolean(listener.value.delayedQueue)
      && m.numRetries == resolver.toInteger(listener.value.numRetries)
      && resolver.toArrayOfStrings(listener.value.deadLaterQueue) == [m.deadLetterQueue]
  {
    match listener
    case None => Ok(None)
    case Some(l) =>
      var queueNames := QueueNameUnion(resolver, l.value);
      var dlq := ResolveDelayedQueue(resolver, l.deadLaterQueue);
      if dlq.Err? then Err(dlq.error)
      else
        var mapping := MappingInformation(
          queueNames,
          resolver.toBoolean(l.delayedQueue),
          resolver.toInteger(l.numRetries),
          dlq.value);
        assert forall name :: (name in mapping.queueNames
            <==> exists i :: 0 <= i < |l.value| && name in resolver.toArrayOfStrings(l.value[i])) by {
          forall name
            ensures name in mapping.queueNames
                <==> exists i :: 0 <= i < |l.value| && name in resolver.toArrayOfStrings(l.value[i])
          {
            QueueNameUnionMembers(resolver, l.value, name);
          }
        }
        if isValid(mapping) then Ok(Some(mapping)) else Ok(None)
  }
}
