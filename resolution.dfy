/** Resolution of the expressions an @RqueueListener annotation declares
    (RqueueMessageHandler.resolveQueueNames and resolveDelayedQueue). */
module Resolution {
  import opened Values

  /** The io.rqueue.utils.ValueResolver entry points, bound to the application
      context. Placeholder and property resolution are external, so each entry
      point is an arbitrary total function of the expression. */
  datatype ValueResolver = ValueResolver(
    toArrayOfStrings: string -> seq<string>,
    toBoolean: string -> bool,
    toInteger: string -> int)

  /** The distinct strings of a resolved array (Arrays.asList added into a set). */
  function Distinct(values: seq<string>): set<string>
  {
    set name | name in values
  }

  /** The set of queue names a sequence of declared expressions stands for:
      what the first |exprs| - 1 expressions stand for, plus every string the
      last one resolves to. */
  function QueueNameUnion(resolver: ValueResolver, exprs: seq<string>): set<string>
  {
    if |exprs| == 0 then {}
    else
      QueueNameUnion(resolver, exprs[..|exprs| - 1])
        + Distinct(resolver.toArrayOfStrings(exprs[|exprs| - 1]))
  }

  /** A name is in the union exactly when some declared expression resolves to it. */
  lemma {:induction false} QueueNameUnionMembers(resolver: ValueResolver, exprs: seq<string>, name: string)
    ensures name in QueueNameUnion(resolver, exprs)
        <==> exists i :: 0 <= i < |exprs| && name in resolver.toArrayOfStrings(exprs[i])
  {
    if |exprs| > 0 {
      var prefix := exprs[..|exprs| - 1];
      QueueNameUnionMembers(resolver, prefix, name);
      assert forall i :: 0 <= i < |prefix| ==> prefix[i] == exprs[i];
    }
  }

  /** The union depends only on which expressions are declared: neither their
      order nor repetitions among them change it. */
  lemma {:induction false} QueueNameUnionIgnoresOrder(resolver: ValueResolver, exprs1: seq<string>, exprs2: seq<string>)
    requires forall e :: e in exprs1 <==> e in exprs2
    ensures QueueNameUnion(resolver, exprs1) == QueueNameUnion(resolver, exprs2)
  {
    forall name
      ensures name in QueueNameUnion(resolver, exprs1) <==> name in QueueNameUnion(resolver, exprs2)
    {
      QueueNameUnionMembers(resolver, exprs1, name);
      QueueNameUnionMembers(resolver, exprs2, name);
      if name in QueueNameUnion(resolver, exprs1) {
        var i :| 0 <= i < |exprs1| && name in resolver.toArrayOfStrings(exprs1[i]);
        assert exprs1[i] in exprs2;
        var j :| 0 <= j < |exprs2| && exprs2[j] == exprs1[i];
      }
      if name in QueueNameUnion(resolver, exprs2) {
        var j :| 0 <= j < |exprs2| && name in resolver.toArrayOfStrings(exprs2[j]);
        assert exprs2[j] in exprs1;
        var i :| 0 <= i < |exprs1| && exprs1[i] == exprs2[j];
      }
    }
  }

  /** resolveQueueNames: collects into a fresh set every string that each
      declared expression resolves to. */
  method ResolveQueueNames(resolver: ValueResolver, queueNames: seq<string>) returns (result: set<string>)
    ensures result == QueueNameUnion(resolver, queueNames)
    ensures forall name :: (name in result
        <==> exists i :: 0 <= i < |queueNames| && name in resolver.toArrayOfStrings(queueNames[i]))
    ensures |queueNames| == 0 ==> result == {}
  {
    result := {};
    var k := 0;
    while k < |queueNames|
      invariant 0 <= k <= |queueNames|
      invariant result == QueueNameUnion(resolver, queueNames[..k])
    {
      var resolved := resolver.toArrayOfStrings(queueNames[k]);
      result := result + Distinct(resolved);
      assert queueNames[..k + 1][..k] == queueNames[..k];
      k := k + 1;
    }
    assert queueNames[..k] == queueNames;
    forall name
      ensures name in result
          <==> exists i :: 0 <= i < |queueNames| && name in resolver.toArrayOfStrings(queueNames[i])
    {
      QueueNameUnionMembers(resolver, queueNames, name);
    }
  }

  /** The text of the exception resolveDelayedQueue throws. */
  function DeadLetterQueueError(dlqName: string): string
  {
    "more than one dead later queue can not be configure '" + dlqName + "'"
  }

  /** resolveDelayedQueue: the dead-letter-queue expression must resolve to
      exactly one string; zero strings fail just as two or more do. */
  function ResolveDelayedQueue(resolver: ValueResolver, dlqName: string): (r: Result<string>)
    ensures r.Ok? <==> |resolver.toArrayOfStrings(dlqName)| == 1
    ensures r.Ok? ==> resolver.toArrayOfStrings(dlqName) == [r.value]
    ensures r.Err? ==> r.error == IllegalStateException(DeadLetterQueueError(dlqName))
  {
    var resolvedValues := resolver.toArrayOfStrings(dlqName);
    if |resolvedValues| == 1 then Ok(resolvedValues[0])
    else Err(IllegalStateException(DeadLetterQueueError(dlqName)))
  }
}
