/** The ordered converter list of RqueueMessageHandler: both constructors,
    addDefaultMessageConverter, setMessageConverters and getMessageConverters. */
module Converters {
  import opened Values

  /** A caller-owned, mutable java.util.List<MessageConverter>. The handler
      keeps the very list it is given, so later additions are visible to the
      caller, and the caller's later changes to the handler. */
  class ConverterList {
    var items: seq<MessageConverter>

    constructor (items: seq<MessageConverter>)
      ensures this.items == items
    {
      this.items := items;
    }

    /** List.add: appends at the end. */
    method Add(converter: MessageConverter)
      modifies this
      ensures items == old(items) + [converter]
    {
      items := items + [converter];
    }
  }

  /** CollectionUtils.isEmpty: null or without elements. */
  predicate IsEmpty(list: ConverterList?)
    reads list
  {
    list == null || |list.items| == 0
  }

  /** The text of the exception setMessageConverters throws. */
  const EMPTY_CONVERTERS_ERROR := "messageConverters list can not be empty or null"

  /** The converter list as a configured handler holds it: the given converters
      in their order, followed by the generic converter the handler appends. */
  function WithDefaultConverter(converters: seq<MessageConverter>): seq<MessageConverter>
  {
    converters + [GenericMessageConverter]
  }

  /** The user's converters keep their order and precede the generic one,
      which is last and occurs once more than among the user's converters. */
  lemma DefaultConverterIsLast(converters: seq<MessageConverter>)
    ensures |WithDefaultConverter(converters)| == |converters| + 1
    ensures WithDefaultConverter(converters)[..|converters|] == converters
    ensures WithDefaultConverter(converters)[|converters|] == GenericMessageConverter
    ensures multiset(WithDefaultConverter(converters))[GenericMessageConverter]
         == multiset(converters)[GenericMessageConverter] + 1
  {
  }

  class RqueueMessageHandler {
    /** Null only while the list-taking constructor has not yet stored a list. */
    var messageConverters: ConverterList?

    /** The handler's converter list is configured: present, and ending with the
        generic converter. Callers that alias the list can break this later. */
    ghost predicate Valid()
      reads this, messageConverters
    {
      messageConverters != null
      && |messageConverters.items| >= 1
      && messageConverters.items[|messageConverters.items| - 1] == GenericMessageConverter
    }

    /** The no-argument constructor: a new list holding only the generic converter. */
    constructor ()
      ensures Valid()
      ensures messageConverters != null && fresh(messageConverters)
      ensures messageConverters.items == WithDefaultConverter([])
    {
      messageConverters := new ConverterList([]);
      new;
      AddDefaultMessageConverter();
    }

    /** The state of an object of this class inside the list-taking
        constructor, before it calls setMessageConverters. It exists only as
        the first step of Create; no Java caller can observe this state, so
        clients use Create or the no-argument constructor. */
    constructor Unconfigured()
      ensures messageConverters == null
    {
      messageConverters := null;
    }

    /** The list-taking constructor, which calls setMessageConverters and so
        fails with IllegalArgumentException on a null or empty list. */
    static method Create(converters: ConverterList?) returns (r: Result<RqueueMessageHandler>)
      modifies converters
      ensures r.Err? <==> old(IsEmpty(converters))
      ensures r.Err? ==> r.error == IllegalArgumentException(EMPTY_CONVERTERS_ERROR)
      ensures r.Err? && converters != null ==> converters.items == old(converters.items)
      ensures r.Ok? ==> fresh(r.value) && r.value.Valid()
      ensures r.Ok? ==> r.value.messageConverters == converters
      ensures r.Ok? ==> converters.items == WithDefaultConverter(old(converters.items))
    {
      var handler := new RqueueMessageHandler.Unconfigured();
      var outcome := handler.SetMessageConverters(converters);
      if outcome.Err? {
        r := Err(outcome.error);
      } else {
        r := Ok(handler);
      }
    }

    /** addDefaultMessageConverter: appends a generic converter to the stored list. */
    method AddDefaultMessageConverter()
      requires messageConverters != null
      modifies messageConverters
      ensures messageConverters.items == WithDefaultConverter(old(messageConverters.items))
    {
      messageConverters.Add(GenericMessageConverter);
    }

    /** getMessageConverters: the stored list itself, not a copy. */
    function GetMessageConverters(): (r: ConverterList?)
      reads this, messageConverters
      // the very list the handler converts with, so changes through it are shared
      ensures r == messageConverters
      // on a configured handler it ends with the generic converter
      ensures Valid() ==> r != null && |r.items| >= 1 && r.items[|r.items| - 1] == GenericMessageConverter
    {
      messageConverters
    }

    /** setMessageConverters: rejects a null or empty list before storing
        anything; otherwise stores the caller's list and appends the generic
        converter to it in place. */
    method SetMessageConverters(converters: ConverterList?) returns (r: Result<Unit>)
      modifies this, converters
      ensures r.Err? <==> old(IsEmpty(converters))
      ensures r.Err? ==> r.error == IllegalArgumentException(EMPTY_CONVERTERS_ERROR)
      ensures r.Err? ==> messageConverters == old(messageConverters)
      ensures r.Err? && converters != null ==> converters.items == old(converters.items)
      ensures r.Ok? ==> Valid() && messageConverters == converters
      ensures r.Ok? ==> converters.items == WithDefaultConverter(old(converters.items))
    {
      if IsEmpty(converters) {
        return Err(IllegalArgumentException(EMPTY_CONVERTERS_ERROR));
      }
      messageConverters := converters;
      AddDefaultMessageConverter();
      r := Ok(Unit);
    }
  }

  /** The converter chain a handler built by the no-argument constructor hands
      out through getMessageConverters (and so to initArgumentResolvers). */
  method DefaultHandlerConverters() returns (chain: seq<MessageConverter>)
    ensures chain == [GenericMessageConverter]
  {
    var handler := new RqueueMessageHandler();
    var list := handler.GetMessageConverters();
    chain := list.items;
  }

  /** The converter chain a handler built by the list-taking constructor from
      `given` hands out through getMessageConverters: construction fails on an
      empty list, and otherwise the chain is `given` followed by the generic
      converter. */
  method ConfiguredHandlerConverters(given: seq<MessageConverter>) returns (r: Result<seq<MessageConverter>>)
    ensures r.Err? <==> |given| == 0
    ensures r.Err? ==> r.error == IllegalArgumentException(EMPTY_CONVERTERS_ERROR)
    ensures r.Ok? ==> |r.value| == |given| + 1 && r.value[..|given|] == given
    ensures r.Ok? ==> r.value[|given|] == GenericMessageConverter
  {
    var list := new ConverterList(given);
    var created := RqueueMessageHandler.Create(list);
    if created.Err? {
      r := Err(created.error);
    } else {
      var stored := created.value.GetMessageConverters();
      r := Ok(stored.items);
      DefaultConverterIsLast(given);
    }
  }

  /** setMessageConverters followed by getMessageConverters on an existing
      handler: on success the getter returns the caller's list, extended by the
      generic converter, and a previously stored other list is left alone; on
      failure the getter returns what it returned before. */
  method SetThenGet(handler: RqueueMessageHandler, converters: ConverterList?)
    returns (outcome: Result<Unit>, chain: ConverterList?)
    modifies handler, converters
    ensures outcome.Err? <==> old(IsEmpty(converters))
    ensures outcome.Ok? ==> chain == converters && chain != null
    ensures outcome.Ok? ==> chain.items == WithDefaultConverter(old(converters.items))
    ensures outcome.Ok? && old(handler.GetMessageConverters()) != null && old(handler.GetMessageConverters()) != converters
      ==> old(handler.GetMessageConverters()).items == old(handler.GetMessageConverters().items)
    ensures outcome.Err? ==> chain == old(handler.GetMessageConverters())
  {
    outcome := handler.SetMessageConverters(converters);
    chain := handler.GetMessageConverters();
  }
}
