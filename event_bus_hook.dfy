/** The event-bus hook: a component hook that publishes every lifecycle event
    of its component to the topic `vertigo.hooks.<address>.<event>`. The
    start event captures the component's address and instance context and
    publishes the context; message events publish the message id; the stop
    event publishes the context captured at start. Publishing is a log of
    (topic, payload) pairs; the instance context is its JSON form. */
module EventBusHooks {
  import opened Common
  import ComponentLifecycle

  const TOPIC_PREFIX: string := "vertigo.hooks."
  const NULL_POINTER: string := "NullPointerException"

  datatype HookEvent = Started | Stopped | OnMessage(event: ComponentLifecycle.MessageEvent)

  datatype Publication = Publication(topic: string, payload: Json)

  /** The last segment of an event's topic. */
  function EventName(e: HookEvent): (name: string)
    ensures |name| > 0 && '.' !in name
  {
    match e
    case Started => "start"
    case Stopped => "stop"
    case OnMessage(m) =>
      match m
      case Receive => "receive"
      case Ack => "ack"
      case Fail => "fail"
      case Emit => "emit"
      case Acked => "acked"
      case Failed => "failed"
      case Timeout => "timeout"
  }

  lemma EventNameInjective(e1: HookEvent, e2: HookEvent)
    requires EventName(e1) == EventName(e2)
    ensures e1 == e2
  {
  }

  /** `String.format("vertigo.hooks.%s.<event>", address)`. */
  function Topic(address: string, e: HookEvent): (t: string)
    ensures |t| == |TOPIC_PREFIX| + |address| + 1 + |EventName(e)|
    ensures t[..|TOPIC_PREFIX|] == TOPIC_PREFIX
    ensures t[|TOPIC_PREFIX|..|TOPIC_PREFIX| + |address|] == address
    ensures t[|t| - |EventName(e)| - 1] == '.'
    ensures t[|t| - |EventName(e)|..] == EventName(e)
  {
    TOPIC_PREFIX + address + "." + EventName(e)
  }

  /** Two equal topics end in event names of the same length: were one
      shorter, the dot before it would fall inside the longer one. */
  lemma {:induction false} SameNameLength(a1: string, e1: HookEvent, a2: string, e2: HookEvent)
    requires Topic(a1, e1) == Topic(a2, e2)
    ensures |EventName(e2)| <= |EventName(e1)|
  {
  }

  /** Distinct (address, event) pairs publish to distinct topics: event names
      hold no dot, so the text after the last dot names the event and the
      text before it the address. */
  lemma {:induction false} TopicInjective(a1: string, e1: HookEvent, a2: string, e2: HookEvent)
    requires Topic(a1, e1) == Topic(a2, e2)
    ensures a1 == a2 && e1 == e2
  {
    SameNameLength(a1, e1, a2, e2);
    SameNameLength(a2, e2, a1, e1);
    assert EventName(e1) == EventName(e2);
    EventNameInjective(e1, e2);
    assert |a1| == |a2|;
  }

  /** What a message event publishes: the message id, to the event's topic
      under the captured address. */
  function MessagePublication(address: string, event: ComponentLifecycle.MessageEvent, messageId: string): (p: Publication)
    ensures p.payload == JStr(messageId)
    ensures p.topic == Topic(address, OnMessage(event))
  {
    Publication(Topic(address, OnMessage(event)), JStr(messageId))
  }

  class EventBusHook {
    /** Captured by the start event; null before it. */
    var context: Option<Json>
    var address: Option<string>
    /** Everything published so far, in order. */
    var published: seq<Publication>

    predicate Valid()
      reads this
    {
      context.Some? <==> address.Some?
    }

    constructor ()
      ensures Valid() && context.None? && address.None? && published == []
    {
      context := None;
      address := None;
      published := [];
    }

    /** `handleStart`: captures the component's address and context, then
        publishes the context to the start topic. */
    method HandleStart(componentAddress: string, instanceContext: Json)
      modifies this
      ensures Valid()
      ensures address == Some(componentAddress) && context == Some(instanceContext)
      ensures published == old(published) + [Publication(Topic(componentAddress, Started), instanceContext)]
    {
      context := Some(instanceContext);
      address := Some(componentAddress);
      published := published + [Publication(Topic(componentAddress, Started), instanceContext)];
    }

    /** The seven message-event handlers; the event bus and address they use
        are the ones captured at start. Before start the event bus is still
        null and publishing throws, which the forwarding hooks can reach:
        they are installed during setup, before any start hook runs. */
    method HandleMessage(event: ComponentLifecycle.MessageEvent, messageId: string) returns (error: Option<string>)
      requires Valid()
      modifies this
      ensures Valid() && address == old(address) && context == old(context)
      ensures old(address).None? ==> error == Some(NULL_POINTER) && published == old(published)
      ensures old(address).Some? ==>
        error == None && published == old(published) + [MessagePublication(old(address).value, event, messageId)]
    {
      if address.None? {
        return Some(NULL_POINTER);
      }
      published := published + [MessagePublication(address.value, event, messageId)];
      error := None;
    }

    /** `handleStop`: the context captured at start, to the stop topic, whatever
        component is passed in; before start, the same null dereference. */
    method HandleStop() returns (error: Option<string>)
      requires Valid()
      modifies this
      ensures Valid() && address == old(address) && context == old(context)
      ensures old(address).None? ==> error == Some(NULL_POINTER) && published == old(published)
      ensures old(address).Some? ==>
        error == None && published == old(published) + [Publication(Topic(old(address).value, Stopped), old(context).value)]
    {
      if address.None? {
        return Some(NULL_POINTER);
      }
      published := published + [Publication(Topic(address.value, Stopped), context.value)];
      error := None;
    }
  }
}
