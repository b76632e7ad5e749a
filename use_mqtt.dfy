/**
 * The `useMqtt` hook of `src/hooks/use-mqtt.tsx`: the React state
 * (`isConnected`, `messages`, `error`, `subscribedTopics`) and the functions
 * the hook hands to components, driving the shared adapter.
 *
 * Each state setter call is an assignment to a field; each effect body and
 * each promise continuation is one method, run when React or the promise
 * would run it.
 */
module UseMqtt {
  import opened ClientConfig
  import opened BrokerLog
  import opened MqttClient
  import opened HookLists

  /** The error the hook shows. */
  datatype HookError =
    | HookNotConnected               // the hook's own `isConnected` check failed
    | FromAdapter(failure: Failure)  // what the adapter threw, or rejected the connect promise with

  /** A function the hook hands out that unregisters a message handler. */
  datatype Cleanup =
    | UnsubscribeFn(topic: Topic, handler: Listener)   // returned by `subscribe`; also unlists the topic
    | DefaultCleanup(topic: Topic, handler: Listener)  // cleanup of the default-topic effect

  class MqttHook {
    const adapter: Adapter
    const defaultTopic: Option<Topic>
    var isConnected: bool
    var messages: seq<MessageRecord>
    var error: Option<HookError>
    var subscribedTopics: seq<Topic>

    /** The history stays within its cap and the topic list free of duplicates. */
    ghost predicate Valid()
      reads this, adapter
    {
      && adapter.Valid()
      && |messages| <= HistoryLimit
      && NoDuplicates(subscribedTopics)
    }

    /** Whether the hook was given a default topic that is not empty. */
    predicate HasDefaultTopic()
    {
      defaultTopic.Some? && defaultTopic.value != ""
    }

    /** The initial `useState` values. */
    constructor (adapter: Adapter, defaultTopic: Option<Topic>)
      requires adapter.Valid()
      ensures Valid()
      ensures this.adapter == adapter && this.defaultTopic == defaultTopic
      ensures !isConnected && messages == [] && error == None
      ensures subscribedTopics == InitialTopics(defaultTopic)
    {
      this.adapter := adapter;
      this.defaultTopic := defaultTopic;
      isConnected := false;
      messages := [];
      error := None;
      subscribedTopics := InitialTopics(defaultTopic);
    }

    /**
     * The mount effect: `connectMqtt(brokerUrl, options)`. When the returned
     * promise is already settled, the code after `await` runs at once;
     * otherwise it runs in `ConnectSettled`.
     */
    method Mount(brokerUrl: string, options: ClientOptions, randomSuffix: string, libraryFailure: Option<string>)
      returns (call: ConnectCall)
      requires Valid()
      modifies this`isConnected, this`error, adapter`client, adapter`promises, adapter`nextHandle, adapter`log
      ensures Valid()
      ensures old(adapter.client).Some? ==> call == Reused(old(adapter.client).value)
      ensures old(adapter.client).None? && libraryFailure.Some? ==>
        call == Threw(TransportFailure(libraryFailure.value))
      ensures old(adapter.client).None? && libraryFailure.None? ==>
        call.Started? && adapter.client == Some(call.client) && adapter.promises[call.client] == Pending
      ensures adapter.subscribers == old(adapter.subscribers)
      ensures call.Reused? ==> isConnected && error == None
      ensures call.Threw? ==> !isConnected && error == Some(FromAdapter(call.failure))
      ensures call.Started? ==> isConnected == old(isConnected) && error == old(error)
      ensures call.Started? ==>
        && adapter.promises == old(adapter.promises)[call.client := Pending]
        && adapter.log == old(adapter.log) + [Connect(call.client, brokerUrl, EffectiveOptions(randomSuffix, options))]
      ensures !call.Started? ==> unchanged(adapter)
    {
      call := adapter.ConnectMqtt(brokerUrl, options, randomSuffix, libraryFailure);
      match call
      case Reused(_) =>
        isConnected := true;
        error := None;
      case Threw(failure) =>
        error := Some(FromAdapter(failure));
        isConnected := false;
      case Started(_) =>
    }

    /**
     * The code after `await connectMqtt(...)`, once client `h`'s promise has
     * settled: connected on resolution (whatever it resolved with), the
     * rejection shown as the error otherwise.
     */
    method ConnectSettled(h: Handle)
      requires Valid()
      modifies this`isConnected, this`error
      ensures Valid()
      ensures h in adapter.promises && adapter.promises[h].Resolved? ==> isConnected && error == None
      ensures h in adapter.promises && adapter.promises[h].Rejected? ==>
        !isConnected && error == Some(FromAdapter(adapter.promises[h].failure))
      ensures h !in adapter.promises || adapter.promises[h].Pending? ==>
        isConnected == old(isConnected) && error == old(error)
    {
      if h in adapter.promises {
        match adapter.promises[h]
        case Resolved(_) =>
          isConnected := true;
          error := None;
        case Rejected(failure) =>
          error := Some(FromAdapter(failure));
          isConnected := false;
        case Pending =>
      }
    }

    /** The mount effect's cleanup: `disconnectMqtt()`. */
    method Unmount() returns (ending: bool)
      requires Valid()
      modifies adapter`log
      ensures Valid()
      ensures ending == old(adapter.client).Some?
      ensures adapter.log == old(adapter.log) + if ending then [End] else []
    {
      ending := adapter.DisconnectMqtt();
    }

    /**
     * The default-topic effect: once connected, with a non-empty default
     * topic, registers `handler`, a handler created for this run, for it; a
     * throw becomes the error.
     */
    method SubscribeDefault(handler: Listener) returns (cleanup: Option<Cleanup>)
      requires Valid()
      requires Unregistered(adapter.subscribers, handler)
      modifies this`error, adapter`subscribers, adapter`log
      ensures Valid()
      ensures cleanup == if isConnected && HasDefaultTopic() then Some(DefaultCleanup(defaultTopic.value, handler)) else None
      ensures adapter.subscribers ==
        if cleanup.Some? && old(adapter.client).Some? then AddListener(old(adapter.subscribers), defaultTopic.value, handler)
        else old(adapter.subscribers)
      ensures cleanup.Some? && old(adapter.client).Some? ==>
        |ListenersOf(adapter.subscribers, defaultTopic.value)| == |ListenersOf(old(adapter.subscribers), defaultTopic.value)| + 1
      ensures adapter.log ==
        if cleanup.Some? && old(adapter.client).Some? && FirstListener(old(adapter.subscribers), defaultTopic.value)
        then old(adapter.log) + [Action.Subscribe(defaultTopic.value)]
        else old(adapter.log)
      ensures error == if cleanup.Some? && old(adapter.client).None? then Some(FromAdapter(NotConnected)) else old(error)
    {
      if isConnected && HasDefaultTopic() {
        var outcome := adapter.SubscribeTopic(defaultTopic.value, handler);
        if outcome.Thrown? {
          error := Some(FromAdapter(outcome.failure));
        }
        cleanup := Some(DefaultCleanup(defaultTopic.value, handler));
      } else {
        cleanup := None;
      }
    }

    /**
     * `subscribe(topic)` with the message handler it creates, which is
     * registered for no topic yet. Not connected:
     * only the error is set and nothing is returned. Connected: the handler is
     * registered and the topic listed if absent; a throw from the adapter
     * becomes the error and leaves the list alone. The unsubscribe function
     * is returned either way.
     */
    method Subscribe(topic: Topic, handler: Listener) returns (cleanup: Option<Cleanup>)
      requires Valid()
      requires Unregistered(adapter.subscribers, handler)
      modifies this`error, this`subscribedTopics, adapter`subscribers, adapter`log
      ensures Valid()
      ensures cleanup == if isConnected then Some(UnsubscribeFn(topic, handler)) else None
      ensures !isConnected ==>
        && error == Some(HookNotConnected)
        && subscribedTopics == old(subscribedTopics)
        && adapter.subscribers == old(adapter.subscribers)
        && adapter.log == old(adapter.log)
      ensures isConnected && old(adapter.client).Some? ==>
        && error == old(error)
        && subscribedTopics == AddTopic(old(subscribedTopics), topic)
        && adapter.subscribers == AddListener(old(adapter.subscribers), topic, handler)
        && |ListenersOf(adapter.subscribers, topic)| == |ListenersOf(old(adapter.subscribers), topic)| + 1
        && adapter.log == old(adapter.log) + if FirstListener(old(adapter.subscribers), topic) then [Action.Subscribe(topic)] else []
      ensures isConnected && old(adapter.client).None? ==>
        && error == Some(FromAdapter(NotConnected))
        && subscribedTopics == old(subscribedTopics)
        && adapter.subscribers == old(adapter.subscribers)
        && adapter.log == old(adapter.log)
    {
      if !isConnected {
        error := Some(HookNotConnected);
        cleanup := None;
        return;
      }
      var outcome := adapter.SubscribeTopic(topic, handler);
      if outcome.Done? {
        subscribedTopics := AddTopic(subscribedTopics, topic);
      } else {
        error := Some(FromAdapter(outcome.failure));
      }
      cleanup := Some(UnsubscribeFn(topic, handler));
    }

    /**
     * Calling a cleanup: unregisters its handler, and for the function
     * `subscribe` returned also drops every occurrence of its topic from the
     * list, whether or not the adapter still has a client.
     */
    method RunCleanup(cleanup: Cleanup)
      requires Valid()
      modifies this`subscribedTopics, adapter`subscribers, adapter`log
      ensures Valid()
      ensures adapter.subscribers ==
        if old(adapter.client).Some? then RemoveListener(old(adapter.subscribers), cleanup.topic, cleanup.handler)
        else old(adapter.subscribers)
      ensures adapter.log ==
        if old(adapter.client).Some? && LastListener(old(adapter.subscribers), cleanup.topic, cleanup.handler)
        then old(adapter.log) + [Unsubscribe(cleanup.topic)]
        else old(adapter.log)
      ensures subscribedTopics ==
        if cleanup.UnsubscribeFn? then RemoveTopic(old(subscribedTopics), cleanup.topic) else old(subscribedTopics)
    {
      adapter.UnsubscribeTopic(cleanup.topic, cleanup.handler);
      if cleanup.UnsubscribeFn? {
        RemoveTopicKeepsNoDuplicates(subscribedTopics, cleanup.topic);
        subscribedTopics := RemoveTopic(subscribedTopics, cleanup.topic);
      }
    }

    /** Any of the hook's message handlers, called with `(message, topic)` at time `now`. */
    method HandleMessage(message: Payload, topic: Topic, now: int)
      requires Valid()
      modifies this`messages
      ensures Valid()
      ensures messages == Receive(old(messages), MessageRecord(topic, message, now))
    {
      messages := Receive(messages, MessageRecord(topic, message, now));
    }

    /**
     * `publish(topic, message)`: true exactly when the hook believes it is
     * connected and the adapter publishes; otherwise false with the error set.
     */
    method Publish(topic: Topic, message: Payload) returns (ok: bool)
      requires Valid()
      modifies this`error, adapter`log
      ensures Valid()
      ensures ok == (isConnected && old(adapter.client).Some?)
      ensures adapter.log == old(adapter.log) + if ok then [Action.Publish(topic, message)] else []
      ensures error ==
        if ok then old(error)
        else if !isConnected then Some(HookNotConnected)
        else Some(FromAdapter(NotConnected))
    {
      if !isConnected {
        error := Some(HookNotConnected);
        return false;
      }
      var outcome := adapter.PublishMessage(topic, message);
      if outcome.Thrown? {
        error := Some(FromAdapter(outcome.failure));
        return false;
      }
      return true;
    }

    /** `clearMessages()`: empties the history and nothing else. */
    method ClearMessages()
      requires Valid()
      modifies this`messages
      ensures Valid()
      ensures messages == []
    {
      messages := [];
    }
  }

  /** Subscribing twice to one topic lists it once, after the default topic. */
  method SubscribeTwiceListsOnce() returns (topics: seq<Topic>)
    ensures topics == ["home", "x"]
  {
    var adapter := new Adapter();
    var hook := new MqttHook(adapter, Some("home"));
    var call := hook.Mount("u", NoOptions, "0", None);
    assert call.Started? && adapter.promises[call.client] == Pending;
    adapter.OnConnect(call.client);
    hook.ConnectSettled(call.client);
    assert hook.isConnected && adapter.client.Some? && adapter.subscribers == map[];
    assert hook.subscribedTopics == ["home"];
    var first := hook.Subscribe("x", 1);
    assert hook.subscribedTopics == ["home", "x"];
    assert ListenersOf(adapter.subscribers, "x") == {1} && Unregistered(adapter.subscribers, 2);
    var second := hook.Subscribe("x", 2);
    topics := hook.subscribedTopics;
  }

  /** Publishing before the connection is up returns false and publishes nothing. */
  method PublishBeforeConnect() returns (ok: bool, shown: Option<HookError>)
    ensures !ok && shown == Some(HookNotConnected)
  {
    var adapter := new Adapter();
    var hook := new MqttHook(adapter, None);
    ok := hook.Publish("x", "m");
    shown := hook.error;
  }
}
