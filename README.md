# MQTT client adapter and `useMqtt` hook: a Dafny model

This project models the core of a small browser UI for an MQTT broker.
The model has two parts.

The first part is the shared-connection adapter in `src/lib/mqtt-client.ts`.
It keeps one nullable library client for every caller and a registry from topic to the set of listener callbacks.
The broker is asked to subscribe only when a topic gets its first listener.
It is asked to unsubscribe only when the topic loses its last listener.
Each inbound message goes to the listeners of exactly its topic.

The second part is the `useMqtt` React hook in `src/hooks/use-mqtt.tsx`.
It holds the connection flag, a newest-first message history capped at 100 records, the last error, and a duplicate-free list of subscribed topics.

Files and modules:

- `client_config.dfy` (`ClientConfig`): the connection options and their merge with the adapter's defaults (`clientId: "web_client_" + random`, `clean: true`, `reconnectPeriod: 3000`).
- `broker_log.dfy` (`BrokerLog`): the actions the adapter asks of the MQTT library (`Connect`, `Subscribe`, `Unsubscribe`, `Publish`, `End`). It also holds a per-topic tracker `Track` that detects a double subscribe or a stray unsubscribe. `TrackIsAlternation` proves the tracker equal to an independent definition: the broker calls for a topic alternate, starting with a subscribe.
- `mqtt_client.dfy` (`MqttClient`): the pure registry updates `AddListener` and `RemoveListener`, and the class `Adapter`. The class holds the module state (`client`, `subscribers`), the connect promises, and a ghost `log` of library requests. Its invariant `Valid()` says two things. Every registry key has a listener. Since the registry was last cleared, the subscribe and unsubscribe requests for each topic leave it requested exactly when it is a key. Those requests are not tagged with a client, so after a `close` and a reconnect they include ones sent to the earlier client object. Each operation and each library event (`connect`, `error`, `message`, `close`, completion of `end`) is a method. A few client methods replay end-to-end usage scenarios.
- `hook_lists.dfy` (`HookLists`): the hook's pure list updates. These are the capped prepend `Receive`, adding a topic only when absent (`AddTopic`), and the filter that drops a topic (`RemoveTopic`), together with their lemmas.
- `use_mqtt.dfy` (`UseMqtt`): the class `MqttHook`. Its fields are the hook's state, and its methods are the hook's functions and effects. They call the adapter and the pure functions above.

Listener callbacks are modelled as opaque numeric identities, because JavaScript compares functions by reference.
The MQTT library is modelled only through the requests made of it (the ghost log) and through the events it raises, which are methods it calls.
Three things that cannot be computed here are parameters instead: the random client-id suffix, the current time, and whether the library throws while creating a client.
The message handler the hook creates on each `subscribe` call and each run of the default-topic effect (`src/hooks/use-mqtt.tsx:52`, `src/hooks/use-mqtt.tsx:78`) is a parameter too. Because it is a new closure, `Subscribe` and `SubscribeDefault` require that it is registered for no topic (`Unregistered`).

The model follows the code, including where it behaves differently from what a reader might expect:

- A `close` event forgets the client but keeps the registry (`src/lib/mqtt-client.ts:57-60`), although the broker session those subscriptions were made on is gone. As a result, after a close `unsubscribeTopic` does nothing. After a reconnect, a new listener on a topic registered before the close issues no broker subscribe on the new client. `RegistrySurvivesClose` and `UnsubscribeAfterClose` show both.
- `connectMqtt` hands back any existing client, even one that never connected or whose connection failed (`src/lib/mqtt-client.ts:19-22`).
- An `error` event rejects the connect promise but keeps the client (`src/lib/mqtt-client.ts:41-44`), so the failed client is what later calls reuse.
- `subscribeTopic` and `publishMessage` check only that a client object exists, not that it is connected.
- The hook's `isConnected` flag never drops after a `close` event, because the hook does not listen for it.

## Model

| member | source | states |
|---|---|---|
| ClientConfig.EffectiveOptions | src/lib/mqtt-client.ts:25-30 | each caller-supplied option overrides its default; absent keys take `clientId = "web_client_" + random`, `clean = true`, `reconnectPeriod = 3000`; the three are always set |
| ClientConfig.NoOptionsGiveDefaults | src/lib/mqtt-client.ts:15-30 | with the default `{}` options a new connection uses exactly the adapter's defaults |
| BrokerLog.TrackIsAlternation | src/lib/mqtt-client.ts:82-121 | the tracker reports no double call iff the broker subscribe/unsubscribe calls for a topic alternate starting with a subscribe, and then the topic is subscribed iff their number is odd |
| BrokerLog.SubscribesAreSeparated | src/lib/mqtt-client.ts:82-93 | in a log without double calls, two broker subscribes for one topic always have an unsubscribe for it between them |
| MqttClient.AddListener | src/lib/mqtt-client.ts:82-98 | the topic becomes a key holding the listener; other topics' entries are untouched; adding a present listener changes nothing; non-empty entries stay non-empty |
| MqttClient.RemoveListener | src/lib/mqtt-client.ts:112-122 | the listener is gone; the key disappears iff no listener remains; an absent topic, or an unregistered listener among others, changes nothing; other topics are untouched |
| MqttClient.RemoveUndoesAdd | src/lib/mqtt-client.ts:82-122 | unsubscribing a listener that subscribing had just added restores the registry exactly |
| MqttClient.AddListenerTracks | src/lib/mqtt-client.ts:82-98 | registering a listener, with a broker subscribe exactly when it is the topic's first, keeps every topic subscribed at the broker iff it is a key, with no double call |
| MqttClient.RemoveListenerTracks | src/lib/mqtt-client.ts:112-122 | removing a listener, with a broker unsubscribe exactly when it was the topic's last, keeps every topic subscribed at the broker iff it is a key, with no double call |
| MqttClient.DispatchStep | src/lib/mqtt-client.ts:51-53 | calling one not-yet-called registered listener keeps the dispatch invariant: every called listener is registered and called once with `(payload, topic)`, and the called and pending listeners together are all registered ones |
| MqttClient.Adapter.constructor | src/lib/mqtt-client.ts:4-5 | no client, empty registry, empty library log, invariant established |
| MqttClient.Adapter.RegistryMatchesRequests | src/lib/mqtt-client.ts:82-121 | under the invariant, a topic's subscribe and unsubscribe requests since the last registry clear (possibly sent to an earlier client) alternate, and it is a key iff their count is odd |
| MqttClient.Adapter.ConnectMqtt | src/lib/mqtt-client.ts:13-35 | an existing client is returned with no state change and no `Connect`; otherwise one `Connect` with the merged options, a fresh client, a pending promise; a library throw rejects and changes nothing |
| MqttClient.Adapter.OnConnect | src/lib/mqtt-client.ts:36-39 | a pending connect promise resolves with the module's current client; a settled one is untouched |
| MqttClient.Adapter.OnError | src/lib/mqtt-client.ts:41-44 | a pending connect promise is rejected; the client and the registry are not touched |
| MqttClient.Adapter.OnMessage | src/lib/mqtt-client.ts:46-55 | exactly the listeners registered for the topic are invoked, each once, with `(payload, topic)`; an unknown topic reaches nobody; no state changes |
| MqttClient.Adapter.OnClose | src/lib/mqtt-client.ts:57-60 | the client becomes null; registry and everything else unchanged |
| MqttClient.Adapter.SubscribeTopic | src/lib/mqtt-client.ts:73-99 | throws and changes nothing without a client; otherwise the registry gains the listener and one broker `Subscribe` is logged iff the topic was not a key; the invariant is kept |
| MqttClient.Adapter.UnsubscribeTopic | src/lib/mqtt-client.ts:106-123 | no-op without a client; otherwise the listener is removed and one broker `Unsubscribe` is logged iff its set empties; the invariant is kept |
| MqttClient.Adapter.PublishMessage | src/lib/mqtt-client.ts:130-137 | throws and logs nothing without a client; otherwise exactly one `Publish(topic, message)` and nothing else changes |
| MqttClient.Adapter.DisconnectMqtt | src/lib/mqtt-client.ts:142-149 | no-op without a client; otherwise exactly one `End` request and the promise waits for completion |
| MqttClient.Adapter.OnEndComplete | src/lib/mqtt-client.ts:149-154 | the client is null and the registry empty, with no broker unsubscribes |
| MqttClient.DeliverToSubscriber | src/lib/mqtt-client.ts:46-55 | connect, subscribe `a/b` with L1, message `hello` on `a/b`: L1 is invoked exactly once with `("hello", "a/b")` |
| MqttClient.FanOutAfterPartialUnsubscribe | src/lib/mqtt-client.ts:106-122 | L1 and L2 on `x`, L1 removed: a message on `x` reaches only L2 |
| MqttClient.SubscribeThenUnsubscribe | src/lib/mqtt-client.ts:82-121 | one listener added and removed: after connecting, the library is asked for exactly one subscribe and then one unsubscribe, and the next message reaches nobody |
| MqttClient.PublishAfterDisconnect | src/lib/mqtt-client.ts:130-155 | after a completed disconnect the registry is empty and publishing throws "not connected" |
| MqttClient.RegistrySurvivesClose | src/lib/mqtt-client.ts:57-60 | after `close` and a reconnect, a second listener on a registered topic causes no request of the new client, and a message reaches both listeners |
| MqttClient.ReuseAfterError | src/lib/mqtt-client.ts:19-44 | after an `error` event the promise is rejected, yet the next `connectMqtt` returns the same client without a new `Connect` |
| MqttClient.UnsubscribeAfterClose | src/lib/mqtt-client.ts:106-110 | after `close`, unsubscribing leaves the listener registered and it still hears its topic |
| HookLists.Receive | src/hooks/use-mqtt.tsx:53-56 | the new record is first, the rest is a prefix of the previous history, length is `min(prev+1, 100)`, and nothing is dropped below the cap |
| HookLists.ReceiveAllKeepsNewest | src/hooks/use-mqtt.tsx:78-82 | after any run of messages the history is the newest 100 of all records seen, newest first |
| HookLists.InitialTopics | src/hooks/use-mqtt.tsx:19 | the list starts as `[defaultTopic]` when it is given and non-empty, else `[]` |
| HookLists.AddTopic | src/hooks/use-mqtt.tsx:87-90 | the old list is a prefix of the new one, the topic is listed, it is added only when absent, and a duplicate-free list stays duplicate-free |
| HookLists.RemoveTopic | src/hooks/use-mqtt.tsx:98 | the result holds every other topic as often as before and the removed topic not at all |
| HookLists.RemoveTopicKeepsNoDuplicates | src/hooks/use-mqtt.tsx:98 | filtering a duplicate-free list keeps it duplicate-free |
| HookLists.RemoveTopicDistributes | src/hooks/use-mqtt.tsx:98 | filtering commutes with concatenation, so the rest keep their relative order |
| HookLists.RemoveAbsentTopic | src/hooks/use-mqtt.tsx:98 | filtering out an unlisted topic leaves the list as it was |
| HookLists.RemoveUndoesAddTopic | src/hooks/use-mqtt.tsx:87-98 | unsubscribing after subscribing gives the filtered original list, which is the original when the topic was absent |
| UseMqtt.MqttHook.constructor | src/hooks/use-mqtt.tsx:16-19 | not connected, no messages, no error, the initial topic list; invariant established |
| UseMqtt.MqttHook.Mount | src/hooks/use-mqtt.tsx:22-40 | connects through the adapter: an existing client is reused, or a library throw happens, with the adapter unchanged; otherwise one `Connect` with the merged options is requested and a pending promise recorded. A reused client sets connected and clears the error; a throw sets the error and clears connected |
| UseMqtt.MqttHook.ConnectSettled | src/hooks/use-mqtt.tsx:26-37 | a resolved connect promise sets connected and clears the error; a rejected one sets the error and not connected; a pending one changes nothing |
| UseMqtt.MqttHook.Unmount | src/hooks/use-mqtt.tsx:43-46 | calls `disconnectMqtt`: one `End` request iff the adapter has a client; the adapter's client, promises and registry are untouched until `end` completes |
| UseMqtt.MqttHook.SubscribeDefault | src/hooks/use-mqtt.tsx:50-68 | only when connected with a non-empty default topic: registers the newly created handler, so the topic's listener set grows by exactly one, with a broker `Subscribe` iff the topic was not a key; a throw becomes the error; the adapter's client and promises are untouched |
| UseMqtt.MqttHook.Subscribe | src/hooks/use-mqtt.tsx:72-100 | not connected: sets the error, no registry call, list unchanged, no cleanup. Connected: registers the newly created handler (the topic's listener set grows by exactly one, with a broker `Subscribe` iff the topic was not a key) and lists the topic if absent, or on a throw sets the error and changes nothing else; the cleanup is returned |
| UseMqtt.MqttHook.RunCleanup | src/hooks/use-mqtt.tsx:96-99 | unregisters the handler through the adapter, with a broker `Unsubscribe` iff it was the topic's last listener, and, for `subscribe`'s cleanup, drops every occurrence of the topic |
| UseMqtt.MqttHook.HandleMessage | src/hooks/use-mqtt.tsx:78-83 | the history becomes `Receive(old history, {topic, message, now})` and stays within 100 |
| UseMqtt.MqttHook.Publish | src/hooks/use-mqtt.tsx:103-116 | returns true iff connected and the adapter has a client, with exactly one `Publish` logged; otherwise false with the error set; the adapter's client, promises and registry are untouched |
| UseMqtt.MqttHook.ClearMessages | src/hooks/use-mqtt.tsx:119-121 | the history is empty; no other state changes |
| UseMqtt.SubscribeTwiceListsOnce | src/hooks/use-mqtt.tsx:87-90 | default topic `home`, two subscribes to `x`: the list is `["home", "x"]` |
| UseMqtt.PublishBeforeConnect | src/hooks/use-mqtt.tsx:104-107 | publishing before the connection is up returns false and sets the hook's not-connected error |

## Left out

- MqttClient.Adapter.OnMessage: listeners are invoked in an unspecified order. A JavaScript `Set` iterates in insertion order, and the model does not record that order.
- Reentrancy is not modelled: a callback that subscribes or unsubscribes while a dispatch is running is not covered, because callbacks are opaque.
- ClientConfig.EffectiveOptions: only the keys `clientId`, `clean`, `reconnectPeriod`, `username` and `password` are tracked. Other library options pass through unseen. An explicit `undefined` value, which overrides a default in a JavaScript spread, is not modelled.
- MqttClient.Adapter.ConnectMqtt: the random suffix is any string. Its shape, up to eight hexadecimal digits, is not constrained.
- The MQTT wire protocol, the library's own reconnect timing, and subscribe acknowledgements are not modelled. The acknowledgement callback only logs.
- Console logging is not modelled.
- Events of a client object other than the current one are only partly modelled. `connect` and `error` name their client. `close` and `message` act on the module state whichever client raised them, as in the source.
- Promise scheduling and React effect scheduling are not modelled. Each continuation runs as one atomic method.
- The hook's `mounted` flag is not modelled. So `ConnectSettled` after `Unmount` still updates the state.
- Effects re-running when their dependencies change is not modelled.
- Hook errors are kinds, not message texts. The fallback `new Error(...)` wrapping is not modelled.
- Which adapter deliveries reach this hook's handlers is not modelled. `HandleMessage` is the body every handler runs, and `ReceiveAllKeepsNewest` covers any run of them.
- `src/pages/MqttPage.tsx` and `src/pages/Index.tsx` are not part of this model. They are presentation: forms, toasts, and blank-input guards.
- `src/lib/mqtt-example.ts` is not part of this model. Its real code is commented out.
- `src/lib/utils.ts` is not part of this model. It only wraps class-name and date-formatting libraries.
