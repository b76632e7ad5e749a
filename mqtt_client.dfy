/**
 * The shared-connection adapter of `src/lib/mqtt-client.ts`: one nullable
 * library client shared by every caller, a registry from topic to the set
 * of listener callbacks, reference-counted broker subscriptions, and
 * exact-topic fan-out of inbound messages.
 *
 * Listener callbacks are opaque identities (JavaScript compares functions by
 * reference). The MQTT library is the ghost `log` of actions requested of
 * it; its events (`connect`, `error`, `message`, `close`) and the completion
 * of `end` are methods the library calls.
 */
module MqttClient {
  import opened ClientConfig
  import opened BrokerLog

  /** Identity of a listener callback. */
  type Listener = nat

  type Registry = map<Topic, set<Listener>>

  /** What an operation throws. */
  datatype Failure = NotConnected | TransportFailure(reason: string)

  datatype Outcome = Done | Thrown(failure: Failure)

  /** State of the promise returned by a `connectMqtt` call that created a client. */
  datatype Settlement = Pending | Resolved(value: Option<Handle>) | Rejected(failure: Failure)

  /** What a `connectMqtt` call gives its caller straight away. */
  datatype ConnectCall =
    | Reused(client: Handle)     // promise already resolved with the existing client
    | Started(client: Handle)    // promise pending until the client's connect or error event
    | Threw(failure: Failure)    // the library threw while creating the client: promise rejected

  /** One invocation `callback(message, topic)` made while dispatching an inbound message. */
  datatype Delivery = Delivery(listener: Listener, message: Payload, topic: Topic)

  /** The registry invariant: a topic is a key only while some listener is registered for it. */
  predicate NonEmptyEntries(m: Registry)
  {
    forall t :: t in m ==> m[t] != {}
  }

  /** The listeners registered for `t` (none when `t` is not a key). */
  function ListenersOf(m: Registry, t: Topic): set<Listener>
  {
    if t in m then m[t] else {}
  }

  /** The registry after `subscribeTopic(t, l)` on a live client. */
  function AddListener(m: Registry, t: Topic, l: Listener): (r: Registry)
    ensures r.Keys == m.Keys + {t}
    ensures ListenersOf(r, t) == ListenersOf(m, t) + {l}
    ensures forall u :: u != t ==> ListenersOf(r, u) == ListenersOf(m, u)
    ensures l in ListenersOf(m, t) ==> r == m
    ensures NonEmptyEntries(m) ==> NonEmptyEntries(r)
  {
    var s := ListenersOf(m, t) + {l};
    assert l in ListenersOf(m, t) ==> s == m[t] && m[t := s] == m;
    m[t := s]
  }

  /** The registry after `unsubscribeTopic(t, l)` on a live client. */
  function RemoveListener(m: Registry, t: Topic, l: Listener): (r: Registry)
    ensures ListenersOf(r, t) == ListenersOf(m, t) - {l}
    ensures forall u :: u != t ==> (u in r <==> u in m) && ListenersOf(r, u) == ListenersOf(m, u)
    ensures t in r <==> t in m && m[t] - {l} != {}
    ensures t !in m ==> r == m
    ensures NonEmptyEntries(m) && l !in ListenersOf(m, t) ==> r == m
    ensures NonEmptyEntries(m) ==> NonEmptyEntries(r)
  {
    if t !in m then m
    else if m[t] - {l} == {} then m - {t}
    else
      assert l !in m[t] ==> m[t] - {l} == m[t] && m[t := m[t]] == m;
      m[t := m[t] - {l}]
  }

  /** Removing a listener undoes adding it, when it was not registered before. */
  lemma RemoveUndoesAdd(m: Registry, t: Topic, l: Listener)
    requires NonEmptyEntries(m)
    requires l !in ListenersOf(m, t)
    ensures RemoveListener(AddListener(m, t, l), t, l) == m
  {
    var r := RemoveListener(AddListener(m, t, l), t, l);
    assert r.Keys == m.Keys;
    forall u | u in m
      ensures r[u] == m[u]
    {
      assert ListenersOf(r, u) == ListenersOf(m, u);
    }
  }

  /** Whether `l` is registered for no topic at all, as a newly created callback is. */
  ghost predicate Unregistered(m: Registry, l: Listener)
  {
    forall t :: l !in ListenersOf(m, t)
  }

  /** Whether `subscribeTopic(t, _)` on a live client issues a broker subscribe. */
  predicate FirstListener(m: Registry, t: Topic)
  {
    t !in m
  }

  /** Whether `unsubscribeTopic(t, l)` on a live client issues a broker unsubscribe. */
  predicate LastListener(m: Registry, t: Topic, l: Listener)
  {
    t in m && m[t] - {l} == {}
  }

  /**
   * The reference-counting invariant: reading `acts` leaves every topic
   * subscribed at the broker exactly when it is a key of `m`, with no double
   * call on the way.
   */
  ghost predicate Tracks(acts: seq<Action>, m: Registry)
  {
    forall t {:trigger Track(acts, t)} :: Track(acts, t) == Tracking(t in m)
  }

  /** A registry-side subscribe, with its broker subscribe when first, keeps the invariant. */
  lemma AddListenerTracks(acts: seq<Action>, m: Registry, t: Topic, l: Listener)
    requires Tracks(acts, m)
    ensures Tracks(acts + if FirstListener(m, t) then [Subscribe(t)] else [], AddListener(m, t, l))
  {
    var r := AddListener(m, t, l);
    if FirstListener(m, t) {
      forall u
        ensures Track(acts + [Subscribe(t)], u) == Tracking(u in r)
      {
        TrackSnoc(acts, Subscribe(t), u);
      }
    } else {
      assert acts + [] == acts;
      assert r.Keys == m.Keys;
    }
  }

  /** A registry-side unsubscribe, with its broker unsubscribe when last, keeps the invariant. */
  lemma RemoveListenerTracks(acts: seq<Action>, m: Registry, t: Topic, l: Listener)
    requires NonEmptyEntries(m)
    requires Tracks(acts, m)
    ensures Tracks(acts + if LastListener(m, t, l) then [Unsubscribe(t)] else [], RemoveListener(m, t, l))
  {
    var r := RemoveListener(m, t, l);
    if LastListener(m, t, l) {
      forall u
        ensures Track(acts + [Unsubscribe(t)], u) == Tracking(u in r)
      {
        TrackSnoc(acts, Unsubscribe(t), u);
      }
    } else {
      assert acts + [] == acts;
      assert forall u :: u in r <==> u in m;
    }
  }

  /**
   * Part way through a dispatch to `registered`: `pending` holds the
   * listeners not yet called, and `calls` called every other one exactly
   * once, with the message and its topic.
   */
  ghost predicate DispatchedSoFar(registered: set<Listener>, pending: set<Listener>, calls: seq<Delivery>,
                                  payload: Payload, topic: Topic)
  {
    && pending <= registered
    && (forall i :: 0 <= i < |calls| ==> calls[i].listener in registered && calls[i].listener !in pending)
    && (forall l :: l in registered && l !in pending ==> exists i :: 0 <= i < |calls| && calls[i].listener == l)
    && |calls| + |pending| == |registered|
    && (forall i, j :: 0 <= i < j < |calls| ==> calls[i].listener != calls[j].listener)
    && (forall i :: 0 <= i < |calls| ==> calls[i].message == payload && calls[i].topic == topic)
  }

  /** Calling one pending listener moves it from `pending` to `calls`. */
  lemma DispatchStep(registered: set<Listener>, pending: set<Listener>, calls: seq<Delivery>, l: Listener,
                     payload: Payload, topic: Topic)
    requires DispatchedSoFar(registered, pending, calls, payload, topic)
    requires l in pending
    ensures DispatchedSoFar(registered, pending - {l}, calls + [Delivery(l, payload, topic)], payload, topic)
  {
    var d := Delivery(l, payload, topic);
    var next := calls + [d];
    assert |pending - {l}| == |pending| - 1;
    forall i | 0 <= i < |next|
      ensures next[i] == if i < |calls| then calls[i] else d
    {
    }
    forall m | m in registered && m !in pending - {l}
      ensures exists i :: 0 <= i < |next| && next[i].listener == m
    {
      if m == l {
        assert next[|calls|].listener == m;
      } else {
        var i :| 0 <= i < |calls| && calls[i].listener == m;
        assert next[i].listener == m;
      }
    }
  }

  /** The module-level state of the adapter: `client` and `subscribers`. */
  class Adapter {
    var client: Option<Handle>
    var subscribers: Registry
    /** The promise of each `connectMqtt` call that created a client, by that client. */
    var promises: map<Handle, Settlement>
    /** The identity the next created client gets. */
    var nextHandle: Handle
    /** Every request made of the MQTT library, oldest first. */
    ghost var log: seq<Action>
    /** Length of `log` when the registry was last cleared. */
    ghost var epoch: nat

    /**
     * Every key holds a listener, and for every topic the broker calls made
     * since the registry was last cleared leave it subscribed exactly when it
     * is a key, never subscribing twice or unsubscribing an absent topic.
     */
    ghost predicate Valid()
      reads this
    {
      && epoch <= |log|
      && NonEmptyEntries(subscribers)
      && Tracks(log[epoch..], subscribers)
      && (client.Some? ==> client.value in promises)
      && (forall h :: h in promises ==> h < nextHandle)
    }

    /** The state when the module is loaded: no client, an empty registry. */
    constructor ()
      ensures Valid()
      ensures client == None && subscribers == map[] && promises == map[] && nextHandle == 0 && log == []
    {
      client := None;
      subscribers := map[];
      promises := map[];
      nextHandle := 0;
      log := [];
      epoch := 0;
    }

    /**
     * The reference-counting invariant read as a statement about the
     * subscribe and unsubscribe requests; after a `close` and a reconnect
     * these include requests sent to the earlier client.
     */
    lemma RegistryMatchesRequests(t: Topic)
      requires Valid()
      ensures Alternating(BrokerCalls(log[epoch..], t))
      ensures t in subscribers <==> |BrokerCalls(log[epoch..], t)| % 2 == 1
    {
      TrackIsAlternation(log[epoch..], t);
    }

    /**
     * `connectMqtt(brokerUrl, options)`. Any existing client, connected or
     * not, is handed back without a new connection. Otherwise the library is
     * asked to connect with the merged options; `libraryFailure` stands for
     * the library throwing while doing so.
     */
    method ConnectMqtt(brokerUrl: string, options: ClientOptions, randomSuffix: string, libraryFailure: Option<string>)
      returns (call: ConnectCall)
      requires Valid()
      modifies this`client, this`promises, this`nextHandle, this`log
      ensures Valid()
      ensures old(client).Some? ==> call == Reused(old(client).value) && unchanged(this)
      ensures old(client).None? && libraryFailure.Some? ==>
        call == Threw(TransportFailure(libraryFailure.value)) && unchanged(this)
      ensures old(client).None? && libraryFailure.None? ==>
        && call == Started(old(nextHandle))
        && old(nextHandle) !in old(promises)
        && client == Some(old(nextHandle))
        && promises == old(promises)[old(nextHandle) := Pending]
        && log == old(log) + [Connect(old(nextHandle), brokerUrl, EffectiveOptions(randomSuffix, options))]
        && nextHandle > old(nextHandle)
    {
      if client.Some? {
        call := Reused(client.value);
        return;
      }
      var effective := EffectiveOptions(randomSuffix, options);
      if libraryFailure.Some? {
        call := Threw(TransportFailure(libraryFailure.value));
        return;
      }
      var h := nextHandle;
      TrackAppend(log, epoch, Connect(h, brokerUrl, effective));
      log := log + [Connect(h, brokerUrl, effective)];
      nextHandle := nextHandle + 1;
      client := Some(h);
      promises := promises[h := Pending];
      call := Started(h);
    }

    /**
     * The `connect` event of client `h`: its connect promise, if still
     * pending, resolves with whatever the module's `client` is now.
     */
    method OnConnect(h: Handle)
      requires Valid()
      modifies this`promises
      ensures Valid()
      ensures promises == if h in old(promises) && old(promises)[h] == Pending
                          then old(promises)[h := Resolved(client)] else old(promises)
    {
      if h in promises && promises[h] == Pending {
        promises := promises[h := Resolved(client)];
      }
    }

    /**
     * The `error` event of client `h`: its connect promise, if still pending,
     * is rejected. The module's `client` is left as it is.
     */
    method OnError(h: Handle, reason: string)
      requires Valid()
      modifies this`promises
      ensures Valid()
      ensures promises == if h in old(promises) && old(promises)[h] == Pending
                          then old(promises)[h := Rejected(TransportFailure(reason))] else old(promises)
    {
      if h in promises && promises[h] == Pending {
        promises := promises[h := Rejected(TransportFailure(reason))];
      }
    }

    /**
     * The `message` event: every listener registered for exactly `topic` is
     * called once with `(payload, topic)`, in no particular order; a topic
     * with no key reaches nobody. Nothing in the adapter changes.
     */
    method OnMessage(topic: Topic, payload: Payload) returns (calls: seq<Delivery>)
      ensures forall i :: 0 <= i < |calls| ==> calls[i].listener in ListenersOf(subscribers, topic)
      ensures forall l :: l in ListenersOf(subscribers, topic) ==> exists i :: 0 <= i < |calls| && calls[i].listener == l
      ensures forall i, j :: 0 <= i < j < |calls| ==> calls[i].listener != calls[j].listener
      ensures forall i :: 0 <= i < |calls| ==> calls[i].message == payload && calls[i].topic == topic
      ensures |calls| == |ListenersOf(subscribers, topic)|
    {
      var registered := ListenersOf(subscribers, topic);
      var pending := registered;
      calls := [];
      while pending != {}
        invariant DispatchedSoFar(registered, pending, calls, payload, topic)
        decreases pending
      {
        var l :| l in pending;
        DispatchStep(registered, pending, calls, l, payload, topic);
        calls := calls + [Delivery(l, payload, topic)];
        pending := pending - {l};
      }
    }

    /**
     * The `close` event: the module forgets its client. The registry is kept
     * as it is.
     */
    method OnClose()
      requires Valid()
      modifies this`client
      ensures Valid()
      ensures client == None
    {
      client := None;
    }

    /**
     * `subscribeTopic(topic, listener)`: throws without a client; otherwise
     * registers the listener and asks the broker to subscribe only when the
     * topic was not yet a key.
     */
    method SubscribeTopic(topic: Topic, listener: Listener) returns (outcome: Outcome)
      requires Valid()
      modifies this`subscribers, this`log
      ensures Valid()
      ensures outcome == if old(client).None? then Thrown(NotConnected) else Done
      ensures old(client).None? ==> subscribers == old(subscribers) && log == old(log)
      ensures old(client).Some? ==> subscribers == AddListener(old(subscribers), topic, listener)
      ensures old(client).Some? ==>
        log == old(log) + if FirstListener(old(subscribers), topic) then [Subscribe(topic)] else []
    {
      if client.None? {
        outcome := Thrown(NotConnected);
        return;
      }
      AddListenerTracks(log[epoch..], subscribers, topic, listener);
      ghost var step := if FirstListener(subscribers, topic) then [Subscribe(topic)] else [];
      assert (log + step)[epoch..] == log[epoch..] + step;
      if topic !in subscribers {
        subscribers := subscribers[topic := {}];
        log := log + [Subscribe(topic)];
      }
      assert subscribers == old(subscribers)[topic := ListenersOf(old(subscribers), topic)];
      subscribers := subscribers[topic := subscribers[topic] + {listener}];
      assert subscribers == AddListener(old(subscribers), topic, listener);
      assert log[epoch..] == old(log)[epoch..] + step;
      outcome := Done;
    }

    /**
     * `unsubscribeTopic(topic, listener)`: nothing without a client or for a
     * topic with no key; otherwise removes the listener, and when none is
     * left removes the key and asks the broker to unsubscribe.
     */
    method UnsubscribeTopic(topic: Topic, listener: Listener)
      requires Valid()
      modifies this`subscribers, this`log
      ensures Valid()
      ensures old(client).None? ==> subscribers == old(subscribers) && log == old(log)
      ensures old(client).Some? ==> subscribers == RemoveListener(old(subscribers), topic, listener)
      ensures old(client).Some? ==>
        log == old(log) + if LastListener(old(subscribers), topic, listener) then [Unsubscribe(topic)] else []
    {
      if client.None? {
        return;
      }
      RemoveListenerTracks(log[epoch..], subscribers, topic, listener);
      ghost var step := if LastListener(subscribers, topic, listener) then [Unsubscribe(topic)] else [];
      assert (log + step)[epoch..] == log[epoch..] + step;
      if topic in subscribers {
        var remaining := subscribers[topic] - {listener};
        subscribers := subscribers[topic := remaining];
        if remaining == {} {
          subscribers := subscribers - {topic};
          log := log + [Unsubscribe(topic)];
        }
      }
      assert subscribers == RemoveListener(old(subscribers), topic, listener);
      assert log[epoch..] == old(log)[epoch..] + step;
    }

    /** `publishMessage(topic, message)`: throws without a client, else one publish request. */
    method PublishMessage(topic: Topic, message: Payload) returns (outcome: Outcome)
      requires Valid()
      modifies this`log
      ensures Valid()
      ensures outcome == if old(client).None? then Thrown(NotConnected) else Done
      ensures log == old(log) + if old(client).None? then [] else [Publish(topic, message)]
    {
      if client.None? {
        outcome := Thrown(NotConnected);
        return;
      }
      TrackAppend(log, epoch, Publish(topic, message));
      log := log + [Publish(topic, message)];
      outcome := Done;
    }

    /**
     * `disconnectMqtt()`: resolves at once without a client; otherwise asks
     * the library to end the connection, and `ending` says the promise waits
     * for `OnEndComplete`.
     */
    method DisconnectMqtt() returns (ending: bool)
      requires Valid()
      modifies this`log
      ensures Valid()
      ensures ending == old(client).Some?
      ensures log == old(log) + if ending then [End] else []
    {
      ending := client.Some?;
      if ending {
        TrackAppend(log, epoch, End);
        log := log + [End];
      }
    }

    /**
     * Completion of the library's `end`: the client is forgotten and the
     * registry emptied, without broker unsubscribes.
     */
    method OnEndComplete()
      requires Valid()
      modifies this`client, this`subscribers, this`epoch
      ensures Valid()
      ensures client == None && subscribers == map[] && epoch == |log|
    {
      client := None;
      subscribers := map[];
      epoch := |log|;
      assert log[epoch..] == [];
    }
  }

  /** A new adapter, connected, with `listener` as the only listener, for `topic`. */
  method ConnectedWithListener(topic: Topic, listener: Listener) returns (a: Adapter)
    ensures fresh(a) && a.Valid()
    ensures a.client.Some? && a.subscribers.Keys == {topic} && ListenersOf(a.subscribers, topic) == {listener}
    ensures |a.log| == 2 && a.log[0].Connect? && a.log[1] == Subscribe(topic)
  {
    a := new Adapter();
    var c := a.ConnectMqtt("u", NoOptions, "0", None);
    assert a.client.Some? && a.subscribers == map[];
    var o := a.SubscribeTopic(topic, listener);
  }

  /** Connect, subscribe one listener, receive one message: that listener hears it once. */
  method DeliverToSubscriber() returns (calls: seq<Delivery>)
    ensures calls == [Delivery(1, "hello", "a/b")]
  {
    var a := ConnectedWithListener("a/b", 1);
    calls := a.OnMessage("a/b", "hello");
    assert calls[0].listener in {1};
  }

  /** Two listeners on one topic, the first removed: only the second hears the next message. */
  method FanOutAfterPartialUnsubscribe() returns (calls: seq<Delivery>)
    ensures calls == [Delivery(2, "m", "x")]
  {
    var a := ConnectedWithListener("x", 1);
    var o := a.SubscribeTopic("x", 2);
    assert ListenersOf(a.subscribers, "x") == {1, 2};
    a.UnsubscribeTopic("x", 1);
    assert ListenersOf(a.subscribers, "x") == {2};
    calls := a.OnMessage("x", "m");
    assert calls[0].listener in {2};
  }

  /**
   * One listener added then removed: the library is asked, after connecting,
   * for one subscribe and then one unsubscribe, and the next message reaches
   * nobody.
   */
  method SubscribeThenUnsubscribe() returns (calls: seq<Delivery>, ghost requests: seq<Action>)
    ensures requests == [Subscribe("x"), Unsubscribe("x")]
    ensures calls == []
  {
    var a := ConnectedWithListener("x", 1);
    ghost var subscribed := a.log;
    assert LastListener(a.subscribers, "x", 1);
    a.UnsubscribeTopic("x", 1);
    assert a.log == subscribed + [Unsubscribe("x")];
    requests := a.log[1..];
    assert ListenersOf(a.subscribers, "x") == {};
    calls := a.OnMessage("x", "m");
  }

  /** After a disconnect has completed, the registry is empty and publishing throws. */
  method PublishAfterDisconnect() returns (outcome: Outcome, registry: Registry)
    ensures registry == map[]
    ensures outcome == Thrown(NotConnected)
  {
    var a := ConnectedWithListener("x", 1);
    var ending := a.DisconnectMqtt();
    a.OnEndComplete();
    registry := a.subscribers;
    outcome := a.PublishMessage("x", "m");
  }

  /**
   * A `close` event keeps the registry: after reconnecting, a listener added
   * to a topic registered before the close causes no request of the new
   * client, and a message still reaches both listeners.
   */
  method RegistrySurvivesClose() returns (calls: seq<Delivery>, ghost requests: seq<Action>)
    ensures requests == []
    ensures |calls| == 2 && {calls[0].listener, calls[1].listener} == {1, 2}
  {
    var a := ConnectedWithListener("x", 1);
    a.OnClose();
    var c := a.ConnectMqtt("u", NoOptions, "1", None);
    assert a.client.Some? && ListenersOf(a.subscribers, "x") == {1};
    ghost var reconnected := a.log;
    var o := a.SubscribeTopic("x", 2);
    assert a.log == reconnected;
    requests := a.log[|reconnected|..];
    assert ListenersOf(a.subscribers, "x") == {1, 2};
    assert |ListenersOf(a.subscribers, "x")| == 2;
    calls := a.OnMessage("x", "m");
    assert calls[0].listener in {1, 2} && calls[1].listener in {1, 2};
  }

  /**
   * An `error` event rejects the connect promise but keeps the client, so a
   * later `connectMqtt` hands back that same client without connecting again.
   */
  method ReuseAfterError() returns (first: ConnectCall, second: ConnectCall)
    ensures first == Started(0) && second == Reused(0)
  {
    var a := new Adapter();
    first := a.ConnectMqtt("u", NoOptions, "0", None);
    a.OnError(0, "e");
    assert a.promises[0] == Rejected(TransportFailure("e"));
    ghost var connected := a.log;
    second := a.ConnectMqtt("u", NoOptions, "1", None);
    assert a.log == connected;
  }

  /**
   * After a `close` event `unsubscribeTopic` does nothing, so the listener
   * stays registered and still hears messages for its topic.
   */
  method UnsubscribeAfterClose() returns (calls: seq<Delivery>)
    ensures calls == [Delivery(1, "m", "x")]
  {
    var a := ConnectedWithListener("x", 1);
    a.OnClose();
    a.UnsubscribeTopic("x", 1);
    assert ListenersOf(a.subscribers, "x") == {1};
    calls := a.OnMessage("x", "m");
    assert calls[0].listener in {1};
  }
}
