/**
 * What the adapter asks of the MQTT library, as a log of actions, and the
 * per-topic reference-counting discipline those requests follow: a broker
 * subscribe only on a topic's first listener, a broker unsubscribe only when
 * its last listener leaves.
 */
module BrokerLog {
  import opened ClientConfig

  type Topic = string
  type Payload = string

  /** Identity of one library client object, created by one `connectMqtt` call. */
  type Handle = nat

  datatype Action =
    | Connect(client: Handle, brokerUrl: string, options: ClientOptions)
    | Subscribe(topic: Topic)
    | Unsubscribe(topic: Topic)
    | Publish(topic: Topic, payload: Payload)
    | End

  /**
   * Reading a log for one topic: whether the broker currently holds a
   * subscription for it, or `DoubleCall` once a subscribe was issued for an
   * already-subscribed topic or an unsubscribe for a topic not subscribed.
   */
  datatype RefState = Tracking(subscribed: bool) | DoubleCall

  function Step(s: RefState, a: Action, t: Topic): RefState
  {
    match s
    case DoubleCall => DoubleCall
    case Tracking(on) =>
      if a == Subscribe(t) then (if on then DoubleCall else Tracking(true))
      else if a == Unsubscribe(t) then (if on then Tracking(false) else DoubleCall)
      else s
  }

  /** The state reached by reading `acts` from the start, for topic `t`. */
  function Track(acts: seq<Action>, t: Topic): RefState
    decreases |acts|
  {
    if acts == [] then Tracking(false)
    else Step(Track(acts[..|acts| - 1], t), acts[|acts| - 1], t)
  }

  lemma TrackSnoc(acts: seq<Action>, a: Action, t: Topic)
    ensures Track(acts + [a], t) == Step(Track(acts, t), a, t)
  {
    assert (acts + [a])[..|acts|] == acts;
  }

  /** Appending one action to a log read from position `from` steps every topic's tracker once. */
  lemma TrackAppend(acts: seq<Action>, from: nat, a: Action)
    requires from <= |acts|
    ensures forall t :: Track((acts + [a])[from..], t) == Step(Track(acts[from..], t), a, t)
  {
    assert (acts + [a])[from..] == acts[from..] + [a];
    forall t
      ensures Track(acts[from..] + [a], t) == Step(Track(acts[from..], t), a, t)
    {
      TrackSnoc(acts[from..], a, t);
    }
  }

  /**
   * The broker-level calls for `t`, in order: `true` for a subscribe,
   * `false` for an unsubscribe; every other action is skipped.
   */
  function BrokerCalls(acts: seq<Action>, t: Topic): seq<bool>
    decreases |acts|
  {
    if acts == [] then []
    else
      var last := acts[|acts| - 1];
      BrokerCalls(acts[..|acts| - 1], t)
        + (if last == Subscribe(t) then [true] else if last == Unsubscribe(t) then [false] else [])
  }

  /** subscribe, unsubscribe, subscribe, ...: strictly alternating, subscribe first. */
  predicate Alternating(calls: seq<bool>)
  {
    forall i :: 0 <= i < |calls| ==> calls[i] == (i % 2 == 0)
  }

  /**
   * The tracker never reports a double call exactly when the broker calls
   * for the topic alternate, starting with a subscribe; and it then says the
   * topic is subscribed exactly when the number of calls is odd.
   */
  lemma {:induction false} TrackIsAlternation(acts: seq<Action>, t: Topic)
    ensures Track(acts, t).Tracking? <==> Alternating(BrokerCalls(acts, t))
    ensures Track(acts, t).Tracking? ==> (Track(acts, t).subscribed <==> |BrokerCalls(acts, t)| % 2 == 1)
    decreases |acts|
  {
    if acts != [] {
      var init, last := acts[..|acts| - 1], acts[|acts| - 1];
      TrackIsAlternation(init, t);
      var c := BrokerCalls(init, t);
      var n := |c|;
      if last == Subscribe(t) || last == Unsubscribe(t) {
        var b := last == Subscribe(t);
        assert BrokerCalls(acts, t) == c + [b];
        AlternatingSnoc(c, b);
      } else {
        assert BrokerCalls(acts, t) == c;
      }
    }
  }

  /** One more call keeps the calls alternating exactly when it is the one due. */
  lemma AlternatingSnoc(c: seq<bool>, b: bool)
    ensures Alternating(c + [b]) <==> Alternating(c) && b == (|c| % 2 == 0)
  {
    if Alternating(c + [b]) {
      forall i | 0 <= i < |c|
        ensures c[i] == (i % 2 == 0)
      {
        assert (c + [b])[i] == c[i];
      }
      assert (c + [b])[|c|] == b;
    }
  }

  /**
   * Corollary for a log whose tracker never reported a double call: between
   * two subscribes for `t` the log holds an unsubscribe for `t`.
   */
  lemma SubscribesAreSeparated(acts: seq<Action>, t: Topic, i: nat, j: nat)
    requires Track(acts, t).Tracking?
    requires i < j < |acts| && acts[i] == Subscribe(t) && acts[j] == Subscribe(t)
    ensures exists k :: i < k < j && acts[k] == Unsubscribe(t)
  {
    if forall k :: i < k < j ==> acts[k] != Unsubscribe(t) {
      TrackPrefixes(acts, t, j + 1);
      SubscribedUntil(acts, t, i, j);
      assert false;
    }
  }

  /** A log that never double-called has no prefix that did. */
  lemma {:induction false} TrackPrefixes(acts: seq<Action>, t: Topic, k: nat)
    requires k <= |acts|
    requires Track(acts, t).Tracking?
    ensures Track(acts[..k], t).Tracking?
    decreases |acts| - k
  {
    if k < |acts| {
      assert acts[..k + 1][..k] == acts[..k];
      TrackPrefixes(acts, t, k + 1);
    } else {
      assert acts[..k] == acts;
    }
  }

  /** From a subscribe at `i` up to `j`, with no unsubscribe between, `t` stays subscribed. */
  lemma {:induction false} SubscribedUntil(acts: seq<Action>, t: Topic, i: nat, j: nat)
    requires i < j <= |acts| && acts[i] == Subscribe(t)
    requires forall k :: i < k < j ==> acts[k] != Unsubscribe(t)
    requires Track(acts[..j], t).Tracking?
    ensures Track(acts[..j], t) == Tracking(true)
    decreases j - i
  {
    assert acts[..j][..j - 1] == acts[..j - 1];
    if j == i + 1 {
    } else {
      assert Track(acts[..j - 1], t).Tracking?;
      SubscribedUntil(acts, t, i, j - 1);
    }
  }
}
