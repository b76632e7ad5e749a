/**
 * The list updates the `useMqtt` hook applies to its React state: the
 * newest-first message history capped at 100 records, and the list of
 * subscribed topics kept free of duplicates.
 */
module HookLists {
  import opened ClientConfig
  import opened BrokerLog

  /** One received message as the hook keeps it. */
  datatype MessageRecord = MessageRecord(topic: Topic, message: Payload, timestamp: int)

  /** How many records the history keeps. */
  const HistoryLimit: nat := 100

  function Min(a: int, b: int): int
  {
    if a <= b then a else b
  }

  function Reverse<T>(s: seq<T>): (r: seq<T>)
    ensures |r| == |s|
  {
    if s == [] then [] else Reverse(s[1..]) + [s[0]]
  }

  /**
   * The history after one more message: the new record first, then the
   * previous history cut to its 99 newest records.
   */
  function Receive(prev: seq<MessageRecord>, record: MessageRecord): (r: seq<MessageRecord>)
    ensures |r| == Min(|prev| + 1, HistoryLimit)
    ensures r[0] == record
    ensures r[1..] <= prev
    ensures |prev| < HistoryLimit ==> r[1..] == prev
  {
    [record] + prev[..Min(|prev|, HistoryLimit - 1)]
  }

  /** The history after `records` arrive one after the other, oldest first. */
  function ReceiveAll(prev: seq<MessageRecord>, records: seq<MessageRecord>): seq<MessageRecord>
    decreases |records|
  {
    if records == [] then prev else ReceiveAll(Receive(prev, records[0]), records[1..])
  }

  /**
   * Starting from a history within the cap, the history after any run of
   * messages is the newest 100 of all records seen, newest first.
   */
  lemma {:induction false} ReceiveAllKeepsNewest(prev: seq<MessageRecord>, records: seq<MessageRecord>)
    requires |prev| <= HistoryLimit
    ensures ReceiveAll(prev, records) == (Reverse(records) + prev)[..Min(HistoryLimit, |records| + |prev|)]
    decreases |records|
  {
    if records != [] {
      var next := Receive(prev, records[0]);
      ReceiveAllKeepsNewest(next, records[1..]);
      var newer := Reverse(records[1..]) + [records[0]];
      var k := Min(|prev|, HistoryLimit - 1);
      assert Reverse(records[1..]) + next == newer + prev[..k];
      NewestWithinCap(newer, prev, k);
    }
  }

  /**
   * Cutting the older part to `k` records first changes nothing once the
   * whole is cut to the cap, when at least one newer record comes before it.
   */
  lemma NewestWithinCap<T>(newer: seq<T>, prev: seq<T>, k: nat)
    requires |newer| >= 1 && |prev| <= HistoryLimit && k == Min(|prev|, HistoryLimit - 1)
    ensures (newer + prev[..k])[..Min(HistoryLimit, |newer| + k)] == (newer + prev)[..Min(HistoryLimit, |newer| + |prev|)]
  {
  }

  predicate NoDuplicates(s: seq<Topic>)
  {
    forall i, j :: 0 <= i < j < |s| ==> s[i] != s[j]
  }

  /** The topics listed before any subscribe: the default topic, when one is given and not empty. */
  function InitialTopics(defaultTopic: Option<Topic>): (r: seq<Topic>)
    ensures NoDuplicates(r)
    ensures forall u :: u in r <==> defaultTopic == Some(u) && u != ""
  {
    if defaultTopic.Some? && defaultTopic.value != "" then [defaultTopic.value] else []
  }

  /**
   * The list after a successful subscribe to `t`: `t` added at the end
   * unless already listed; earlier entries keep their order.
   */
  function AddTopic(prev: seq<Topic>, t: Topic): (r: seq<Topic>)
    ensures prev <= r
    ensures forall u :: u in r <==> u in prev || u == t
    ensures |r| == if t in prev then |prev| else |prev| + 1
    ensures NoDuplicates(prev) ==> NoDuplicates(r)
  {
    if t in prev then prev else prev + [t]
  }

  /** The list after unsubscribing `t`: every occurrence of `t` dropped. */
  function RemoveTopic(prev: seq<Topic>, t: Topic): (r: seq<Topic>)
    ensures multiset(r) == multiset(prev)[t := 0]
    decreases |prev|
  {
    if prev == [] then []
    else
      assert prev == [prev[0]] + prev[1..];
      if prev[0] == t then RemoveTopic(prev[1..], t)
      else [prev[0]] + RemoveTopic(prev[1..], t)
  }

  /** A duplicate-free list stays duplicate-free when a topic is dropped. */
  lemma {:induction false} RemoveTopicKeepsNoDuplicates(prev: seq<Topic>, t: Topic)
    requires NoDuplicates(prev)
    ensures NoDuplicates(RemoveTopic(prev, t))
    decreases |prev|
  {
    if prev != [] {
      var tail := prev[1..];
      assert NoDuplicates(tail) by {
        forall i, j | 0 <= i < j < |tail|
          ensures tail[i] != tail[j]
        {
          assert tail[i] == prev[i + 1] && tail[j] == prev[j + 1];
        }
      }
      RemoveTopicKeepsNoDuplicates(tail, t);
      if prev[0] != t {
        var rest := RemoveTopic(tail, t);
        assert prev[0] !in tail by {
          forall j | 0 <= j < |tail|
            ensures tail[j] != prev[0]
          {
            assert tail[j] == prev[j + 1];
          }
        }
        assert prev[0] !in rest by {
          assert multiset(tail)[prev[0]] == 0;
          assert multiset(rest)[prev[0]] == 0;
        }
        var r := [prev[0]] + rest;
        forall i, j | 0 <= i < j < |r|
          ensures r[i] != r[j]
        {
          assert r[j] == rest[j - 1];
          if i > 0 {
            assert r[i] == rest[i - 1];
          }
        }
      }
    }
  }

  /** Dropping a topic keeps the relative order of everything else. */
  lemma {:induction false} RemoveTopicDistributes(a: seq<Topic>, b: seq<Topic>, t: Topic)
    ensures RemoveTopic(a + b, t) == RemoveTopic(a, t) + RemoveTopic(b, t)
    decreases |a|
  {
    if a == [] {
      assert a + b == b;
    } else {
      assert (a + b)[1..] == a[1..] + b;
      RemoveTopicDistributes(a[1..], b, t);
    }
  }

  /** Dropping a topic that is not listed changes nothing. */
  lemma {:induction false} RemoveAbsentTopic(prev: seq<Topic>, t: Topic)
    requires t !in prev
    ensures RemoveTopic(prev, t) == prev
    decreases |prev|
  {
    if prev != [] {
      RemoveAbsentTopic(prev[1..], t);
    }
  }

  /**
   * Unsubscribing undoes subscribing: dropping `t` after adding it gives the
   * list with `t` dropped, which is the original list when `t` was absent.
   */
  lemma RemoveUndoesAddTopic(prev: seq<Topic>, t: Topic)
    ensures RemoveTopic(AddTopic(prev, t), t) == RemoveTopic(prev, t)
    ensures t !in prev ==> RemoveTopic(AddTopic(prev, t), t) == prev
  {
    if t !in prev {
      RemoveTopicDistributes(prev, [t], t);
      RemoveAbsentTopic(prev, t);
      assert RemoveTopic([t], t) == [];
    }
  }
}
