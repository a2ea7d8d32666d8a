/** The daily sweep of the failed queue: takes messages until the queue is empty and counts why they failed. */
module Sweep {
  import opened Base
  import opened Sequences

  /** A message of the failed queue: whether its body can be read, and the text of its `error` header if it has one. */
  datatype FailedMessage = FailedMessage(readable: bool, error: Option<string>)

  /** What may end a sweep early: there is no channel, or after some number of messages the context is cancelled or
      a get fails. */
  datatype Interruption = Never | NoChannel | Cancelled(after: nat) | Failing(after: nat)

  class FailedQueue {
    var messages: seq<FailedMessage>

    constructor (messages: seq<FailedMessage>)
      ensures this.messages == messages
    {
      this.messages := messages;
    }

    /** A get that acknowledges automatically. */
    method Get() returns (m: Option<FailedMessage>)
      modifies this
      ensures m.None? <==> old(messages) == []
      ensures m.Some? ==> old(messages) == [m.value] + messages
      ensures m.None? ==> messages == []
    {
      if messages == [] {
        return None;
      }
      m, messages := Some(messages[0]), messages[1..];
    }
  }

  function Trend(m: FailedMessage): string {
    if !m.readable then "malformed_json" else if m.error.Some? then m.error.value else "unknown_error"
  }

  /** How many of the messages a sweep takes. */
  function Taken(messages: seq<FailedMessage>, stop: Interruption): (k: nat)
    ensures k <= |messages|
    ensures stop.Never? ==> k == |messages|
    ensures stop.NoChannel? ==> k == 0
    ensures stop.Cancelled? || stop.Failing? ==> k == if stop.after <= |messages| then stop.after else |messages|
  {
    if stop.NoChannel? then 0
    else if stop.Never? || stop.after > |messages| then |messages|
    else stop.after
  }

  function Trends(messages: seq<FailedMessage>): multiset<string> {
    multiset(Map(Trend, messages))
  }

  lemma OneMoreTrend(messages: seq<FailedMessage>, k: nat)
    requires k < |messages|
    ensures Trends(messages[..k + 1]) == Trends(messages[..k]) + multiset{Trend(messages[k])}
  {
    assert messages[..k + 1] == messages[..k] + [messages[k]];
    MapConcat(Trend, messages[..k], [messages[k]]);
    assert [messages[k]][1..] == [];
  }

  lemma {:induction false} OneTrendEach(messages: seq<FailedMessage>)
    ensures |Trends(messages)| == |messages|
  {
    if messages != [] {
      OneTrendEach(messages[1..]);
    }
  }

  /** How often a trend is seen: once for each message that has it as its error text, or, under names of their own, for
      each without such a text and for each that cannot be read. */
  lemma {:induction false} TrendCounts(messages: seq<FailedMessage>, t: string)
    ensures Trends(messages)[t]
        == Tally((m: FailedMessage) => t == (if !m.readable then "malformed_json"
                                             else if m.error == None then "unknown_error" else m.error.value), messages)
  {
    if messages != [] {
      TrendCounts(messages[1..], t);
    }
  }

  /** Takes messages from the front until none is left, a get fails or the context is cancelled, and none at all without
      a channel. Each is counted under one trend, its error text if it has one, and reported unless the sweep was
      cancelled or could not begin. The multiset is the map from a trend to how often it was seen. */
  method SweepFailedQueue(queue: FailedQueue, stop: Interruption)
    returns (cleared: nat, trends: multiset<string>, reported: bool)
    modifies queue
    ensures cleared == |trends| == match stop
                                   case NoChannel => 0
                                   case Never => |old(queue.messages)|
                                   case _ => if stop.after <= |old(queue.messages)| then stop.after
                                             else |old(queue.messages)|
    ensures queue.messages == old(queue.messages)[cleared..]
    ensures trends == Trends(old(queue.messages)[..cleared])
    ensures reported <==> !stop.NoChannel? && !(stop.Cancelled? && stop.after <= |old(queue.messages)|)
  {
    cleared, trends, reported := 0, multiset{}, false;
    ghost var before := queue.messages;
    if stop.NoChannel? {
      return;
    }
    while true
      invariant cleared <= |before| && queue.messages == before[cleared..]
      invariant stop.Cancelled? || stop.Failing? ==> cleared <= stop.after
      invariant trends == Trends(before[..cleared])
      invariant !reported
      decreases |queue.messages|
    {
      if stop.Cancelled? && cleared == stop.after {
        OneTrendEach(before[..cleared]);
        return;
      }
      if stop.Failing? && cleared == stop.after {
        break;
      }
      var m := queue.Get();
      if m.None? {
        break;
      }
      OneMoreTrend(before, cleared);
      cleared := cleared + 1;
      trends := trends + multiset{Trend(m.value)};
    }
    OneTrendEach(before[..cleared]);
    reported := true;
  }
}
