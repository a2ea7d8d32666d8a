/** Message headers, RabbitMQ's dead-letter history, and how the consumer counts retries from it. */
module RetryCount {
  import opened Base

  /** The AMQP field values that can occur in a header. */
  datatype Field =
    | Long(long: int)
    | Int(int32: int)
    | Text(text: string)
    | Array(items: seq<Field>)
    | Table(fields: map<string, Field>)
    | Void

  type Headers = Option<map<string, Field>>

  function CountOf(entry: Field): Option<int> {
    if !entry.Table? || "count" !in entry.fields then None
    else match entry.fields["count"]
      case Long(n) => Some(n)
      case Int(n) => Some(n)
      case _ => None
  }

  function Entries(headers: Headers): seq<Field> {
    if headers.Some? && "x-death" in headers.value && headers.value["x-death"].Array?
    then headers.value["x-death"].items
    else []
  }

  /** The count of some entry, or zero, that no entry exceeds. */
  ghost predicate IsRetryCount(entries: seq<Field>, n: int) {
    && n >= 0
    && (n != 0 ==> exists e :: e in entries && CountOf(e) == Some(n))
    && (forall e :: e in entries && CountOf(e).Some? ==> CountOf(e).value <= n)
  }

  lemma RetryCountIsUnique(entries: seq<Field>, m: int, n: int)
    requires IsRetryCount(entries, m) && IsRetryCount(entries, n)
    ensures m == n
  {
    if m != 0 {
      var e :| e in entries && CountOf(e) == Some(m);
    }
    if n != 0 {
      var e :| e in entries && CountOf(e) == Some(n);
    }
  }

  lemma OneMore(entries: seq<Field>, n: int, e: Field)
    requires IsRetryCount(entries, n)
    ensures IsRetryCount(entries + [e], if CountOf(e).Some? && CountOf(e).value > n then CountOf(e).value else n)
  {
    assert e in entries + [e];
    if n != 0 {
      var w :| w in entries && CountOf(w) == Some(n);
      assert w in entries + [e];
    }
  }

  /** An entry of the `x-death` header gives an integer count. */
  ghost predicate Says(headers: Headers, count: int) {
    && headers.Some? && "x-death" in headers.value && headers.value["x-death"].Array?
    && exists e :: e in headers.value["x-death"].items && e.Table? && "count" in e.fields
                   && (e.fields["count"] == Long(count) || e.fields["count"] == Int(count))
  }

  /** The largest count that the headers give, or zero, whatever shape they have. */
  method GetRetryCount(headers: Headers) returns (maxCount: int)
    ensures IsRetryCount(Entries(headers), maxCount)
    ensures maxCount >= 0 && (maxCount > 0 ==> Says(headers, maxCount))
    ensures forall n :: Says(headers, n) ==> n <= maxCount
  {
    if headers.None? || "x-death" !in headers.value || !headers.value["x-death"].Array? {
      return 0;
    }
    var slice := headers.value["x-death"].items;
    maxCount := 0;
    for i := 0 to |slice|
      invariant IsRetryCount(slice[..i], maxCount)
    {
      OneMore(slice[..i], maxCount, slice[i]);
      assert slice[..i + 1] == slice[..i] + [slice[i]];
      if slice[i].Table? && "count" in slice[i].fields {
        match slice[i].fields["count"]
        case Long(count) =>
          if count > maxCount {
            maxCount := count;
          }
        case Int(count) =>
          if count > maxCount {
            maxCount := count;
          }
        case _ =>
      }
    }
    assert slice[..|slice|] == slice;
  }

  /** The count in closed form. */
  function CountIn(entries: seq<Field>): (n: int)
    ensures IsRetryCount(entries, n)
  {
    if entries == [] then 0
    else
      var last, before := entries[|entries| - 1], CountIn(entries[..|entries| - 1]);
      OneMore(entries[..|entries| - 1], before, last);
      assert entries == entries[..|entries| - 1] + [last];
      if CountOf(last).Some? && CountOf(last).value > before then CountOf(last).value else before
  }

  /******* Dead-letter history *******/

  datatype Reason = Rejected | Expired

  /** One x-death entry: how often a message was dead-lettered from a queue for a reason. */
  datatype Death = Death(queue: string, reason: Reason, count: nat)

  /** The history as the broker sends it, most recent entry first; a fresh message carries no headers. */
  function HeadersOf(deaths: seq<Death>): Headers {
    if deaths == [] then None
    else Some(map["x-death" := Array(seq(|deaths|, i requires 0 <= i < |deaths| => EntryOf(deaths[i])))])
  }

  function EntryOf(d: Death): Field {
    Table(map[
      "queue" := Text(d.queue),
      "reason" := Text(match d.reason case Rejected => "rejected" case Expired => "expired"),
      "count" := Long(d.count)])
  }

  /** The broker's rule: one entry per queue and reason; a new death increments it and moves it to the front. */
  function Die(deaths: seq<Death>, queue: string, reason: Reason): seq<Death> {
    [Death(queue, reason, DeathCount(deaths, queue, reason) + 1)] + Without(deaths, queue, reason)
  }

  function DeathCount(deaths: seq<Death>, queue: string, reason: Reason): nat {
    if deaths == [] then 0
    else if deaths[0].queue == queue && deaths[0].reason == reason then deaths[0].count
    else DeathCount(deaths[1..], queue, reason)
  }

  function Without(deaths: seq<Death>, queue: string, reason: Reason): seq<Death> {
    if deaths == [] then []
    else if deaths[0].queue == queue && deaths[0].reason == reason then deaths[1..]
    else [deaths[0]] + Without(deaths[1..], queue, reason)
  }

  /** What the consumer reads off a history. */
  function Retries(deaths: seq<Death>): (n: nat)
    ensures IsRetryCount(Entries(HeadersOf(deaths)), n)
  {
    var n := MaxCount(deaths);
    MaxCountIs(deaths);
    n
  }

  function MaxCount(deaths: seq<Death>): nat {
    if deaths == [] then 0
    else
      var rest := MaxCount(deaths[1..]);
      if deaths[0].count > rest then deaths[0].count else rest
  }

  lemma MaxCountBounds(deaths: seq<Death>)
    ensures forall i :: 0 <= i < |deaths| ==> deaths[i].count <= MaxCount(deaths)
    ensures MaxCount(deaths) != 0 ==> exists i :: 0 <= i < |deaths| && deaths[i].count == MaxCount(deaths)
  {
    if deaths != [] {
      MaxCountBounds(deaths[1..]);
      forall i | 0 <= i < |deaths|
        ensures deaths[i].count <= MaxCount(deaths)
      {
        assert i > 0 ==> deaths[i] == deaths[1..][i - 1];
      }
      if MaxCount(deaths) != 0 && deaths[0].count != MaxCount(deaths) {
        var i :| 0 <= i < |deaths[1..]| && deaths[1..][i].count == MaxCount(deaths);
        assert deaths[i + 1].count == MaxCount(deaths);
      }
    }
  }

  lemma MaxCountIs(deaths: seq<Death>)
    ensures IsRetryCount(Entries(HeadersOf(deaths)), MaxCount(deaths))
  {
    MaxCountBounds(deaths);
    var entries := Entries(HeadersOf(deaths));
    if MaxCount(deaths) != 0 {
      var i :| 0 <= i < |deaths| && deaths[i].count == MaxCount(deaths);
      assert entries[i] == EntryOf(deaths[i]) && CountOf(entries[i]) == Some(MaxCount(deaths));
    }
    forall e | e in entries && CountOf(e).Some?
      ensures CountOf(e).value <= MaxCount(deaths)
    {
      var i :| 0 <= i < |entries| && entries[i] == e;
      assert CountOf(EntryOf(deaths[i])) == Some(deaths[i].count);
    }
  }
}
