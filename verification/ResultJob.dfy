/** One uninterrupted delivery of a result: what `work` does to the request, the tables and the channel. */
module ResultJob {
  import opened Base
  import opened Persistence
  import opened ResultStatus

  /** An entry of an error list: an object from the service, or the text of an exception. */
  datatype ErrorEntry = ForURL(url: string, error: string) | Text(message: string)

  datatype Payload =
    | Malformed
    | Result(job: string, status: Option<Status>, items: seq<Item>, errors: seq<ErrorEntry>)

  datatype Reply = Ack | Reject

  datatype Message = Message(request: nat, status: Status, items: seq<Item>, errors: seq<ErrorEntry>)

  class FeedRequest {
    const id: nat
    var row: Row

    constructor (id: nat, job: string)
      ensures this.id == id && row == Row(job, Pending)
    {
      this.id := id;
      row := Row(job, Pending);
    }

    /** The conditional update: changes the row of an open request of this job and says how many rows it changed. */
    method UpdateOpen(job: string, status: Status) returns (updated: nat)
      modifies this
      ensures updated == One(old(row.job) == job && Open(old(row.status)))
      ensures row == if updated == 1 then old(row).(status := status) else old(row)
    {
      if row.job == job && Open(row.status) {
        row := row.(status := status);
        return 1;
      }
      return 0;
    }
  }

  class Channel {
    var sent: seq<Message>

    constructor ()
      ensures sent == []
    {
      sent := [];
    }

    method Broadcast(message: Message)
      modifies this
      ensures sent == old(sent) + [message]
    {
      sent := sent + [message];
    }
  }

  /** The payload is for this request, which is still open. */
  predicate Matches(row: Row, payload: Payload) {
    payload.Result? && row.job == payload.job && Open(row.status)
  }

  predicate Accepted(row: Row, payload: Payload) {
    Matches(row, payload) && payload.status.Some?
  }

  /** The request after a result: only an accepted one changes its status. */
  function RowAfter(row: Row, payload: Payload): Row {
    if Accepted(row, payload) then row.(status := payload.status.value) else row
  }

  /** Only a result for this request, while it is pending or processing, changes anything: the status in any case, the
      tables as far as the block gets, and the channel if it ends. The message is rejected exactly if it cannot be read,
      names no status for an open request, or cannot be stored. */
  method Work(payload: Payload, request: FeedRequest, db: Database, channel: Channel) returns (reply: Reply)
    requires Valid(db.Contents())
    modifies request, db, channel
    ensures Valid(db.Contents())
    ensures var row, t := old(request.row), old(db.Contents());
            if payload.Malformed? then
              reply.Reject? && request.row == row && db.Contents() == t && channel.sent == old(channel.sent)
            else if payload.job != row.job || row.status !in {Pending, Processing} then
              reply.Ack? && request.row == row && db.Contents() == t && channel.sent == old(channel.sent)
            else if payload.status == None then
              reply.Reject? && request.row == row && db.Contents() == t && channel.sent == old(channel.sent)
            else
              && request.row == Row(row.job, payload.status.value)
              && db.Contents() == Persist(t, request.id, payload.items).tables
              && if exists x :: x in payload.items && Blank(x.sourceURL) then
                   reply.Reject? && channel.sent == old(channel.sent)
                 else
                   && reply.Ack?
                   && channel.sent == old(channel.sent)
                     + [Message(request.id, payload.status.value, payload.items, payload.errors)]
  {
    if payload.Malformed? {
      return Reject;
    }
    if request.row.job != payload.job {
      return Ack;
    }
    if Terminal(request.row.status) {
      return Ack;
    }
    if payload.status.None? {
      return if Open(request.row.status) then Reject else Ack;
    }
    var updated := request.UpdateOpen(payload.job, payload.status.value);
    if updated == 0 {
      return Ack;
    }
    SucceedsExactly(db.Contents(), request.id, payload.items);
    var stored := db.Store(request.id, payload.items);
    if !stored {
      return Reject;
    }
    channel.Broadcast(Message(request.id, payload.status.value, payload.items, payload.errors));
    return Ack;
  }

  /** A result that is delivered twice, whole and one after the other, is stored and broadcast once; the second
      delivery is acknowledged. */
  method DeliveredTwice(payload: Payload, request: FeedRequest, db: Database, channel: Channel) returns (reply: Reply)
    requires Valid(db.Contents())
    requires payload.Result? && payload.status.Some? && !Open(payload.status.value)
    modifies request, db, channel
    ensures reply.Ack?
    ensures request.row == RowAfter(old(request.row), payload)
    ensures db.Contents() == if Accepted(old(request.row), payload)
                             then Persist(old(db.Contents()), request.id, payload.items).tables
                             else old(db.Contents())
    ensures channel.sent == old(channel.sent)
                          + if Accepted(old(request.row), payload) && Storable(payload.items)
                            then [Message(request.id, payload.status.value, payload.items, payload.errors)] else []
  {
    var first := Work(payload, request, db, channel);
    reply := Work(payload, request, db, channel);
  }

  /** When `Work` rejects a message that could be read. */
  predicate Rejects(row: Row, payload: Payload)
    requires payload.Result?
  {
    Matches(row, payload) && (payload.status.None? || !Storable(payload.items))
  }

  lemma NotAccepted(s: State, payload: Payload) returns (es: seq<Step>)
    requires payload.Result? && !Accepted(s.row, payload)
    ensures Legal(s, es) && Final(s, es).row == s.row && |Final(s, es).deliveries| == |s.deliveries| + 1
    ensures var d := Final(s, es).deliveries[|s.deliveries|];
            d.at == (if Rejects(s.row, payload) then Rejected else ResultStatus.Acked) && !d.told
  {
    var i := |s.deliveries|;
    es := [Arrive(payload.job, payload.status)];
    Then(s, [], es[0]);
    assert [] + es == es;
    Then(s, es, Guard(i));
    es := es + [Guard(i)];
    if IsAt(Final(s, es), i, Checked) {
      Then(s, es, CompareAndSwap(i));
      es := es + [CompareAndSwap(i)];
    }
  }

  /** What `Work` does whole is one run of the machine of interleaved deliveries: same row, same reply, same
      broadcast. */
  lemma WorkIsARun(s: State, payload: Payload) returns (es: seq<Step>)
    requires payload.Result?
    ensures Legal(s, es) && Final(s, es).row == RowAfter(s.row, payload)
        && |Final(s, es).deliveries| == |s.deliveries| + 1
    ensures var d := Final(s, es).deliveries[|s.deliveries|];
            && d.at == (if Rejects(s.row, payload) then Rejected else ResultStatus.Acked)
            && (d.told <==> Accepted(s.row, payload) && Storable(payload.items))
  {
    var i := |s.deliveries|;
    if !Accepted(s.row, payload) {
      es := NotAccepted(s, payload);
    } else if Storable(payload.items) {
      WorkWins(s, [], payload.status.value);
      es := [] + Whole(i, payload.job, payload.status.value);
    } else {
      WorkStages(s, [], s, payload.status.value, 3);
      es := [] + Whole(i, payload.job, payload.status.value)[..3];
      Then(s, es, Raise(i));
      es := es + [Raise(i)];
    }
  }
}
