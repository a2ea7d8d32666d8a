/** The job that publishes a request's command, and falls back to the synchronous endpoint when that raises. */
module PublishJob {
  import opened Base
  import opened Persistence
  import opened ResultJob
  import opened ResultStatus

  /** The body of a successful answer; a status that is missing or not listed is `Unlisted`. */
  datatype Body = Body(job: string, status: Status, items: seq<Item>, errors: seq<ErrorEntry>)

  /** How the call ends: no answer at all, or a code with a body that can be read or not. */
  datatype HttpReply = NoAnswer(message: string) | Answered(code: string, body: Option<Body>)

  const UNREADABLE := "unexpected token in JSON"
  const BAD_STATUS := "Validation failed: Status is not included in the list"
  const BLANK_URL := "Validation failed: Url can't be blank"
  const HTTP_FAILED := "Go RSS parser fallback failed with HTTP "

  predicate Readable(reply: HttpReply) {
    reply.Answered? && reply.code == "200" && reply.body.Some?
  }

  /** The answer's status and job reach the row. */
  predicate Recordable(reply: HttpReply) {
    Readable(reply) && !reply.body.value.status.Unlisted?
  }

  predicate Delivers(reply: HttpReply) {
    Recordable(reply) && Storable(reply.body.value.items)
  }

  /** The message that the failure broadcast carries. */
  function ErrorOf(reply: HttpReply): string
    requires !Delivers(reply)
  {
    if reply.NoAnswer? then reply.message
    else if reply.code != "200" then HTTP_FAILED + reply.code
    else if reply.body.None? then UNREADABLE
    else if reply.body.value.status.Unlisted? then BAD_STATUS
    else BLANK_URL
  }

  /** The request after the fallback: the answer's job and status, or failed, under the answer's job if it could be
      read. */
  function RowAfterFallback(row: Row, reply: HttpReply): Row {
    if Delivers(reply) then Row(reply.body.value.job, reply.body.value.status)
    else Row(if Readable(reply) then reply.body.value.job else row.job, Failed)
  }

  function TablesAfterFallback(t: Tables, request: nat, reply: HttpReply): Tables {
    if Recordable(reply) then Persist(t, request, reply.body.value.items).tables else t
  }

  function MessageAfterFallback(request: nat, reply: HttpReply): Message {
    if Delivers(reply) then Message(request, reply.body.value.status, reply.body.value.items, reply.body.value.errors)
    else Message(request, Failed, [], [Text(ErrorOf(reply))])
  }

  /** `published` and `marked` say whether the publication and the status write that follows it succeed. */
  method Perform(request: FeedRequest, db: Database, channel: Channel, published: bool, marked: bool, reply: HttpReply)
    requires Valid(db.Contents())
    modifies request, db, channel
    ensures Valid(db.Contents())
    ensures request.row == if published && marked then old(request.row).(status := Processing)
                           else RowAfterFallback(old(request.row), reply)
    ensures db.Contents() == if published && marked then old(db.Contents())
                             else TablesAfterFallback(old(db.Contents()), request.id, reply)
    ensures channel.sent == old(channel.sent)
                          + if published && marked then [] else [MessageAfterFallback(request.id, reply)]
  {
    if published && marked {
      request.row := request.row.(status := Processing);
      return;
    }
    ExecuteFallback(request, db, channel, reply);
  }

  method ExecuteFallback(request: FeedRequest, db: Database, channel: Channel, reply: HttpReply)
    requires Valid(db.Contents())
    modifies request, db, channel
    ensures Valid(db.Contents())
    ensures request.row == RowAfterFallback(old(request.row), reply)
    ensures db.Contents() == TablesAfterFallback(old(db.Contents()), request.id, reply)
    ensures channel.sent == old(channel.sent) + [MessageAfterFallback(request.id, reply)]
    // Case by case: no answer, another code, a body that cannot be read, a status that is not listed, and the rest.
    ensures var row, t, id := old(request.row), old(db.Contents()), request.id;
            match reply
            case NoAnswer(message) =>
              && request.row == Row(row.job, Failed) && db.Contents() == t
              && channel.sent == old(channel.sent) + [Message(id, Failed, [], [Text(message)])]
            case Answered(code, body) =>
              if code != "200" then
                && request.row == Row(row.job, Failed) && db.Contents() == t
                && channel.sent == old(channel.sent)
                  + [Message(id, Failed, [], [Text("Go RSS parser fallback failed with HTTP " + code)])]
              else if body == None then
                && request.row == Row(row.job, Failed) && db.Contents() == t
                && channel.sent == old(channel.sent) + [Message(id, Failed, [], [Text("unexpected token in JSON")])]
              else if body.value.status.Unlisted? then
                && request.row == Row(body.value.job, Failed) && db.Contents() == t
                && channel.sent == old(channel.sent)
                  + [Message(id, Failed, [], [Text("Validation failed: Status is not included in the list")])]
              else
                && db.Contents() == Persist(t, id, body.value.items).tables
                && if exists x :: x in body.value.items && Blank(x.sourceURL) then
                     && request.row == Row(body.value.job, Failed)
                     && channel.sent == old(channel.sent)
                       + [Message(id, Failed, [], [Text("Validation failed: Url can't be blank")])]
                   else
                     && request.row == Row(body.value.job, body.value.status)
                     && channel.sent == old(channel.sent)
                       + [Message(id, body.value.status, body.value.items, body.value.errors)]
  {
    var job := request.row.job;
    var error: Option<string> := None;
    if reply.NoAnswer? {
      error := Some(reply.message);
    } else if reply.code == "200" {
      if reply.body.None? {
        error := Some(UNREADABLE);
      } else {
        var data := reply.body.value;
        job := data.job;
        if data.status.Unlisted? {
          error := Some(BAD_STATUS);
        } else {
          request.row := Row(job, data.status);
          SucceedsExactly(db.Contents(), request.id, data.items);
          var stored := db.Store(request.id, data.items);
          if stored {
            channel.Broadcast(Message(request.id, data.status, data.items, data.errors));
          } else {
            error := Some(BLANK_URL);
          }
        }
      }
    } else {
      error := Some(HTTP_FAILED + reply.code);
    }
    if error.Some? {
      request.row := Row(job, Failed);
      channel.Broadcast(Message(request.id, Failed, [], [Text(error.value)]));
    }
  }

  /** The publisher has just loaded the request and not begun. */
  predicate Loaded(s: State) {
    s.publisher == Publisher(ResultStatus.Publishing, s.row, s.row) && s.row.status.Pending?
  }

  /** What the publisher does after its attempt to publish, for one way the call ends. */
  function FallbackSteps(reply: HttpReply): seq<Step> {
    if Delivers(reply) then [Answer(reply.body.value.job, reply.body.value.status), Finish]
    else if Recordable(reply) then [Answer(reply.body.value.job, reply.body.value.status), GiveUp, RecordFailure]
    else if Readable(reply) then [Answer(reply.body.value.job, reply.body.value.status), RecordFailure]
    else [GiveUp, RecordFailure]
  }

  /** The fallback, in the machine: the publisher's copy differs from the row in the status at most. */
  lemma FallbackIsARun(s: State, reply: HttpReply)
    requires s.publisher.phase.Calling? && s.publisher.saved == s.row && s.row.status.Pending?
    requires s.publisher.current.job == s.row.job
    ensures var es := FallbackSteps(reply);
            && Legal(s, es) && Final(s, es).row == RowAfterFallback(s.row, reply)
            && Final(s, es).publisher.phase.Ended? && Final(s, es).deliveries == s.deliveries
  {
    var es := FallbackSteps(reply);
    var t := Apply(s, es[0]);
    assert es[1..][0] == es[1] && Enabled(t, es[1]);
    var u := Apply(t, es[1]);
    if |es| == 3 {
      assert es[1..][1..] == [RecordFailure] && [RecordFailure][1..] == [];
      assert Legal(u, [RecordFailure]) && Final(u, [RecordFailure]) == Apply(u, RecordFailure);
    } else {
      assert es[1..][1..] == [] && Final(u, []) == u;
      assert Final(s, es) == Final(t, es[1..]) == Final(u, es[1..][1..]);
    }
  }

  /** The publisher's work as a whole is one run of the machine that interleaves it with deliveries: same row, and no
      delivery touched. */
  lemma PerformIsARun(s: State, published: bool, marked: bool, reply: HttpReply) returns (es: seq<Step>)
    requires Loaded(s)
    ensures Legal(s, es) && Final(s, es).publisher.phase.Ended? && Final(s, es).deliveries == s.deliveries
    ensures Final(s, es).row == if published && marked then s.row.(status := Processing)
                                else RowAfterFallback(s.row, reply)
  {
    es := if published then [Publish] else [];
    assert [Publish][1..] == [];
    if published && marked {
      Then(s, es, Mark);
      es := es + [Mark];
    } else {
      Then(s, es, FallBack);
      es := es + [FallBack];
      FallbackIsARun(Final(s, es), reply);
      Compose(s, es, FallbackSteps(reply));
      es := es + FallbackSteps(reply);
    }
  }

  /** The answers of the synchronous endpoint are done or failed. */
  predicate Concludes(reply: HttpReply) {
    Readable(reply) ==> !Open(reply.body.value.status)
  }

  /**
   A publisher that fell back has closed the request: whatever result the queue still delivers changes neither the
   tables nor the channel. This holds even if the command was published and only the mark failed, and when the endpoint
   answered 202 because it queued the command itself: then the request stays failed and its result is thrown away.
   */
  method FallbackDiscardsLaterResults(
    request: FeedRequest, db: Database, channel: Channel, published: bool, reply: HttpReply, payload: Payload)
    returns (answer: Reply)
    requires Valid(db.Contents()) && Concludes(reply)
    modifies request, db, channel
    ensures db.Contents() == TablesAfterFallback(old(db.Contents()), request.id, reply)
    ensures channel.sent == old(channel.sent) + [MessageAfterFallback(request.id, reply)]
    ensures request.row == RowAfterFallback(old(request.row), reply)
    ensures answer.Ack? <==> payload.Result?
    ensures reply.Answered? && reply.code == "202" ==>
              db.Contents() == old(db.Contents()) && request.row.status.Failed?
  {
    Perform(request, db, channel, published, false, reply);
    answer := Work(payload, request, db, channel);
  }

  /** A publisher that marked the request leaves it open for exactly one result: the first conclusive one is stored
      and broadcast, a second changes nothing. */
  method MarkedRequestTakesOneResult(
    request: FeedRequest, db: Database, channel: Channel, reply: HttpReply, first: Payload, second: Payload)
    returns (answer: Reply)
    requires Valid(db.Contents())
    requires first.Result? && first.job == request.row.job && first.status.Some? && !Open(first.status.value)
        && Storable(first.items)
    modifies request, db, channel
    ensures request.row == Row(old(request.row).job, first.status.value)
    ensures db.Contents() == Persist(old(db.Contents()), request.id, first.items).tables
    ensures channel.sent == old(channel.sent) + [Message(request.id, first.status.value, first.items, first.errors)]
    ensures answer.Ack? <==> second.Result?
  {
    Perform(request, db, channel, true, true, reply);
    var _ := Work(first, request, db, channel);
    answer := Work(second, request, db, channel);
  }
}
