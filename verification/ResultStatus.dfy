/**
 A feed request's row, the job that publishes its command or falls back to a synchronous call, and
 any number of interleaved deliveries of results: the guard, the compare-and-swap on the status, and
 what follows for the delivery that wins it. Every step is one statement that other processes see
 whole; a delivery or the publisher may raise anywhere, and a process that dies anywhere has its unsettled
 delivery redelivered. A lost connection does not stop a delivery under way, it only makes a copy arrive.
 */
module ResultStatus {
  import opened Base
  import opened Sequences

  /** The four listed statuses, or any other text a payload carries. */
  datatype Status = Pending | Processing | Completed | Failed | Unlisted(text: string)

  /** The statuses the guard lets no delivery past. */
  predicate Terminal(s: Status) {
    s.Completed? || s.Failed?
  }

  /** The statuses the compare-and-swap accepts. */
  predicate Open(s: Status) {
    s.Pending? || s.Processing?
  }

  datatype Row = Row(job: string, status: Status)

  /******* A delivery *******/

  datatype Place =
    | Received      // about to look the request up
    | Checked       // past the guard
    | Storing       // won, about to persist the items
    | Broadcasting  // items persisted
    | Acked
    | Rejected      // raised, dropped by the broker
    | Crashed       // the process died; a copy is redelivered

  /** A result with the job and status its payload names, and what its processing has done so far. */
  datatype Delivery = Delivery(job: string, status: Option<Status>, at: Place, won: bool, stored: bool, told: bool)

  predicate Settled(d: Delivery) {
    d.at.Acked? || d.at.Rejected? || d.at.Crashed?
  }

  /** The guard: an unknown job and a finished request are acknowledged. */
  function Look(row: Row, d: Delivery): Delivery {
    d.(at := if row.job != d.job || Terminal(row.status) then Acked else Checked)
  }

  predicate Swaps(row: Row, d: Delivery) {
    row.job == d.job && Open(row.status) && d.status.Some?
  }

  /** The compare-and-swap: no matching row, an acknowledgement; a missing status violates the column's constraint. */
  function Swap(row: Row, d: Delivery): Delivery {
    if Swaps(row, d) then d.(at := Storing, won := true)
    else if row.job == d.job && Open(row.status) then d.(at := Rejected)
    else d.(at := Acked)
  }

  /******* The publisher *******/

  datatype Phase =
    | Publishing
    | Published      // about to mark the request as processing
    | Calling        // the synchronous fallback
    | Persisting     // the fallback's answer is written to the row
    | Recovering     // the fallback raised
    | Ended

  /** The publisher's copy of the row: as last loaded or saved, and as assigned since. */
  datatype Publisher = Publisher(phase: Phase, saved: Row, current: Row)

  /** A save writes the columns that were assigned a new value, whatever the row holds by then. */
  function Saved(row: Row, p: Publisher): Row {
    Row(if p.current.job != p.saved.job then p.current.job else row.job,
        if p.current.status != p.saved.status then p.current.status else row.status)
  }

  /******* The machine *******/

  /** The counters are history: saves that closed an open request, and saves that opened one that was not. */
  datatype State = State(row: Row, publisher: Publisher, deliveries: seq<Delivery>, closings: nat, reopenings: nat)

  datatype Step =
    | Arrive(job: string, status: Option<Status>)
    | Guard(i: nat)
    | CompareAndSwap(i: nat)
    | Store(i: nat)
    | Broadcast(i: nat)
    | Raise(i: nat)
    | Crash(i: nat)
    | Publish
    | Mark
    | Answer(job: string, result: Status)
    | Finish
    | FallBack
    | GiveUp
    | RecordFailure

  /** A request is created pending, and the publisher loads it. */
  function Initial(job: string): State {
    var row := Row(job, Pending);
    State(row, Publisher(Publishing, row, row), [], 0, 0)
  }

  predicate IsAt(s: State, i: nat, p: Place) {
    i < |s.deliveries| && s.deliveries[i].at == p
  }

  predicate Enabled(s: State, e: Step) {
    match e
    case Arrive(_, _) => true
    case Guard(i) => IsAt(s, i, Received)
    case CompareAndSwap(i) => IsAt(s, i, Checked)
    case Store(i) => IsAt(s, i, Storing)
    case Broadcast(i) => IsAt(s, i, Broadcasting)
    case Raise(i) => i < |s.deliveries| && !Settled(s.deliveries[i])
    case Crash(i) => i < |s.deliveries| && !Settled(s.deliveries[i])
    case Publish => s.publisher.phase.Publishing?
    case Mark => s.publisher.phase.Published?
    case Answer(_, _) => s.publisher.phase.Calling?
    case Finish => s.publisher.phase.Persisting?
    case FallBack => s.publisher.phase.Publishing? || s.publisher.phase.Published?
    case GiveUp => s.publisher.phase.Calling? || s.publisher.phase.Persisting?
    case RecordFailure => s.publisher.phase.Recovering?
  }

  predicate OfPublisher(e: Step) {
    e.Publish? || e.Mark? || e.Answer? || e.Finish? || e.FallBack? || e.GiveUp? || e.RecordFailure?
  }

  /** Saves the publisher's copy with new values and records what that did to the row. */
  function Save(s: State, job: string, status: Status, next: Phase): State {
    var p := s.publisher.(current := Row(job, status));
    var row := Saved(s.row, p);
    s.(row := row,
       publisher := Publisher(next, p.current, p.current),
       closings := s.closings + One(Open(s.row.status) && !Open(row.status)),
       reopenings := s.reopenings + One(!Open(s.row.status) && Open(row.status)))
  }

  function ApplyPublisher(s: State, e: Step): State
    requires OfPublisher(e)
  {
    var p := s.publisher;
    if e.Publish? then s.(publisher := p.(phase := Published))
    else if e.Mark? then Save(s, p.current.job, Processing, Ended)
    else if e.Answer? then
      // an unlisted status fails validation after the assignment
      if e.result.Unlisted? then s.(publisher := p.(current := Row(e.job, e.result), phase := Recovering))
      else Save(s, e.job, e.result, Persisting)
    else if e.Finish? then s.(publisher := p.(phase := Ended))
    else if e.FallBack? then
      // raising at the mark leaves its assignment in the copy
      s.(publisher := p.(phase := Calling, current := if p.phase.Published? then p.current.(status := Processing)
        else p.current))
    else if e.GiveUp? then s.(publisher := p.(phase := Recovering))
    else Save(s, p.current.job, Failed, Ended)
  }

  function Put(s: State, i: nat, d: Delivery): State
    requires i < |s.deliveries|
  {
    s.(deliveries := s.deliveries[i := d])
  }

  function ApplyDelivery(s: State, e: Step): State
    requires Enabled(s, e) && !OfPublisher(e)
  {
    if e.Arrive? then s.(deliveries := s.deliveries + [Delivery(e.job, e.status, Received, false, false, false)])
    else
      var d := s.deliveries[e.i];
      if e.Guard? then Put(s, e.i, Look(s.row, d))
      else if e.CompareAndSwap? then
        Put(s, e.i, Swap(s.row, d)).(row := if Swaps(s.row, d) then s.row.(status := d.status.value) else s.row)
      else if e.Store? then Put(s, e.i, d.(at := Broadcasting, stored := true))
      else if e.Broadcast? then Put(s, e.i, d.(at := Acked, told := true))
      else if e.Raise? then Put(s, e.i, d.(at := Rejected))
      else
        var dead := Put(s, e.i, d.(at := Crashed));
        dead.(deliveries := dead.deliveries + [Delivery(d.job, d.status, Received, false, false, false)])
  }

  function Apply(s: State, e: Step): State
    requires Enabled(s, e)
  {
    if OfPublisher(e) then ApplyPublisher(s, e) else ApplyDelivery(s, e)
  }

  predicate Legal(s: State, es: seq<Step>)
    decreases |es|
  {
    es == [] || (Enabled(s, es[0]) && Legal(Apply(s, es[0]), es[1..]))
  }

  function Final(s: State, es: seq<Step>): State
    requires Legal(s, es)
    decreases |es|
  {
    if es == [] then s else Final(Apply(s, es[0]), es[1..])
  }

  ghost predicate Reachable(s: State) {
    exists job, es :: Legal(Initial(job), es) && Final(Initial(job), es) == s
  }

  /******* What is counted *******/

  predicate HasWon(d: Delivery) {
    d.won
  }

  /** A win that took the request out of the open statuses. */
  predicate Sealed(d: Delivery) {
    d.won && d.status.Some? && !Open(d.status.value)
  }

  /** A win whose payload says the request is still open. */
  predicate Leaked(d: Delivery) {
    d.won && d.status.Some? && Open(d.status.value)
  }

  predicate HasStored(d: Delivery) {
    d.stored
  }

  predicate HasTold(d: Delivery) {
    d.told
  }

  /** A winner whose items will never be persisted. */
  predicate Abandoned(d: Delivery) {
    d.won && !d.stored && Settled(d)
  }

  function Wins(s: State): nat {
    Tally(HasWon, s.deliveries)
  }

  /******* The invariant *******/

  /** Only a winner persists, only what is persisted is broadcast, and no winner is acknowledged before that. */
  predicate Sane(d: Delivery) {
    && (d.won ==> d.status.Some?)
    && (d.stored ==> d.won)
    && (d.told ==> d.stored)
    && (d.at.Received? || d.at.Checked? ==> !d.won)
    && (d.at.Storing? ==> d.won && !d.stored)
    && (d.at.Broadcasting? ==> d.stored && !d.told)
    && (d.at.Acked? && d.won ==> d.told)
  }

  /** Closing and opening alternate, and a request starts open. */
  predicate Balanced(s: State) {
    Tally(Sealed, s.deliveries) + s.closings + One(Open(s.row.status)) == 1 + s.reopenings
  }

  predicate Partition(ds: seq<Delivery>) {
    Tally(HasWon, ds) == Tally(Sealed, ds) + Tally(Leaked, ds)
  }

  predicate AllSane(ds: seq<Delivery>) {
    forall i :: 0 <= i < |ds| ==> Sane(ds[i])
  }

  predicate Inv(s: State) {
    && AllSane(s.deliveries)
    && Balanced(s)
    && Partition(s.deliveries)
  }

  lemma PutKeeps(s: State, i: nat, d: Delivery)
    requires i < |s.deliveries| && AllSane(s.deliveries) && Partition(s.deliveries) && Sane(d)
    ensures AllSane(Put(s, i, d).deliveries) && Partition(Put(s, i, d).deliveries)
    ensures Tally(Sealed, Put(s, i, d).deliveries) + One(Sealed(s.deliveries[i]))
        == Tally(Sealed, s.deliveries) + One(Sealed(d))
  {
    TallyUpdate(HasWon, s.deliveries, i, d);
    TallyUpdate(Sealed, s.deliveries, i, d);
    TallyUpdate(Leaked, s.deliveries, i, d);
  }

  lemma ArrivalKeeps(ds: seq<Delivery>, d: Delivery)
    requires AllSane(ds) && Partition(ds)
    requires d.at.Received? && !d.won && Sane(d)
    ensures AllSane(ds + [d]) && Partition(ds + [d])
    ensures Tally(Sealed, ds + [d]) == Tally(Sealed, ds)
  {
    TallyAppend(HasWon, ds, d);
    TallyAppend(Sealed, ds, d);
    TallyAppend(Leaked, ds, d);
  }

  lemma DeliveryKeepsInv(s: State, e: Step)
    requires Inv(s) && Enabled(s, e) && !OfPublisher(e)
    ensures Inv(Apply(s, e))
  {
    if e.Arrive? {
      ArrivalKeeps(s.deliveries, Delivery(e.job, e.status, Received, false, false, false));
    } else {
      var d := s.deliveries[e.i];
      assert Sane(d);
      var after := Apply(s, e);
      PutKeeps(s, e.i, after.deliveries[e.i]);
      if e.Crash? {
        ArrivalKeeps(Put(s, e.i, d.(at := Crashed)).deliveries,
          Delivery(d.job, d.status, Received, false, false, false));
      }
    }
  }

  lemma PublisherKeepsInv(s: State, e: Step)
    requires Inv(s) && Enabled(s, e) && OfPublisher(e)
    ensures Inv(Apply(s, e))
  {
  }

  lemma StepKeepsInv(s: State, e: Step)
    requires Inv(s) && Enabled(s, e)
    ensures Inv(Apply(s, e))
  {
    if OfPublisher(e) {
      PublisherKeepsInv(s, e);
    } else {
      DeliveryKeepsInv(s, e);
    }
  }

  lemma {:induction false} RunKeepsInv(s: State, es: seq<Step>)
    requires Inv(s) && Legal(s, es)
    ensures Inv(Final(s, es))
    decreases |es|
  {
    if es != [] {
      StepKeepsInv(s, es[0]);
      RunKeepsInv(Apply(s, es[0]), es[1..]);
    }
  }

  lemma ReachableInv(s: State)
    requires Reachable(s)
    ensures Inv(s)
  {
    var job, es :| Legal(Initial(job), es) && Final(Initial(job), es) == s;
    RunKeepsInv(Initial(job), es);
  }

  /******* Winners *******/

  /** Every payload names a status that is not open. */
  predicate Conclusive(s: State) {
    forall d :: d in s.deliveries && d.status.Some? ==> !Open(d.status.value)
  }

  /**
   The exact number of winners: one for the request's creation, one for each time the publisher opened it
   again, and the wins whose payload left it open, less what the publisher closed and what is still open.
   Whoever broadcasts has persisted, and whoever persists has won.
   */
  lemma WinnersExactly(s: State)
    requires Reachable(s)
    ensures Wins(s) + s.closings + One(Open(s.row.status)) == 1 + s.reopenings + Tally(Leaked, s.deliveries)
    ensures Tally(HasTold, s.deliveries) <= Tally(HasStored, s.deliveries) <= Wins(s)
    ensures Conclusive(s) ==> Tally(Leaked, s.deliveries) == 0
  {
    ReachableInv(s);
    var ds := s.deliveries;
    assert forall i :: 0 <= i < |ds| ==> ds[i] in ds;
    TallyMonotone(HasStored, HasWon, ds);
    TallyMonotone(HasTold, HasStored, ds);
    if Conclusive(s) {
      TallyMonotone(HasWon, Sealed, ds);
    }
  }

  /******* The publisher's writes *******/

  /** The fallback only reports what the synchronous endpoint answers, which is done or failed. */
  predicate AnswersConclude(es: seq<Step>) {
    forall e :: e in es && e.Answer? ==> !Open(e.result)
  }

  /** What the publisher has saved and still may save. */
  predicate PublisherInv(s: State) {
    var p := s.publisher;
    && s.reopenings <= 1
    && (!p.phase.Ended? ==> s.reopenings == 0)
    && (p.phase.Publishing? || p.phase.Published? ==>
      p.saved == p.current && p.saved.status.Pending? && s.closings == 0)
    && (s.reopenings == 1 ==> s.closings == 0)
  }

  /** A save leaves alone what the publisher has no news about, whatever other processes wrote there meanwhile: a
      column changes only to the publisher's own value, if that differs from the one it last loaded or saved. */
  lemma SavesOnlyNews(s: State, e: Step)
    requires Enabled(s, e) && OfPublisher(e)
    ensures var before, after, row := s.publisher, Apply(s, e).publisher, Apply(s, e).row;
            && (row.job != s.row.job ==> row.job == after.saved.job && row.job != before.saved.job)
            && (row.status != s.row.status ==> row.status == after.saved.status && row.status != before.saved.status)
            && (after.saved.job != before.saved.job ==> row.job == after.saved.job)
            && (after.saved.status != before.saved.status ==> row.status == after.saved.status)
  {
  }

  /** So an answer that repeats the status does not open a request again that a delivery finished in between. */
  lemma SameAnswerKeepsStatus(s: State, job: string)
    requires Enabled(s, Answer(job, s.publisher.saved.status)) && !s.publisher.saved.status.Unlisted?
    ensures Apply(s, Answer(job, s.publisher.saved.status)).row.status == s.row.status
  {
    SavesOnlyNews(s, Answer(job, s.publisher.saved.status));
  }

  lemma StepKeepsPublisherInv(s: State, e: Step)
    requires PublisherInv(s) && Enabled(s, e) && (e.Answer? ==> !Open(e.result))
    ensures PublisherInv(Apply(s, e))
  {
    if !OfPublisher(e) {
      assert ApplyDelivery(s, e).publisher == s.publisher;
    }
  }

  lemma {:induction false} RunKeepsPublisherInv(s: State, es: seq<Step>)
    requires PublisherInv(s) && Legal(s, es) && AnswersConclude(es)
    ensures PublisherInv(Final(s, es))
    decreases |es|
  {
    if es != [] {
      assert es[0] in es;
      StepKeepsPublisherInv(s, es[0]);
      RunKeepsPublisherInv(Apply(s, es[0]), es[1..]);
    }
  }

  /**
   At most one delivery wins, unless marking the request as processing came after a win: then two
   may. The fallback and a delivery exclude each other in the same way.
   */
  lemma AtMostTwoWinners(job: string, es: seq<Step>)
    requires Legal(Initial(job), es) && AnswersConclude(es) && Conclusive(Final(Initial(job), es))
    ensures var s := Final(Initial(job), es);
            && s.reopenings <= 1
            && Wins(s) + s.closings <= 1 + s.reopenings
            && (s.reopenings == 1 ==> s.closings == 0 && s.publisher.phase.Ended?)
  {
    var s := Final(Initial(job), es);
    RunKeepsPublisherInv(Initial(job), es);
    assert Reachable(s);
    WinnersExactly(s);
  }

  lemma {:induction false} Then(s: State, es: seq<Step>, e: Step)
    requires Legal(s, es) && Enabled(Final(s, es), e)
    ensures Legal(s, es + [e]) && Final(s, es + [e]) == Apply(Final(s, es), e)
    decreases |es|
  {
    if es == [] {
      assert [e][1..] == [];
    } else {
      assert (es + [e])[0] == es[0] && (es + [e])[1..] == es[1..] + [e];
      Then(Apply(s, es[0]), es[1..], e);
    }
  }

  lemma {:induction false} Compose(s: State, es: seq<Step>, more: seq<Step>)
    requires Legal(s, es) && Legal(Final(s, es), more)
    ensures Legal(s, es + more) && Final(s, es + more) == Final(Final(s, es), more)
    decreases |es|
  {
    if es == [] {
      assert es + more == more;
    } else {
      assert (es + more)[0] == es[0] && (es + more)[1..] == es[1..] + more;
      Compose(Apply(s, es[0]), es[1..], more);
    }
  }

  /** A run in which the publisher does nothing. */
  predicate Quiet(es: seq<Step>) {
    forall e :: e in es ==> !OfPublisher(e)
  }

  /** A copy of the result arrives as the delivery numbered `i` and is processed to the end. */
  function Whole(i: nat, job: string, status: Status): seq<Step> {
    [Arrive(job, Some(status)), Guard(i), CompareAndSwap(i), Store(i), Broadcast(i)]
  }

  /** The states a delivery passes through that arrives while the request is open. */
  function Stage(s: State, status: Status, k: nat): State {
    var d := Delivery(s.row.job, Some(status), Received, false, false, false);
    var won := s.(row := s.row.(status := status));
    if k == 0 then s
    else if k == 1 then s.(deliveries := s.deliveries + [d])
    else if k == 2 then s.(deliveries := s.deliveries + [d.(at := Checked)])
    else if k == 3 then won.(deliveries := s.deliveries + [d.(at := Storing, won := true)])
    else if k == 4 then won.(deliveries := s.deliveries + [d.(at := Broadcasting, won := true, stored := true)])
    else won.(deliveries := s.deliveries + [d.(at := Acked, won := true, stored := true, told := true)])
  }

  lemma StageStep(s: State, status: Status, k: nat)
    requires Open(s.row.status) && k < 5
    ensures var e := Whole(|s.deliveries|, s.row.job, status)[k];
            Enabled(Stage(s, status, k), e) && Apply(Stage(s, status, k), e) == Stage(s, status, k + 1)
  {
    var e, i := Whole(|s.deliveries|, s.row.job, status)[k], |s.deliveries|;
    if k > 0 {
      var s' := Apply(Stage(s, status, k), e);
      assert s'.deliveries == s.deliveries + [s'.deliveries[i]];
    }
  }

  lemma {:induction false} WorkStages(start: State, es: seq<Step>, s: State, status: Status, k: nat)
    requires Legal(start, es) && Final(start, es) == s && Open(s.row.status) && k <= 5
    ensures var es' := es + Whole(|s.deliveries|, s.row.job, status)[..k];
            Legal(start, es') && Final(start, es') == Stage(s, status, k)
  {
    var work := Whole(|s.deliveries|, s.row.job, status);
    if k == 0 {
      assert es + work[..0] == es;
    } else {
      WorkStages(start, es, s, status, k - 1);
      StageStep(s, status, k - 1);
      var before, e := es + work[..k - 1], work[k - 1];
      Then(start, before, e);
      TakeOneMore(es, work, k);
    }
  }

  /** The request is open, so the next delivery to be processed wins. */
  lemma WorkWins(start: State, es: seq<Step>, status: Status)
    requires Legal(start, es) && Open(Final(start, es).row.status)
    ensures var s := Final(start, es);
            var es' := es + Whole(|s.deliveries|, s.row.job, status);
            && Legal(start, es')
            && Final(start, es') == s.(row := s.row.(status := status),
                                       deliveries := s.deliveries
                                         + [Delivery(s.row.job, Some(status), Acked, true, true, true)])
  {
    WorkStages(start, es, Final(start, es), status, 5);
    var work := Whole(|Final(start, es).deliveries|, Final(start, es).row.job, status);
    assert work[..5] == work;
  }

  /** Marking after the result has arrived opens the finished request again, and a second copy of the result wins
      too. */
  lemma MarkingLateAdmitsASecondWinner(job: string) returns (es: seq<Step>)
    ensures Legal(Initial(job), es) && AnswersConclude(es) && Conclusive(Final(Initial(job), es))
    ensures Wins(Final(Initial(job), es)) == 2 && Tally(HasTold, Final(Initial(job), es).deliveries) == 2
  {
    var start, d := Initial(job), Delivery(job, Some(Completed), Acked, true, true, true);
    Then(start, [], Publish);
    WorkWins(start, [Publish], Completed);
    es := [Publish] + Whole(0, job, Completed);
    Then(start, es, Mark);
    es := es + [Mark];
    WorkWins(start, es, Completed);
    es := es + Whole(1, job, Completed);
    TallyAppend(HasWon, [], d);
    TallyAppend(HasTold, [], d);
    TallyAppend(HasWon, [] + [d], d);
    TallyAppend(HasTold, [] + [d], d);
    assert Final(start, es).deliveries == [] + [d] + [d];
  }

  lemma WorkAddsAWinner(start: State, es: seq<Step>, s: State, status: Status)
    requires Legal(start, es) && Final(start, es) == s && Open(s.row.status) && Quiet(es)
    ensures var es' := es + Whole(|s.deliveries|, s.row.job, status);
            && Legal(start, es') && Quiet(es')
            && Final(start, es').row == Row(s.row.job, status)
            && Wins(Final(start, es')) == Wins(s) + 1
  {
    WorkWins(start, es, status);
    TallyAppend(HasWon, s.deliveries, Delivery(s.row.job, Some(status), Acked, true, true, true));
  }

  /** Conclusive payloads are needed: if results may say "processing", any number of deliveries win. */
  lemma {:induction false} OpenPayloadsAdmitAnyNumber(job: string, n: nat) returns (es: seq<Step>)
    ensures Legal(Initial(job), es) && Quiet(es) && Wins(Final(Initial(job), es)) == n
    ensures Final(Initial(job), es).row.job == job && Open(Final(Initial(job), es).row.status)
  {
    if n == 0 {
      es := [];
    } else {
      es := OpenPayloadsAdmitAnyNumber(job, n - 1);
      var s := Final(Initial(job), es);
      WorkAddsAWinner(Initial(job), es, s, Processing);
      es := es + Whole(|s.deliveries|, job, Processing);
    }
  }

  /******* A finished request *******/

  lemma TerminalStep(s: State, e: Step)
    requires Enabled(s, e) && !OfPublisher(e) && Terminal(s.row.status)
    ensures Apply(s, e).row == s.row && Wins(Apply(s, e)) == Wins(s)
    ensures Tally(Abandoned, s.deliveries) <= Tally(Abandoned, Apply(s, e).deliveries)
  {
    var fresh' := Delivery("", None, Received, false, false, false);
    if e.Arrive? {
      fresh' := Delivery(e.job, e.status, Received, false, false, false);
      TallyAppend(HasWon, s.deliveries, fresh');
      TallyAppend(Abandoned, s.deliveries, fresh');
    } else {
      var ds, d' := s.deliveries, Apply(s, e).deliveries[e.i];
      TallyUpdate(HasWon, ds, e.i, d');
      TallyUpdate(Abandoned, ds, e.i, d');
      if e.Crash? {
        fresh' := Delivery(ds[e.i].job, ds[e.i].status, Received, false, false, false);
        TallyAppend(HasWon, ds[e.i := d'], fresh');
        TallyAppend(Abandoned, ds[e.i := d'], fresh');
      }
    }
  }

  /** While the publisher is quiet, a terminal status absorbs: nothing changes the row and nobody wins any more. */
  lemma {:induction false} TerminalAbsorbs(s: State, es: seq<Step>)
    requires Terminal(s.row.status) && Legal(s, es) && Quiet(es)
    ensures Final(s, es).row == s.row && Wins(Final(s, es)) == Wins(s)
    ensures Tally(Abandoned, s.deliveries) <= Tally(Abandoned, Final(s, es).deliveries)
    decreases |es|
  {
    if es != [] {
      assert es[0] in es;
      TerminalStep(s, es[0]);
      TerminalAbsorbs(Apply(s, es[0]), es[1..]);
    }
  }

  lemma {:induction false} StoredOrAbandoned(ds: seq<Delivery>)
    requires AllSane(ds)
    ensures Tally(HasStored, ds) + Tally(Abandoned, ds) <= Tally(HasWon, ds)
  {
    if ds != [] {
      StoredOrAbandoned(ds[1..]);
    }
  }

  /** What a winner abandoned stays lost: however many copies of the result still arrive, none stores it. */
  lemma NobodyRepairs(s: State, es: seq<Step>)
    requires Reachable(s) && Terminal(s.row.status) && Legal(s, es) && Quiet(es)
    ensures Tally(HasStored, Final(s, es).deliveries) + Tally(Abandoned, s.deliveries) <= Wins(s)
  {
    ReachableInv(s);
    RunKeepsInv(s, es);
    TerminalAbsorbs(s, es);
    StoredOrAbandoned(Final(s, es).deliveries);
  }

  /** The guard is final: a delivery that finds the request finished, or of another job, is acknowledged there and then
      and wins nothing, even if the publisher opens the request again before the delivery would have swapped. */
  lemma GuardIsFinal(s: State, i: nat, es: seq<Step>)
    requires Reachable(s) && IsAt(s, i, Received)
    requires s.row.job != s.deliveries[i].job || s.row.status.Completed? || s.row.status.Failed?
    requires Legal(s, [Guard(i)] + es)
    ensures var t := Final(s, [Guard(i)] + es);
            i < |t.deliveries| && t.deliveries[i] == s.deliveries[i].(at := Acked) && !t.deliveries[i].won
  {
    ReachableInv(s);
    assert Sane(s.deliveries[i]);
    var all := [Guard(i)] + es;
    assert all[0] == Guard(i) && all[1..] == es;
    SettledStays(Apply(s, Guard(i)), i, es);
  }

  /** What the compare-and-swap decides: a delivery wins exactly if the row is of its job, still pending or processing,
      and the payload names a status, which the row then takes; a missing status is rejected there, and anything else
      is acknowledged without touching the row. */
  lemma SwapExactly(s: State, i: nat)
    requires Reachable(s) && IsAt(s, i, Checked)
    ensures var d, t := s.deliveries[i], Apply(s, CompareAndSwap(i));
            var open := s.row.job == d.job && s.row.status in {Pending, Processing};
            && i < |t.deliveries|
            && (t.deliveries[i].won <==> open && d.status != None)
            && (t.deliveries[i].at.Rejected? <==> open && d.status == None)
            && (t.deliveries[i].at.Acked? <==> !open)
            && t.row == if t.deliveries[i].won then Row(s.row.job, d.status.value) else s.row
  {
    ReachableInv(s);
    assert Sane(s.deliveries[i]);
  }

  /** A copy of the message of a crashed delivery arrives later. */
  predicate Redelivered(ds: seq<Delivery>, i: nat)
    requires i < |ds|
  {
    exists j :: i < j < |ds| && ds[j].job == ds[i].job && ds[j].status == ds[i].status
  }

  predicate NoneForgotten(s: State) {
    forall i :: 0 <= i < |s.deliveries| && s.deliveries[i].at.Crashed? ==> Redelivered(s.deliveries, i)
  }

  lemma StepForgetsNone(s: State, e: Step)
    requires NoneForgotten(s) && Enabled(s, e)
    ensures NoneForgotten(Apply(s, e))
  {
    var ds, ds' := s.deliveries, Apply(s, e).deliveries;
    assert |ds| <= |ds'| && forall i :: 0 <= i < |ds| ==> ds'[i].job == ds[i].job && ds'[i].status == ds[i].status;
    forall i | 0 <= i < |ds'| && ds'[i].at.Crashed?
      ensures Redelivered(ds', i)
    {
      if i < |ds| && ds[i].at.Crashed? {
        var j :| i < j < |ds| && ds[j].job == ds[i].job && ds[j].status == ds[i].status;
        assert ds'[j].job == ds'[i].job && ds'[j].status == ds'[i].status;
      } else {
        assert e == Crash(i) && ds'[|ds|].job == ds'[i].job && ds'[|ds|].status == ds'[i].status;
      }
    }
  }

  lemma {:induction false} RunForgetsNone(s: State, es: seq<Step>)
    requires NoneForgotten(s) && Legal(s, es)
    ensures NoneForgotten(Final(s, es))
    decreases |es|
  {
    if es != [] {
      StepForgetsNone(s, es[0]);
      RunForgetsNone(Apply(s, es[0]), es[1..]);
    }
  }

  /** A process that dies loses no message: a copy of each crashed delivery follows it. */
  lemma CrashedIsRedelivered(s: State, i: nat)
    requires Reachable(s) && i < |s.deliveries| && s.deliveries[i].at.Crashed?
    ensures exists j :: i < j < |s.deliveries| && s.deliveries[j].job == s.deliveries[i].job
                        && s.deliveries[j].status == s.deliveries[i].status
  {
    var job, es :| Legal(Initial(job), es) && Final(Initial(job), es) == s;
    RunForgetsNone(Initial(job), es);
  }

  lemma {:induction false} SettledStays(s: State, i: nat, es: seq<Step>)
    requires i < |s.deliveries| && Settled(s.deliveries[i]) && Legal(s, es)
    ensures i < |Final(s, es).deliveries| && Final(s, es).deliveries[i] == s.deliveries[i]
    decreases |es|
  {
    if es != [] {
      SettledStays(Apply(s, es[0]), i, es[1..]);
    }
  }

  /******* Done means stored *******/

  /** The swap commits before the items are persisted; this step falls between the two. */
  predicate Interrupts(s: State, e: Step) {
    (e.Raise? || e.Crash?) && IsAt(s, e.i, Storing)
  }

  predicate Interrupted(s: State, es: seq<Step>)
    requires Legal(s, es)
    decreases |es|
  {
    es != [] && (Interrupts(s, es[0]) || Interrupted(Apply(s, es[0]), es[1..]))
  }

  /** Every winner has persisted its items or is about to. */
  predicate AllKept(s: State) {
    forall i :: 0 <= i < |s.deliveries| && s.deliveries[i].won ==> s.deliveries[i].stored || s.deliveries[i].at.Storing?
  }

  lemma StepKept(s: State, e: Step)
    requires Inv(s) && Enabled(s, e)
    ensures AllKept(Apply(s, e)) <==> AllKept(s) && !Interrupts(s, e)
  {
    var s' := Apply(s, e);
    if OfPublisher(e) {
      assert s'.deliveries == s.deliveries;
    } else if !e.Arrive? {
      var ds, ds' := s.deliveries, s'.deliveries;
      assert Sane(ds[e.i]);
      assert forall j :: 0 <= j < |ds| && j != e.i ==> ds'[j] == ds[j];
      assert ds'[e.i].won && !ds'[e.i].stored && !ds'[e.i].at.Storing? <==> Interrupts(s, e);
    } else {
      assert forall j :: 0 <= j < |s.deliveries| ==> s'.deliveries[j] == s.deliveries[j];
    }
  }

  lemma {:induction false} KeptUnlessInterrupted(s: State, es: seq<Step>)
    requires Inv(s) && Legal(s, es)
    ensures AllKept(Final(s, es)) <==> AllKept(s) && !Interrupted(s, es)
    decreases |es|
  {
    if es != [] {
      StepKept(s, es[0]);
      StepKeepsInv(s, es[0]);
      KeptUnlessInterrupted(Apply(s, es[0]), es[1..]);
    }
  }

  /** Once no winner is busy, every win has its items stored if and only if no winner was interrupted between the
      two. */
  lemma WinnersStoredExactly(job: string, es: seq<Step>)
    requires Legal(Initial(job), es)
    requires forall i: nat :: !IsAt(Final(Initial(job), es), i, Storing)
    ensures (forall d :: d in Final(Initial(job), es).deliveries && d.won ==> d.stored)
        <==> !Interrupted(Initial(job), es)
  {
    KeptUnlessInterrupted(Initial(job), es);
    var ds := Final(Initial(job), es).deliveries;
    assert forall i :: 0 <= i < |ds| ==> ds[i] in ds && !IsAt(Final(Initial(job), es), i, Storing);
  }

  /** The code can reach: done, nothing stored, and by `NobodyRepairs` nothing ever will be. */
  lemma DoneWithNothingStored(job: string) returns (es: seq<Step>)
    ensures Legal(Initial(job), es)
    ensures var s := Final(Initial(job), es);
            s.row.status.Completed? && Wins(s) == 1 && Tally(Abandoned, s.deliveries) == 1
  {
    var start := Initial(job);
    es := [];
    Then(start, es, Publish);
    es := es + [Publish];
    Then(start, es, Mark);
    es := es + [Mark];
    Then(start, es, Arrive(job, Some(Completed)));
    es := es + [Arrive(job, Some(Completed))];
    Then(start, es, Guard(0));
    es := es + [Guard(0)];
    Then(start, es, CompareAndSwap(0));
    es := es + [CompareAndSwap(0)];
    Then(start, es, Raise(0));
    es := es + [Raise(0)];
    var d := Delivery(job, Some(Completed), Rejected, true, false, false);
    TallyAppend(HasWon, [], d);
    TallyAppend(Abandoned, [], d);
    assert Final(start, es).deliveries == [] + [d];
  }
}
