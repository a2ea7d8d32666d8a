/**
 The command protocol: the worker queue, the deliveries that are not yet acknowledged, the
 wait queue and the failed queue, under every interleaving of the consumer's goroutines,
 time-to-live expiry, broker faults and the daily sweep.
 */
module CommandQueue {
  import opened Base
  import opened Topology
  import opened RetryCount

  /** One copy of a command. `id` numbers the publications; `fails` is history only, no step
      looks at it: how often a handler failed on this command and the delivery was then nacked. */
  datatype Msg = Msg(id: nat, decodable: bool, deaths: seq<Death>, fails: nat)

  /** How far a goroutine got with a delivery; the last six wait for their ack or nack. */
  datatype Phase =
    | Received
    | Handling        // the handler runs
    | Exhausted       // three retries are used up, about to publish to the failed queue
    | Malformed
    | Handled
    | HandlerFailed
    | Parked          // published to the failed queue
    | ParkFailed      // that publication was refused

  datatype Delivery = Delivery(msg: Msg, phase: Phase)

  /** The four queues, followed by the record of what happened to every command: `acked` after success,
      `discarded` as undecodable, `shelved` after parking, `swept` from the failed queue, and `orphans`,
      the parked copies whose delivery was lost before its ack. */
  datatype State = State(
    worker: seq<Msg>,
    unacked: seq<Delivery>,
    wait: seq<Msg>,
    failed: seq<Msg>,
    published: seq<Msg>,
    acked: seq<Msg>,
    discarded: seq<Msg>,
    shelved: seq<Msg>,
    swept: seq<Msg>,
    orphans: seq<Msg>
  )

  const EMPTY := State([], [], [], [], [], [], [], [], [], [])

  datatype Step =
    | Publish(decodable: bool)
    | Deliver
    | Decide(i: nat)
    | HandlerReturns(i: nat, ok: bool)
    | Park(i: nat, ok: bool)
    | Ack(i: nat)
    | Reject(i: nat)            // nack without requeue
    | Requeue(i: nat, at: nat)  // nack with requeue, back to any position
    | Expire                    // the head of the wait queue outlives its time
    | LoseConnection
    | Sweep                     // one Get of the sweep, acknowledged automatically

  predicate PhaseIs(s: State, i: nat, p: Phase) {
    i < |s.unacked| && s.unacked[i].phase == p
  }

  predicate Enabled(cfg: Config, s: State, e: Step) {
    match e
    case Publish(_) => true
    case Deliver => s.worker != [] && (cfg.prefetch == 0 || |s.unacked| < cfg.prefetch)
    case Decide(i) => PhaseIs(s, i, Received)
    case HandlerReturns(i, _) => PhaseIs(s, i, Handling)
    case Park(i, _) => PhaseIs(s, i, Exhausted)
    case Ack(i) => PhaseIs(s, i, Malformed) || PhaseIs(s, i, Handled) || PhaseIs(s, i, Parked)
    case Reject(i) => PhaseIs(s, i, HandlerFailed)
    case Requeue(i, at) => PhaseIs(s, i, ParkFailed) && at <= |s.worker|
    case Expire => s.wait != []
    case LoseConnection => true
    case Sweep => s.failed != []
  }

  const MAX_RETRIES := 3

  /** The consumer's decision on a fresh delivery, from the body and the headers alone. */
  function Verdict(m: Msg): Phase {
    if !m.decodable then Malformed
    else if Retries(m.deaths) >= MAX_RETRIES then Exhausted
    else Handling
  }

  /** Appends a message to every queue it is routed to. */
  function Enqueue(cfg: Config, s: State, to: set<string>, m: Msg): State {
    s.(worker := if cfg.worker in to then s.worker + [m] else s.worker,
       wait := if cfg.wait in to then s.wait + [m] else s.wait,
       failed := if cfg.failed in to then s.failed + [m] else s.failed)
  }

  /** Dead-letters a message from a queue, by that queue's declared arguments. */
  function DeadLetter(cfg: Config, s: State, queue: string, reason: Reason, m: Msg): State {
    var t := Declared(BARE, cfg);
    if queue in t.queues && t.queues[queue].deadLetter.Some? then
      var (exchange, key) := t.queues[queue].deadLetter.value;
      Enqueue(cfg, s, Route(t, exchange, key), m.(deaths := Die(m.deaths, queue, reason)))
    else s
  }

  function Removed<T>(q: seq<T>, i: nat): seq<T>
    requires i < |q|
  {
    q[..i] + q[i + 1..]
  }

  function SetPhase(s: State, i: nat, p: Phase): State
    requires i < |s.unacked|
  {
    s.(unacked := s.unacked[i := s.unacked[i].(phase := p)])
  }

  /** Settles a delivery for good, on the record its phase calls for. */
  function Settle(s: State, i: nat): State
    requires i < |s.unacked|
  {
    var m := s.unacked[i].msg;
    var t := s.(unacked := Removed(s.unacked, i));
    if s.unacked[i].phase.Malformed? then t.(discarded := t.discarded + [m])
    else if s.unacked[i].phase.Parked? then t.(shelved := t.shelved + [m])
    else t.(acked := t.acked + [m])
  }

  function Messages(ds: seq<Delivery>): seq<Msg> {
    if ds == [] then [] else [ds[0].msg] + Messages(ds[1..])
  }

  function ParkedOf(ds: seq<Delivery>): seq<Msg> {
    if ds == [] then []
    else (if ds[0].phase.Parked? then [ds[0].msg] else []) + ParkedOf(ds[1..])
  }

  function Apply(cfg: Config, s: State, e: Step): State
    requires Enabled(cfg, s, e)
  {
    var t := Declared(BARE, cfg);
    match e
    case Publish(decodable) =>
      var m := Msg(|s.published|, decodable, [], 0);
      Enqueue(cfg, s.(published := s.published + [m]), Route(t, cfg.commands, cfg.commandsKey), m)
    case Deliver => s.(worker := s.worker[1..], unacked := s.unacked + [Delivery(s.worker[0], Received)])
    case Decide(i) => SetPhase(s, i, Verdict(s.unacked[i].msg))
    case HandlerReturns(i, ok) => SetPhase(s, i, if ok then Handled else HandlerFailed)
    case Park(i, ok) =>
      if ok then Enqueue(cfg, SetPhase(s, i, Parked), Route(t, "", cfg.failed), s.unacked[i].msg.(deaths := []))
      else SetPhase(s, i, ParkFailed)
    case Ack(i) => Settle(s, i)
    case Reject(i) =>
      var m := s.unacked[i].msg;
      DeadLetter(cfg, s.(unacked := Removed(s.unacked, i)), cfg.worker, Rejected, m.(fails := m.fails + 1))
    case Requeue(i, at) =>
      s.(unacked := Removed(s.unacked, i), worker := s.worker[..at] + [s.unacked[i].msg] + s.worker[at..])
    case Expire => DeadLetter(cfg, s.(wait := s.wait[1..]), cfg.wait, Expired, s.wait[0])
    case LoseConnection =>
      s.(unacked := [], worker := Messages(s.unacked) + s.worker, orphans := s.orphans + ParkedOf(s.unacked))
    case Sweep => s.(failed := s.failed[1..], swept := s.swept + [s.failed[0]])
  }

  predicate Legal(cfg: Config, s: State, es: seq<Step>)
    decreases |es|
  {
    es == [] || (Enabled(cfg, s, es[0]) && Legal(cfg, Apply(cfg, s, es[0]), es[1..]))
  }

  function Final(cfg: Config, s: State, es: seq<Step>): State
    requires Legal(cfg, s, es)
    decreases |es|
  {
    if es == [] then s else Final(cfg, Apply(cfg, s, es[0]), es[1..])
  }

  /** A configuration the broker accepts and whose exchanges are kept apart. */
  predicate Sound(cfg: Config) {
    Acceptable(BARE, cfg) && Separated(cfg)
  }

  ghost predicate Reachable(cfg: Config, s: State) {
    exists es :: Legal(cfg, EMPTY, es) && Final(cfg, EMPTY, es) == s
  }

  /******* The steps in a sound configuration *******/

  /** The retry cycle as designed: publishing feeds the worker queue, a rejection the wait queue,
      an expiry the worker queue again, and parking the failed queue. */
  function Cycle(cfg: Config, s: State, e: Step): State
    requires Enabled(cfg, s, e)
  {
    match e
    case Publish(decodable) =>
      var m := Msg(|s.published|, decodable, [], 0);
      s.(published := s.published + [m], worker := s.worker + [m])
    case Deliver => s.(worker := s.worker[1..], unacked := s.unacked + [Delivery(s.worker[0], Received)])
    case Decide(i) => SetPhase(s, i, Verdict(s.unacked[i].msg))
    case HandlerReturns(i, ok) => SetPhase(s, i, if ok then Handled else HandlerFailed)
    case Park(i, ok) =>
      if ok then SetPhase(s, i, Parked).(failed := s.failed + [s.unacked[i].msg.(deaths := [])])
      else SetPhase(s, i, ParkFailed)
    case Ack(i) => Settle(s, i)
    case Reject(i) =>
      var m := s.unacked[i].msg;
      s.(unacked := Removed(s.unacked, i),
         wait := s.wait + [m.(fails := m.fails + 1, deaths := Die(m.deaths, cfg.worker, Rejected))])
    case Requeue(i, at) =>
      s.(unacked := Removed(s.unacked, i), worker := s.worker[..at] + [s.unacked[i].msg] + s.worker[at..])
    case Expire =>
      s.(wait := s.wait[1..],
         worker := s.worker + [s.wait[0].(deaths := Die(s.wait[0].deaths, cfg.wait, Expired))])
    case LoseConnection =>
      s.(unacked := [], worker := Messages(s.unacked) + s.worker, orphans := s.orphans + ParkedOf(s.unacked))
    case Sweep => s.(failed := s.failed[1..], swept := s.swept + [s.failed[0]])
  }

  /** In a sound configuration the declared exchanges, bindings and queue arguments implement exactly the retry
      cycle. */
  lemma RoutingImplementsCycle(cfg: Config, s: State, e: Step)
    requires Sound(cfg) && Enabled(cfg, s, e)
    ensures Apply(cfg, s, e) == Cycle(cfg, s, e)
  {
    RetryCycleExactly(cfg);
  }

  /******* The dead-letter history agrees with what happened *******/

  function AtWork(cfg: Config, n: nat): seq<Death> {
    if n == 0 then [] else [Death(cfg.wait, Expired, n), Death(cfg.worker, Rejected, n)]
  }

  function AtWait(cfg: Config, n: nat): seq<Death>
    requires n > 0
  {
    if n == 1 then [Death(cfg.worker, Rejected, 1)]
    else [Death(cfg.worker, Rejected, n), Death(cfg.wait, Expired, n - 1)]
  }

  lemma DieMoves(cfg: Config, n: nat)
    requires cfg.worker != cfg.wait
    ensures Die(AtWork(cfg, n), cfg.worker, Rejected) == AtWait(cfg, n + 1)
    ensures Die(AtWait(cfg, n + 1), cfg.wait, Expired) == AtWork(cfg, n + 1)
    ensures Retries(AtWork(cfg, n)) == n
  {
    var w, x := AtWork(cfg, n), AtWait(cfg, n + 1);
    if n > 0 {
      assert w[1..] == [Death(cfg.worker, Rejected, n)] && w[1..][1..] == [];
      assert DeathCount(w[1..], cfg.worker, Rejected) == n && Without(w[1..], cfg.worker, Rejected) == [];
      assert x[1..] == [Death(cfg.wait, Expired, n)] && x[1..][1..] == [];
      assert DeathCount(x[1..], cfg.wait, Expired) == n && Without(x[1..], cfg.wait, Expired) == [];
    } else {
      assert x[1..] == [] && DeathCount(x[1..], cfg.wait, Expired) == 0 && Without(x[1..], cfg.wait, Expired) == [];
    }
  }

  predicate WorkMsg(cfg: Config, m: Msg) {
    m.fails <= MAX_RETRIES && m.deaths == AtWork(cfg, m.fails)
  }

  predicate WaitMsg(cfg: Config, m: Msg) {
    1 <= m.fails <= MAX_RETRIES && m.deaths == AtWait(cfg, m.fails)
  }

  predicate Spent(m: Msg) {
    m.decodable && m.fails == MAX_RETRIES
  }

  predicate DeliveryOk(cfg: Config, d: Delivery) {
    && WorkMsg(cfg, d.msg)
    && (d.phase in {Handling, Handled, HandlerFailed} ==> d.msg.decodable && d.msg.fails < MAX_RETRIES)
    && (d.phase in {Exhausted, Parked, ParkFailed} ==> Spent(d.msg))
    && (d.phase == Malformed ==> !d.msg.decodable)
  }

  /** Every copy of a command, wherever it is, carries the history its place and its nacked failures call for. */
  predicate HistoryInv(cfg: Config, s: State) {
    && (forall m :: m in s.worker ==> WorkMsg(cfg, m))
    && (forall d :: d in s.unacked ==> DeliveryOk(cfg, d))
    && (forall m :: m in s.wait ==> WaitMsg(cfg, m))
    && (forall m :: m in s.acked ==> m.decodable && m.fails < MAX_RETRIES)
    && (forall m :: m in s.discarded ==> !m.decodable)
    && (forall m :: m in s.shelved ==> Spent(m))
    && (forall m :: m in s.failed ==> Spent(m))
    && (forall m :: m in s.swept ==> Spent(m))
    && (forall m :: m in s.orphans ==> Spent(m))
    && (cfg.prefetch > 0 ==> |s.unacked| <= cfg.prefetch)
  }

  lemma MessagesOk(cfg: Config, ds: seq<Delivery>)
    requires forall d :: d in ds ==> DeliveryOk(cfg, d)
    ensures forall m :: m in Messages(ds) ==> WorkMsg(cfg, m)
    ensures forall m :: m in ParkedOf(ds) ==> Spent(m)
  {
    if ds != [] {
      assert ds[0] in ds;
      assert forall d :: d in ds[1..] ==> d in ds;
      MessagesOk(cfg, ds[1..]);
    }
  }

  lemma PublishKeepsHistory(cfg: Config, s: State, decodable: bool)
    requires cfg.worker != cfg.wait && HistoryInv(cfg, s) && Enabled(cfg, s, Publish(decodable))
    ensures HistoryInv(cfg, Cycle(cfg, s, Publish(decodable)))
  {
  }

  lemma DeliverKeepsHistory(cfg: Config, s: State)
    requires cfg.worker != cfg.wait && HistoryInv(cfg, s) && Enabled(cfg, s, Deliver)
    ensures HistoryInv(cfg, Cycle(cfg, s, Deliver))
  {
  }

  lemma DecideKeepsHistory(cfg: Config, s: State, i: nat)
    requires cfg.worker != cfg.wait && HistoryInv(cfg, s) && Enabled(cfg, s, Decide(i))
    ensures HistoryInv(cfg, Cycle(cfg, s, Decide(i)))
  {
    assert s.unacked[i] in s.unacked;
    DieMoves(cfg, s.unacked[i].msg.fails);
  }

  lemma HandlerKeepsHistory(cfg: Config, s: State, i: nat, ok: bool)
    requires cfg.worker != cfg.wait && HistoryInv(cfg, s) && Enabled(cfg, s, HandlerReturns(i, ok))
    ensures HistoryInv(cfg, Cycle(cfg, s, HandlerReturns(i, ok)))
  {
    assert s.unacked[i] in s.unacked;
  }

  lemma ParkKeepsHistory(cfg: Config, s: State, i: nat, ok: bool)
    requires cfg.worker != cfg.wait && HistoryInv(cfg, s) && Enabled(cfg, s, Park(i, ok))
    ensures HistoryInv(cfg, Cycle(cfg, s, Park(i, ok)))
  {
    assert s.unacked[i] in s.unacked;
  }

  lemma AckKeepsHistory(cfg: Config, s: State, i: nat)
    requires cfg.worker != cfg.wait && HistoryInv(cfg, s) && Enabled(cfg, s, Ack(i))
    ensures HistoryInv(cfg, Cycle(cfg, s, Ack(i)))
  {
    assert s.unacked[i] in s.unacked;
  }

  lemma RejectedWaits(cfg: Config, m: Msg)
    requires cfg.worker != cfg.wait && WorkMsg(cfg, m) && m.fails < MAX_RETRIES
    ensures WaitMsg(cfg, m.(fails := m.fails + 1, deaths := Die(m.deaths, cfg.worker, Rejected)))
  {
    DieMoves(cfg, m.fails);
  }

  lemma RejectKeepsHistory(cfg: Config, s: State, i: nat)
    requires cfg.worker != cfg.wait && HistoryInv(cfg, s) && Enabled(cfg, s, Reject(i))
    ensures HistoryInv(cfg, Cycle(cfg, s, Reject(i)))
  {
    assert s.unacked[i] in s.unacked;
    RejectedWaits(cfg, s.unacked[i].msg);
  }

  lemma RequeueKeepsHistory(cfg: Config, s: State, i: nat, at: nat)
    requires cfg.worker != cfg.wait && HistoryInv(cfg, s) && Enabled(cfg, s, Requeue(i, at))
    ensures HistoryInv(cfg, Cycle(cfg, s, Requeue(i, at)))
  {
    assert s.unacked[i] in s.unacked;
  }

  lemma ExpireKeepsHistory(cfg: Config, s: State)
    requires cfg.worker != cfg.wait && HistoryInv(cfg, s) && Enabled(cfg, s, Expire)
    ensures HistoryInv(cfg, Cycle(cfg, s, Expire))
  {
    assert s.wait[0] in s.wait;
    DieMoves(cfg, s.wait[0].fails - 1);
    assert WorkMsg(cfg, s.wait[0].(deaths := Die(s.wait[0].deaths, cfg.wait, Expired)));
  }

  lemma LossKeepsHistory(cfg: Config, s: State)
    requires cfg.worker != cfg.wait && HistoryInv(cfg, s) && Enabled(cfg, s, LoseConnection)
    ensures HistoryInv(cfg, Cycle(cfg, s, LoseConnection))
  {
    MessagesOk(cfg, s.unacked);
  }

  lemma SweepKeepsHistory(cfg: Config, s: State)
    requires cfg.worker != cfg.wait && HistoryInv(cfg, s) && Enabled(cfg, s, Sweep)
    ensures HistoryInv(cfg, Cycle(cfg, s, Sweep))
  {
  }

  lemma StepKeepsHistory(cfg: Config, s: State, e: Step)
    requires Sound(cfg) && HistoryInv(cfg, s) && Enabled(cfg, s, e)
    ensures HistoryInv(cfg, Apply(cfg, s, e))
  {
    RoutingImplementsCycle(cfg, s, e);
    match e
    case Publish(decodable) => PublishKeepsHistory(cfg, s, decodable);
    case Deliver => DeliverKeepsHistory(cfg, s);
    case Decide(i) => DecideKeepsHistory(cfg, s, i);
    case HandlerReturns(i, ok) => HandlerKeepsHistory(cfg, s, i, ok);
    case Park(i, ok) => ParkKeepsHistory(cfg, s, i, ok);
    case Ack(i) => AckKeepsHistory(cfg, s, i);
    case Reject(i) => RejectKeepsHistory(cfg, s, i);
    case Requeue(i, at) => RequeueKeepsHistory(cfg, s, i, at);
    case Expire => ExpireKeepsHistory(cfg, s);
    case LoseConnection => LossKeepsHistory(cfg, s);
    case Sweep => SweepKeepsHistory(cfg, s);
  }

  lemma {:induction false} RunKeepsHistory(cfg: Config, s: State, es: seq<Step>)
    requires Sound(cfg) && HistoryInv(cfg, s) && Legal(cfg, s, es)
    ensures HistoryInv(cfg, Final(cfg, s, es))
    decreases |es|
  {
    if es != [] {
      StepKeepsHistory(cfg, s, es[0]);
      RunKeepsHistory(cfg, Apply(cfg, s, es[0]), es[1..]);
    }
  }

  /** Counting the retries is counting the failures: along every run, a command in the worker queue or in delivery
      was rejected as often as it expired, as often as the consumer counts, and as often as its handler failed and
      was nacked, at most three times; in the wait queue it was rejected once more than it expired. A handler only
      runs on a command with fewer than three failures, whatever connections were lost in between. */
  lemma RetriesAgreeWithHistory(cfg: Config, s: State)
    requires Sound(cfg) && Reachable(cfg, s)
    ensures forall m :: m in s.worker + Messages(s.unacked) ==>
              DeathCount(m.deaths, cfg.worker, Rejected) == DeathCount(m.deaths, cfg.wait, Expired)
              == Retries(m.deaths) == m.fails <= 3
    ensures forall m :: m in s.wait ==>
              1 <= m.fails == DeathCount(m.deaths, cfg.worker, Rejected)
                == DeathCount(m.deaths, cfg.wait, Expired) + 1 <= 3
    ensures forall d :: d in s.unacked && d.phase == Handling ==> d.msg.fails < 3
    ensures forall d :: d in s.unacked && d.phase in {Exhausted, Parked} ==> d.msg.fails == 3
    ensures cfg.prefetch > 0 ==> |s.unacked| <= cfg.prefetch
  {
    ReachableHistory(cfg, s);
    MessagesOk(cfg, s.unacked);
    forall m | m in s.worker + Messages(s.unacked)
      ensures DeathCount(m.deaths, cfg.worker, Rejected) == DeathCount(m.deaths, cfg.wait, Expired)
           == Retries(m.deaths) == m.fails <= 3
    {
      assert WorkMsg(cfg, m);
      CountsAtWork(cfg, m.fails);
    }
    forall m | m in s.wait
      ensures 1 <= m.fails == DeathCount(m.deaths, cfg.worker, Rejected)
          == DeathCount(m.deaths, cfg.wait, Expired) + 1 <= 3
    {
      assert WaitMsg(cfg, m);
      CountsAtWait(cfg, m.fails);
    }
  }

  /** How commands end: one is parked, and a copy of it kept, after exactly three failures, acknowledged after fewer,
      and discarded only if it cannot be read. */
  lemma OutcomesAgreeWithHistory(cfg: Config, s: State)
    requires Sound(cfg) && Reachable(cfg, s)
    ensures forall m :: m in s.shelved + s.failed + s.swept + s.orphans ==> m.decodable && m.fails == 3
    ensures forall m :: m in s.acked ==> m.decodable && m.fails < 3
    ensures forall m :: m in s.discarded ==> !m.decodable
  {
    ReachableHistory(cfg, s);
  }

  /** The decision on a fresh delivery, in every reachable state: an unreadable command is discarded, one that failed
      three times is parked, and any other is handled. */
  lemma DecisionExactly(cfg: Config, s: State, i: nat)
    requires Sound(cfg) && Reachable(cfg, s) && PhaseIs(s, i, Received)
    ensures var m := s.unacked[i].msg;
            Apply(cfg, s, Decide(i)) == s.(unacked := s.unacked[i := Delivery(m,
              if !m.decodable then Malformed else if m.fails == 3 then Exhausted else Handling)])
    ensures s.unacked[i].msg.fails <= 3
  {
    ReachableHistory(cfg, s);
    assert s.unacked[i] in s.unacked;
    CountsAtWork(cfg, s.unacked[i].msg.fails);
  }

  lemma CountsAtWork(cfg: Config, n: nat)
    requires cfg.worker != cfg.wait
    ensures DeathCount(AtWork(cfg, n), cfg.worker, Rejected) == DeathCount(AtWork(cfg, n), cfg.wait, Expired) == n
    ensures Retries(AtWork(cfg, n)) == n
  {
    DieMoves(cfg, n);
    if n > 0 {
      assert AtWork(cfg, n)[1..] == [Death(cfg.worker, Rejected, n)];
    }
  }

  lemma CountsAtWait(cfg: Config, n: nat)
    requires cfg.worker != cfg.wait && n > 0
    ensures DeathCount(AtWait(cfg, n), cfg.worker, Rejected) == n
    ensures DeathCount(AtWait(cfg, n), cfg.wait, Expired) == n - 1
  {
    var tail := AtWait(cfg, n)[1..];
    assert tail == if n == 1 then [] else [Death(cfg.wait, Expired, n - 1)];
  }

  lemma ReachableHistory(cfg: Config, s: State)
    requires Sound(cfg) && Reachable(cfg, s)
    ensures HistoryInv(cfg, s)
  {
    var es :| Legal(cfg, EMPTY, es) && Final(cfg, EMPTY, es) == s;
    RunKeepsHistory(cfg, EMPTY, es);
  }

  /******* No command is lost *******/

  /** How many copies of a command a queue, or the deliveries, hold. */
  function Copies(q: seq<Msg>, id: nat): nat {
    if q == [] then 0 else One(q[0].id == id) + Copies(q[1..], id)
  }

  function InFlight(ds: seq<Delivery>, id: nat): nat {
    if ds == [] then 0 else One(ds[0].msg.id == id) + InFlight(ds[1..], id)
  }

  function ParkedIn(ds: seq<Delivery>, id: nat): nat {
    if ds == [] then 0 else One(ds[0].phase.Parked? && ds[0].msg.id == id) + ParkedIn(ds[1..], id)
  }

  lemma {:induction false} CopiesConcat(a: seq<Msg>, b: seq<Msg>, id: nat)
    ensures Copies(a + b, id) == Copies(a, id) + Copies(b, id)
  {
    if a == [] {
      assert a + b == b;
    } else {
      assert (a + b)[0] == a[0] && (a + b)[1..] == a[1..] + b;
      CopiesConcat(a[1..], b, id);
    }
  }

  lemma CopiesAppend(q: seq<Msg>, m: Msg, id: nat)
    ensures Copies(q + [m], id) == Copies(q, id) + One(m.id == id)
  {
    CopiesConcat(q, [m], id);
    assert [m][1..] == [];
  }

  lemma CopiesInsert(q: seq<Msg>, at: nat, m: Msg, id: nat)
    requires at <= |q|
    ensures Copies(q[..at] + [m] + q[at..], id) == Copies(q, id) + One(m.id == id)
  {
    CopiesAppend(q[..at], m, id);
    CopiesConcat(q[..at] + [m], q[at..], id);
    CopiesConcat(q[..at], q[at..], id);
    assert q[..at] + q[at..] == q;
  }

  lemma {:induction false} DeliveriesConcat(a: seq<Delivery>, b: seq<Delivery>, id: nat)
    ensures InFlight(a + b, id) == InFlight(a, id) + InFlight(b, id)
    ensures ParkedIn(a + b, id) == ParkedIn(a, id) + ParkedIn(b, id)
  {
    if a == [] {
      assert a + b == b;
    } else {
      assert (a + b)[0] == a[0] && (a + b)[1..] == a[1..] + b;
      DeliveriesConcat(a[1..], b, id);
    }
  }

  /** Cutting the unacknowledged deliveries at one of them. */
  lemma SplitDeliveries(ds: seq<Delivery>, i: nat, id: nat)
    requires i < |ds|
    ensures InFlight(ds, id) == InFlight(Removed(ds, i), id) + One(ds[i].msg.id == id)
    ensures ParkedIn(ds, id) == ParkedIn(Removed(ds, i), id) + One(ds[i].phase.Parked? && ds[i].msg.id == id)
  {
    assert ds == ds[..i] + ([ds[i]] + ds[i + 1..]);
    assert ([ds[i]] + ds[i + 1..])[1..] == ds[i + 1..];
    DeliveriesConcat(ds[..i], [ds[i]] + ds[i + 1..], id);
    DeliveriesConcat(ds[..i], ds[i + 1..], id);
  }

  lemma PhaseChange(s: State, i: nat, p: Phase, id: nat)
    requires i < |s.unacked|
    ensures InFlight(SetPhase(s, i, p).unacked, id) == InFlight(s.unacked, id)
    ensures ParkedIn(SetPhase(s, i, p).unacked, id) + One(s.unacked[i].phase.Parked? && s.unacked[i].msg.id == id)
         == ParkedIn(s.unacked, id) + One(p.Parked? && s.unacked[i].msg.id == id)
  {
    SplitDeliveries(s.unacked, i, id);
    SplitDeliveries(SetPhase(s, i, p).unacked, i, id);
    assert Removed(SetPhase(s, i, p).unacked, i) == Removed(s.unacked, i);
  }

  lemma {:induction false} LossCounts(ds: seq<Delivery>, id: nat)
    ensures Copies(Messages(ds), id) == InFlight(ds, id)
    ensures Copies(ParkedOf(ds), id) == ParkedIn(ds, id)
  {
    if ds != [] {
      LossCounts(ds[1..], id);
      assert Messages(ds)[1..] == Messages(ds[1..]);
      assert ParkedOf(ds) == if ds[0].phase.Parked? then [ds[0].msg] + ParkedOf(ds[1..]) else ParkedOf(ds[1..]);
    }
  }

  /** The places where a command can be, except the failed queue. */
  function Whereabouts(s: State, id: nat): nat {
    Copies(s.worker, id) + InFlight(s.unacked, id) + Copies(s.wait, id)
    + Copies(s.acked, id) + Copies(s.discarded, id) + Copies(s.shelved, id)
  }

  /** A published command is in exactly one of those places, any other in none; the failed queue and its sweep
      together hold one copy for its parking and one for each parking whose delivery was lost before its ack. */
  predicate Conserved(s: State, id: nat) {
    && Whereabouts(s, id) == One(id < |s.published|)
    && Copies(s.failed, id) + Copies(s.swept, id)
      == Copies(s.shelved, id) + ParkedIn(s.unacked, id) + Copies(s.orphans, id)
  }

  lemma QueueStepConserves(cfg: Config, s: State, e: Step, id: nat)
    requires e.Publish? || e.Deliver? || e.Expire? || e.LoseConnection? || e.Sweep?
    requires Enabled(cfg, s, e) && Conserved(s, id)
    ensures Conserved(Cycle(cfg, s, e), id)
  {
    match e
    case Publish(decodable) =>
      CopiesAppend(s.worker, Msg(|s.published|, decodable, [], 0), id);
    case Deliver =>
      var d := Delivery(s.worker[0], Received);
      SplitDeliveries(s.unacked + [d], |s.unacked|, id);
      assert Removed(s.unacked + [d], |s.unacked|) == s.unacked;
    case Expire =>
      CopiesAppend(s.worker, s.wait[0].(deaths := Die(s.wait[0].deaths, cfg.wait, Expired)), id);
    case LoseConnection =>
      LossCounts(s.unacked, id);
      CopiesConcat(Messages(s.unacked), s.worker, id);
      CopiesConcat(s.orphans, ParkedOf(s.unacked), id);
    case Sweep =>
      CopiesAppend(s.swept, s.failed[0], id);
  }

  lemma PhaseStepConserves(cfg: Config, s: State, e: Step, id: nat)
    requires e.Decide? || e.HandlerReturns? || e.Park?
    requires Enabled(cfg, s, e) && Conserved(s, id)
    ensures Conserved(Cycle(cfg, s, e), id)
  {
    var p := Cycle(cfg, s, e).unacked[e.i].phase;
    assert Cycle(cfg, s, e).unacked == SetPhase(s, e.i, p).unacked;
    PhaseChange(s, e.i, p, id);
    if e.Park? && e.ok {
      CopiesAppend(s.failed, s.unacked[e.i].msg.(deaths := []), id);
    }
  }

  lemma AckConserves(s: State, i: nat, id: nat)
    requires PhaseIs(s, i, Malformed) || PhaseIs(s, i, Handled) || PhaseIs(s, i, Parked)
    requires Conserved(s, id)
    ensures Conserved(Settle(s, i), id)
  {
    var m := s.unacked[i].msg;
    SplitDeliveries(s.unacked, i, id);
    CopiesAppend(s.discarded, m, id);
    CopiesAppend(s.shelved, m, id);
    CopiesAppend(s.acked, m, id);
  }

  lemma NackConserves(cfg: Config, s: State, e: Step, id: nat)
    requires e.Reject? || e.Requeue?
    requires Enabled(cfg, s, e) && Conserved(s, id)
    ensures Conserved(Cycle(cfg, s, e), id)
  {
    var m := s.unacked[e.i].msg;
    SplitDeliveries(s.unacked, e.i, id);
    match e
    case Reject(i) =>
      CopiesAppend(s.wait, m.(fails := m.fails + 1, deaths := Die(m.deaths, cfg.worker, Rejected)), id);
    case Requeue(i, at) =>
      CopiesInsert(s.worker, at, m, id);
  }

  lemma StepConserves(cfg: Config, s: State, e: Step, id: nat)
    requires Enabled(cfg, s, e) && Conserved(s, id)
    ensures Conserved(Cycle(cfg, s, e), id)
  {
    if e.Decide? || e.HandlerReturns? || e.Park? {
      PhaseStepConserves(cfg, s, e, id);
    } else if e.Ack? {
      AckConserves(s, e.i, id);
    } else if e.Reject? || e.Requeue? {
      NackConserves(cfg, s, e, id);
    } else {
      QueueStepConserves(cfg, s, e, id);
    }
  }

  lemma {:induction false} RunConserves(cfg: Config, s: State, es: seq<Step>, id: nat)
    requires Sound(cfg) && Conserved(s, id) && Legal(cfg, s, es)
    ensures Conserved(Final(cfg, s, es), id)
    decreases |es|
  {
    if es != [] {
      RoutingImplementsCycle(cfg, s, es[0]);
      StepConserves(cfg, s, es[0], id);
      RunConserves(cfg, Apply(cfg, s, es[0]), es[1..], id);
    }
  }

  /** No command is lost and none is duplicated: in every reachable state a published command is in exactly one of
      the worker queue, delivery, the wait queue, or one of the three ways to be settled; the copies that ever
      reached the failed queue are one per parking plus exactly one per connection loss between a parking and its
      ack. */
  lemma NoCommandLost(cfg: Config, s: State, id: nat)
    requires Sound(cfg) && Reachable(cfg, s)
    ensures Whereabouts(s, id) == One(id < |s.published|)
    ensures Copies(s.failed, id) + Copies(s.swept, id)
        == Copies(s.shelved, id) + ParkedIn(s.unacked, id) + Copies(s.orphans, id)
  {
    var es :| Legal(cfg, EMPTY, es) && Final(cfg, EMPTY, es) == s;
    RunConserves(cfg, EMPTY, es, id);
  }

  /** Before any sweep a command that is neither acked after success nor undecodable still has a copy in some queue
      or in delivery. */
  lemma NothingVanishesBeforeSweep(cfg: Config, s: State, id: nat)
    requires Sound(cfg) && Reachable(cfg, s) && s.swept == []
    requires id < |s.published| && Copies(s.acked, id) == 0 && Copies(s.discarded, id) == 0
    ensures Copies(s.worker, id) + InFlight(s.unacked, id) + Copies(s.wait, id) + Copies(s.failed, id) > 0
  {
    NoCommandLost(cfg, s, id);
  }

  /******* Every run of retries ends *******/

  /** The steps a command in the worker queue still has ahead of it after `fails` failures. */
  function Cost(fails: nat): nat {
    if fails > MAX_RETRIES then 0 else 5 * (MAX_RETRIES - fails) + 5
  }

  /** The steps a delivery has behind it; a refused parking is a step back. */
  function Progress(p: Phase): int {
    if p.Received? then 1
    else if p.Handled? || p.HandlerFailed? then 3
    else if p.Parked? then 4
    else if p.ParkFailed? then -1
    else 2
  }

  function DeliveryCost(d: Delivery): nat {
    if Cost(d.msg.fails) < Progress(d.phase) then 0 else Cost(d.msg.fails) - Progress(d.phase)
  }

  function QueueWork(q: seq<Msg>): nat {
    if q == [] then 0 else Cost(q[0].fails) + QueueWork(q[1..])
  }

  function DeliveryWork(ds: seq<Delivery>): nat {
    if ds == [] then 0 else DeliveryCost(ds[0]) + DeliveryWork(ds[1..])
  }

  /** The work left in a state; a waiting command has one step more than one in the worker queue. */
  function Work(s: State): nat {
    QueueWork(s.worker) + DeliveryWork(s.unacked) + QueueWork(s.wait) + |s.wait| + |s.failed|
  }

  lemma {:induction false} WorkConcat(a: seq<Msg>, b: seq<Msg>)
    ensures QueueWork(a + b) == QueueWork(a) + QueueWork(b)
  {
    if a == [] {
      assert a + b == b;
    } else {
      assert (a + b)[0] == a[0] && (a + b)[1..] == a[1..] + b;
      WorkConcat(a[1..], b);
    }
  }

  lemma WorkInsert(q: seq<Msg>, at: nat, m: Msg)
    requires at <= |q|
    ensures QueueWork(q[..at] + [m] + q[at..]) == QueueWork(q) + Cost(m.fails)
  {
    WorkConcat(q[..at] + [m], q[at..]);
    WorkConcat(q[..at], [m]);
    WorkConcat(q[..at], q[at..]);
    assert q[..at] + q[at..] == q && [m][1..] == [];
  }

  lemma {:induction false} DeliveryWorkConcat(a: seq<Delivery>, b: seq<Delivery>)
    ensures DeliveryWork(a + b) == DeliveryWork(a) + DeliveryWork(b)
  {
    if a == [] {
      assert a + b == b;
    } else {
      assert (a + b)[0] == a[0] && (a + b)[1..] == a[1..] + b;
      DeliveryWorkConcat(a[1..], b);
    }
  }

  lemma SplitWork(ds: seq<Delivery>, i: nat)
    requires i < |ds|
    ensures DeliveryWork(ds) == DeliveryWork(Removed(ds, i)) + DeliveryCost(ds[i])
  {
    assert ds == ds[..i] + ds[i..] && ds[i..][0] == ds[i] && ds[i..][1..] == ds[i + 1..];
    DeliveryWorkConcat(ds[..i], ds[i..]);
    DeliveryWorkConcat(ds[..i], ds[i + 1..]);
  }

  lemma PhaseWork(s: State, i: nat, p: Phase)
    requires i < |s.unacked|
    ensures DeliveryWork(SetPhase(s, i, p).unacked) + DeliveryCost(s.unacked[i])
         == DeliveryWork(s.unacked) + DeliveryCost(s.unacked[i].(phase := p))
  {
    SplitWork(s.unacked, i);
    SplitWork(SetPhase(s, i, p).unacked, i);
    assert Removed(SetPhase(s, i, p).unacked, i) == Removed(s.unacked, i);
  }

  /** Losing a connection undoes at most four steps of each delivery. */
  lemma {:induction false} LossWork(ds: seq<Delivery>)
    ensures QueueWork(Messages(ds)) <= DeliveryWork(ds) + 4 * |ds|
  {
    if ds != [] {
      LossWork(ds[1..]);
      assert Messages(ds)[1..] == Messages(ds[1..]);
    }
  }

  /** The faults: a lost connection, or a refused publication to the failed queue. */
  predicate Fault(e: Step) {
    e.LoseConnection? || (e.Park? && !e.ok)
  }

  lemma AckWorks(cfg: Config, s: State, i: nat)
    requires HistoryInv(cfg, s) && Enabled(cfg, s, Ack(i))
    ensures Work(Settle(s, i)) + 1 <= Work(s)
  {
    assert s.unacked[i] in s.unacked;
    SplitWork(s.unacked, i);
  }

  lemma RejectWorks(cfg: Config, s: State, i: nat)
    requires HistoryInv(cfg, s) && Enabled(cfg, s, Reject(i))
    ensures Work(Cycle(cfg, s, Reject(i))) + 1 <= Work(s)
  {
    var m := s.unacked[i].msg;
    var n := m.(fails := m.fails + 1, deaths := Die(m.deaths, cfg.worker, Rejected));
    assert s.unacked[i] in s.unacked;
    SplitWork(s.unacked, i);
    WorkConcat(s.wait, [n]);
    assert [n][1..] == [];
  }

  lemma RequeueWorks(cfg: Config, s: State, i: nat, at: nat)
    requires HistoryInv(cfg, s) && Enabled(cfg, s, Requeue(i, at))
    ensures Work(Cycle(cfg, s, Requeue(i, at))) + 1 <= Work(s)
  {
    assert s.unacked[i] in s.unacked;
    SplitWork(s.unacked, i);
    WorkInsert(s.worker, at, s.unacked[i].msg);
  }

  lemma DecisionWorks(cfg: Config, s: State, e: Step)
    requires HistoryInv(cfg, s) && Enabled(cfg, s, e) && (e.Decide? || e.HandlerReturns?)
    ensures Work(Cycle(cfg, s, e)) + 1 <= Work(s)
  {
    assert s.unacked[e.i] in s.unacked;
    PhaseWork(s, e.i, if e.Decide? then Verdict(s.unacked[e.i].msg) else if e.ok then Handled else HandlerFailed);
  }

  lemma ParkWorks(cfg: Config, s: State, i: nat, ok: bool)
    requires HistoryInv(cfg, s) && Enabled(cfg, s, Park(i, ok))
    ensures Work(Cycle(cfg, s, Park(i, ok))) <= if ok then Work(s) - 1 else Work(s) + 4 * |s.unacked|
  {
    assert s.unacked[i] in s.unacked;
    PhaseWork(s, i, if ok then Parked else ParkFailed);
  }

  lemma QueueWorks(cfg: Config, s: State, e: Step)
    requires HistoryInv(cfg, s) && Enabled(cfg, s, e) && (e.Deliver? || e.Expire? || e.LoseConnection? || e.Sweep?)
    ensures Work(Cycle(cfg, s, e)) <= if Fault(e) then Work(s) + 4 * |s.unacked| else Work(s) - 1
  {
    match e
    case Deliver =>
      var d := Delivery(s.worker[0], Received);
      assert s.worker[0] in s.worker;
      DeliveryWorkConcat(s.unacked, [d]);
      assert [d][1..] == [];
    case Expire =>
      var n := s.wait[0].(deaths := Die(s.wait[0].deaths, cfg.wait, Expired));
      WorkConcat(s.worker, [n]);
      assert [n][1..] == [];
    case LoseConnection =>
      LossWork(s.unacked);
      WorkConcat(Messages(s.unacked), s.worker);
    case Sweep =>
  }

  /** Every step except publishing and the faults uses up work; a fault adds at most four per delivery. */
  lemma StepWorks(cfg: Config, s: State, e: Step)
    requires Sound(cfg) && HistoryInv(cfg, s) && Enabled(cfg, s, e) && !e.Publish?
    ensures Work(Apply(cfg, s, e)) <= if Fault(e) then Work(s) + 4 * |s.unacked| else Work(s) - 1
  {
    RoutingImplementsCycle(cfg, s, e);
    if e.Ack? {
      AckWorks(cfg, s, e.i);
    } else if e.Reject? {
      RejectWorks(cfg, s, e.i);
    } else if e.Requeue? {
      RequeueWorks(cfg, s, e.i, e.at);
    } else if e.Decide? || e.HandlerReturns? {
      DecisionWorks(cfg, s, e);
    } else if e.Park? {
      ParkWorks(cfg, s, e.i, e.ok);
    } else {
      QueueWorks(cfg, s, e);
    }
  }

  /** The number of commands in play. */
  predicate Balanced(s: State) {
    |s.worker| + |s.unacked| + |s.wait| + |s.acked| + |s.discarded| + |s.shelved| == |s.published|
  }

  lemma {:induction false} MessagesLength(ds: seq<Delivery>)
    ensures |Messages(ds)| == |ds|
  {
    if ds != [] {
      MessagesLength(ds[1..]);
    }
  }

  lemma StepBalances(cfg: Config, s: State, e: Step)
    requires Sound(cfg) && Balanced(s) && Enabled(cfg, s, e)
    ensures Balanced(Apply(cfg, s, e))
    ensures |Apply(cfg, s, e).published| == |s.published| + if e.Publish? then 1 else 0
  {
    RoutingImplementsCycle(cfg, s, e);
    MessagesLength(s.unacked);
  }

  function Faults(es: seq<Step>): nat {
    if es == [] then 0 else One(Fault(es[0])) + Faults(es[1..])
  }

  /** What the faults of a run may add, at `n` each. */
  function Allowance(es: seq<Step>, n: nat): nat {
    if es == [] then 0 else (if Fault(es[0]) then n else 0) + Allowance(es[1..], n)
  }

  lemma {:induction false} AllowanceIs(es: seq<Step>, n: nat)
    ensures Allowance(es, n) == Faults(es) * n
  {
    if es != [] {
      AllowanceIs(es[1..], n);
    }
  }

  lemma StepIsPaidFor(cfg: Config, s: State, e: Step)
    requires Sound(cfg) && HistoryInv(cfg, s) && Balanced(s) && Enabled(cfg, s, e) && !e.Publish?
    ensures var t := Apply(cfg, s, e);
            HistoryInv(cfg, t) && Balanced(t) && |t.published| == |s.published|
            && 1 + Work(t) <= Work(s) + if Fault(e) then 4 * |s.published| + 1 else 0
  {
    StepKeepsHistory(cfg, s, e);
    StepBalances(cfg, s, e);
    StepWorks(cfg, s, e);
  }

  lemma {:induction false} RunIsBounded(cfg: Config, s: State, es: seq<Step>, n: nat)
    requires Sound(cfg) && HistoryInv(cfg, s) && Balanced(s) && Legal(cfg, s, es)
    requires (forall e :: e in es ==> !e.Publish?) && n == 4 * |s.published| + 1
    ensures |es| + Work(Final(cfg, s, es)) <= Work(s) + Allowance(es, n)
    decreases |es|
  {
    if es != [] {
      assert es[0] in es;
      StepIsPaidFor(cfg, s, es[0]);
      RunIsBounded(cfg, Apply(cfg, s, es[0]), es[1..], n);
    }
  }

  lemma {:induction false} RunBalances(cfg: Config, s: State, es: seq<Step>)
    requires Sound(cfg) && Balanced(s) && Legal(cfg, s, es)
    ensures Balanced(Final(cfg, s, es))
    decreases |es|
  {
    if es != [] {
      StepBalances(cfg, s, es[0]);
      RunBalances(cfg, Apply(cfg, s, es[0]), es[1..]);
    }
  }

  lemma ReachableBalances(cfg: Config, s: State)
    requires Sound(cfg) && Reachable(cfg, s)
    ensures Balanced(s)
  {
    var past :| Legal(cfg, EMPTY, past) && Final(cfg, EMPTY, past) == s;
    RunBalances(cfg, EMPTY, past);
  }

  lemma {:induction false} QueueWorkBound(q: seq<Msg>)
    ensures QueueWork(q) <= 20 * |q|
  {
    if q != [] {
      QueueWorkBound(q[1..]);
    }
  }

  lemma {:induction false} DeliveryWorkBound(ds: seq<Delivery>)
    ensures DeliveryWork(ds) <= 21 * |ds|
  {
    if ds != [] {
      DeliveryWorkBound(ds[1..]);
    }
  }

  /** A command has at most 21 steps ahead of it, and a parked copy one. */
  lemma WorkBound(s: State)
    requires Balanced(s)
    ensures Work(s) <= 21 * (|s.worker| + |s.unacked| + |s.wait|) + |s.failed|
    ensures Work(s) <= 21 * |s.published| + |s.failed|
  {
    QueueWorkBound(s.worker);
    QueueWorkBound(s.wait);
    DeliveryWorkBound(s.unacked);
  }

  /** A run of retries is finite: without new commands it has at most 21 steps for each command in play, one for each
      copy in the failed queue, and some for each fault, whatever the handlers answer and in whatever order. */
  lemma RetriesTerminate(cfg: Config, s: State, es: seq<Step>)
    requires Sound(cfg) && Reachable(cfg, s) && Legal(cfg, s, es)
    requires forall e :: e in es ==> !e.Publish?
    ensures |es| <= Work(s) + Faults(es) * (4 * |s.published| + 1)
    ensures |es| <= 21 * (|s.worker| + |s.unacked| + |s.wait|) + |s.failed| + Faults(es) * (4 * |s.published| + 1)
  {
    var n := 4 * |s.published| + 1;
    ReachableHistory(cfg, s);
    ReachableBalances(cfg, s);
    RunIsBounded(cfg, s, es, n);
    AllowanceIs(es, n);
    WorkBound(s);
  }

  /** As long as some command is unsettled, some step that is neither a fault nor external can be taken. */
  lemma NeverStuck(cfg: Config, s: State) returns (e: Step)
    requires s.worker != [] || s.unacked != [] || s.wait != []
    ensures Enabled(cfg, s, e) && !Fault(e) && !e.Publish? && !e.Sweep?
  {
    if s.unacked != [] {
      match s.unacked[0].phase
      case Received => e := Decide(0);
      case Handling => e := HandlerReturns(0, true);
      case Exhausted => e := Park(0, true);
      case HandlerFailed => e := Reject(0);
      case ParkFailed => e := Requeue(0, 0);
      case _ => e := Ack(0);
    } else if s.worker != [] {
      e := Deliver;
    } else {
      e := Expire;
    }
  }

  /** When nothing is left to do every command ended acked after success, discarded as undecodable, or parked in
      the failed queue. */
  lemma AllSettledAtTheEnd(cfg: Config, s: State, id: nat)
    requires Sound(cfg) && Reachable(cfg, s) && id < |s.published|
    requires s.worker == [] && s.unacked == [] && s.wait == []
    ensures Copies(s.acked, id) + Copies(s.discarded, id) + Copies(s.shelved, id) == 1
    ensures Copies(s.shelved, id) == 1 ==> Copies(s.failed, id) + Copies(s.swept, id) >= 1
  {
    NoCommandLost(cfg, s, id);
  }

  /** Nothing can happen any more except new commands, faults and sweeps. */
  ghost predicate AtRest(cfg: Config, s: State) {
    forall e :: Enabled(cfg, s, e) ==> e.Publish? || Fault(e) || e.Sweep?
  }

  /** A state is at rest exactly when nothing is queued, in delivery or waiting. */
  lemma AtRestExactly(cfg: Config, s: State)
    ensures AtRest(cfg, s) <==> s.worker == [] && s.unacked == [] && s.wait == []
  {
    if s.worker != [] || s.unacked != [] || s.wait != [] {
      var e := NeverStuck(cfg, s);
    }
  }

  lemma FinalOfConcat(cfg: Config, s: State, es: seq<Step>, more: seq<Step>)
    requires Legal(cfg, s, es) && Legal(cfg, Final(cfg, s, es), more)
    ensures Legal(cfg, s, es + more) && Final(cfg, s, es + more) == Final(cfg, Final(cfg, s, es), more)
    decreases |es|
  {
    if es == [] {
      assert es + more == more;
    } else {
      assert (es + more)[0] == es[0] && (es + more)[1..] == es[1..] + more;
      FinalOfConcat(cfg, Apply(cfg, s, es[0]), es[1..], more);
    }
  }

  lemma PublishedStays(cfg: Config, s: State, es: seq<Step>)
    requires Sound(cfg) && Legal(cfg, s, es) && forall e :: e in es ==> !e.Publish?
    ensures Final(cfg, s, es).published == s.published
    decreases |es|
  {
    if es != [] {
      assert es[0] in es;
      RoutingImplementsCycle(cfg, s, es[0]);
      PublishedStays(cfg, Apply(cfg, s, es[0]), es[1..]);
    }
  }

  /** Every command is settled in the end: from any reachable state, a run without new commands is bounded by the
      work at its start and its faults, and once it has come to rest each command was acked after success,
      discarded as undecodable, or parked. */
  lemma EveryCommandIsSettled(cfg: Config, s: State, es: seq<Step>, id: nat)
    requires Sound(cfg) && Reachable(cfg, s) && Legal(cfg, s, es) && forall e :: e in es ==> !e.Publish?
    ensures |es| <= 21 * (|s.worker| + |s.unacked| + |s.wait|) + |s.failed| + Faults(es) * (4 * |s.published| + 1)
    ensures var t := Final(cfg, s, es);
            AtRest(cfg, t) && id < |s.published| ==>
              && Copies(t.acked, id) + Copies(t.discarded, id) + Copies(t.shelved, id) == 1
              && (Copies(t.shelved, id) == 1 ==> Copies(t.failed, id) + Copies(t.swept, id) >= 1)
  {
    RetriesTerminate(cfg, s, es);
    var t := Final(cfg, s, es);
    if AtRest(cfg, t) && id < |s.published| {
      var past :| Legal(cfg, EMPTY, past) && Final(cfg, EMPTY, past) == s;
      FinalOfConcat(cfg, EMPTY, past, es);
      AtRestExactly(cfg, t);
      PublishedStays(cfg, s, es);
      AllSettledAtTheEnd(cfg, t, id);
    }
  }
}
