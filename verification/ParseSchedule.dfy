/**
 The concurrency of `rssReader.Parse`: one goroutine per URL behind a semaphore, a results channel
 with room for every URL, a closer behind a wait group, and the collecting loop. The goroutines are
 numbered like the URLs; a result in the channel is represented by the number of its sender.
 */
module ParseSchedule {
  import opened Base

  datatype Phase =
    | Unspawned
    | AtSelect    // waiting for a slot or for cancellation
    | Aborting    // saw the cancelled context, about to send its error
    | Fetching    // holds a slot
    | Sending     // holds a slot, about to send its result
    | Releasing   // has sent, still holds the slot
    | Leaving     // about to tell the wait group
    | Done

  datatype State = State(
    phase: seq<Phase>,
    spawned: nat,
    sem: nat,
    wg: nat,
    buffer: seq<nat>,
    drained: seq<nat>,
    closed: bool,
    cancelled: bool,
    gaveUp: set<nat>
  )

  datatype Step =
    | Spawn
    | Cancel
    | Acquire(i: nat)
    | Abort(i: nat)
    | FetchEnds(i: nat)
    | Send(i: nat)
    | Release(i: nat)
    | Finish(i: nat)
    | Close
    | Drain

  function Initial(n: nat): State {
    State(seq(n, _ => Unspawned), 0, 0, 0, [], [], false, false, {})
  }

  predicate PhaseIs(s: State, i: nat, p: Phase) {
    i < |s.phase| && s.phase[i] == p
  }

  /** A send needs room in the channel, a slot needs room in the semaphore; the closer and the
      collecting loop start only after the last goroutine was spawned. */
  predicate Enabled(limit: nat, s: State, e: Step) {
    match e
    case Spawn => s.spawned < |s.phase|
    case Cancel => !s.cancelled
    case Acquire(i) => PhaseIs(s, i, AtSelect) && s.sem < limit
    case Abort(i) => PhaseIs(s, i, AtSelect) && s.cancelled
    case FetchEnds(i) => PhaseIs(s, i, Fetching)
    case Send(i) => (PhaseIs(s, i, Aborting) || PhaseIs(s, i, Sending)) && |s.buffer| < |s.phase|
    case Release(i) => PhaseIs(s, i, Releasing) && s.sem > 0
    case Finish(i) => PhaseIs(s, i, Leaving) && s.wg > 0
    case Close => s.spawned == |s.phase| && s.wg == 0 && !s.closed
    case Drain => s.spawned == |s.phase| && s.buffer != []
  }

  function Move(s: State, i: nat, p: Phase): State
    requires i < |s.phase|
  {
    s.(phase := s.phase[i := p])
  }

  function Apply(limit: nat, s: State, e: Step): State
    requires Enabled(limit, s, e)
  {
    match e
    case Spawn => Move(s, s.spawned, AtSelect).(spawned := s.spawned + 1, wg := s.wg + 1)
    case Cancel => s.(cancelled := true)
    case Acquire(i) => Move(s, i, Fetching).(sem := s.sem + 1)
    case Abort(i) => Move(s, i, Aborting).(gaveUp := s.gaveUp + {i})
    case FetchEnds(i) => Move(s, i, Sending)
    case Send(i) => Move(s, i, if s.phase[i].Aborting? then Leaving else Releasing).(buffer := s.buffer + [i])
    case Release(i) => Move(s, i, Leaving).(sem := s.sem - 1)
    case Finish(i) => Move(s, i, Done).(wg := s.wg - 1)
    case Close => s.(closed := true)
    case Drain => s.(buffer := s.buffer[1..], drained := s.drained + [s.buffer[0]])
  }

  predicate Legal(limit: nat, s: State, es: seq<Step>)
    decreases |es|
  {
    es == [] || (Enabled(limit, s, es[0]) && Legal(limit, Apply(limit, s, es[0]), es[1..]))
  }

  function Final(limit: nat, s: State, es: seq<Step>): State
    requires Legal(limit, s, es)
    decreases |es|
  {
    if es == [] then s else Final(limit, Apply(limit, s, es[0]), es[1..])
  }

  ghost predicate Reachable(limit: nat, n: nat, s: State) {
    exists es :: Legal(limit, Initial(n), es) && Final(limit, Initial(n), es) == s
  }

  /** The collecting loop has ended. */
  predicate Finished(s: State) {
    s.closed && s.buffer == []
  }

  /******* Counting *******/

  function Count(phase: seq<Phase>, of: set<Phase>): nat {
    if phase == [] then 0 else One(phase[0] in of) + Count(phase[1..], of)
  }

  lemma {:induction false} CountUpdate(phase: seq<Phase>, i: nat, p: Phase, of: set<Phase>)
    requires i < |phase|
    ensures Count(phase[i := p], of) + One(phase[i] in of) == Count(phase, of) + One(p in of)
  {
    if i == 0 {
      assert phase[i := p][1..] == phase[1..];
    } else {
      assert phase[i := p][1..] == phase[1..][i - 1 := p];
      CountUpdate(phase[1..], i - 1, p, of);
    }
  }

  lemma {:induction false} CountWitness(phase: seq<Phase>, of: set<Phase>)
    ensures Count(phase, of) <= |phase|
    ensures Count(phase, of) > 0 <==> exists i :: 0 <= i < |phase| && phase[i] in of
  {
    if phase != [] {
      CountWitness(phase[1..], of);
      if Count(phase[1..], of) > 0 {
        var i :| 0 <= i < |phase[1..]| && phase[1..][i] in of;
        assert phase[i + 1] in of;
      }
      if i :| 0 <= i < |phase| && phase[i] in of {
        assert i > 0 ==> phase[1..][i - 1] in of;
      }
    }
  }

  /******* The invariant *******/

  const HOLDS := {Fetching, Sending, Releasing}
  const OWES := {Unspawned, AtSelect, Aborting, Fetching, Sending}
  const LIVE := {AtSelect, Aborting, Fetching, Sending, Releasing, Leaving}

  /** The semaphore counts the slot holders and the wait group the goroutines that have not left;
      results sent and results owed add up to the number of URLs. */
  predicate Counted(limit: nat, s: State) {
    && s.sem == Count(s.phase, HOLDS) <= limit
    && s.wg == Count(s.phase, LIVE)
    && |s.drained| + |s.buffer| + Count(s.phase, OWES) == |s.phase|
  }

  /** Goroutines are spawned in order, and the channel is closed only when all are done. */
  predicate Phased(s: State) {
    && s.spawned <= |s.phase|
    && (forall i :: 0 <= i < |s.phase| ==> (s.phase[i].Unspawned? <==> i >= s.spawned))
    && (s.closed ==> forall i :: 0 <= i < |s.phase| ==> s.phase[i].Done?)
  }

  /** Each goroutine's result is in the channel or collected exactly when it no longer owes it. */
  predicate Delivered(s: State, i: nat) {
    multiset(s.drained)[i] + multiset(s.buffer)[i] == One(i < |s.phase| && s.phase[i] !in OWES)
  }

  /** The steps of a goroutine, who takes them and where they lead. */
  predicate Moves(e: Step) {
    !e.Cancel? && !e.Close? && !e.Drain?
  }

  function Mover(s: State, e: Step): nat
    requires Moves(e)
  {
    if e.Spawn? then s.spawned else e.i
  }

  function Target(s: State, e: Step): Phase
    requires Moves(e) && Mover(s, e) < |s.phase|
  {
    match e
    case Spawn => AtSelect
    case Acquire(i) => Fetching
    case Abort(i) => Aborting
    case FetchEnds(i) => Sending
    case Send(i) => if s.phase[i].Aborting? then Leaving else Releasing
    case Release(i) => Leaving
    case _ => Done
  }

  lemma StepKeepsCounts(limit: nat, s: State, e: Step)
    requires Counted(limit, s) && Phased(s) && Enabled(limit, s, e)
    ensures Counted(limit, Apply(limit, s, e))
  {
    if Moves(e) {
      var i, p := Mover(s, e), Target(s, e);
      assert Apply(limit, s, e).phase == s.phase[i := p];
      CountUpdate(s.phase, i, p, HOLDS);
      CountUpdate(s.phase, i, p, LIVE);
      CountUpdate(s.phase, i, p, OWES);
    }
  }

  lemma StepKeepsPhases(limit: nat, s: State, e: Step)
    requires Counted(limit, s) && Phased(s) && Enabled(limit, s, e)
    ensures Phased(Apply(limit, s, e))
  {
    if Moves(e) {
      var i := Mover(s, e);
      assert i < |s.phase| && !s.phase[i].Done?;
      assert !s.closed;
      assert Apply(limit, s, e).phase == s.phase[i := Target(s, e)];
    } else if e.Close? {
      CountWitness(s.phase, LIVE);
      forall i | 0 <= i < |s.phase|
        ensures s.phase[i].Done?
      {
        assert s.phase[i] !in LIVE;
      }
    }
  }

  lemma SendDelivers(limit: nat, s: State, j: nat, i: nat)
    requires Phased(s) && Delivered(s, i) && Enabled(limit, s, Send(j))
    ensures Delivered(Apply(limit, s, Send(j)), i)
  {
    assert multiset(s.buffer + [j])[i] == multiset(s.buffer)[i] + One(i == j);
  }

  lemma DrainDelivers(limit: nat, s: State, i: nat)
    requires Delivered(s, i) && Enabled(limit, s, Drain)
    ensures Delivered(Apply(limit, s, Drain), i)
  {
    assert s.buffer == [s.buffer[0]] + s.buffer[1..];
  }

  lemma StepDelivers(limit: nat, s: State, e: Step, i: nat)
    requires Phased(s) && Delivered(s, i) && Enabled(limit, s, e)
    ensures Delivered(Apply(limit, s, e), i)
  {
    if e.Send? {
      SendDelivers(limit, s, e.i, i);
    } else if e.Drain? {
      DrainDelivers(limit, s, i);
    } else {
      var t := Apply(limit, s, e);
      assert t.buffer == s.buffer && t.drained == s.drained;
      assert Moves(e) ==> t.phase == s.phase[Mover(s, e) := Target(s, e)];
    }
  }

  ghost predicate Inv(limit: nat, s: State) {
    Counted(limit, s) && Phased(s) && forall i: nat :: Delivered(s, i)
  }

  lemma StepKeepsInv(limit: nat, s: State, e: Step)
    requires Inv(limit, s) && Enabled(limit, s, e)
    ensures Inv(limit, Apply(limit, s, e))
  {
    StepKeepsCounts(limit, s, e);
    StepKeepsPhases(limit, s, e);
    forall i: nat
      ensures Delivered(Apply(limit, s, e), i)
    {
      StepDelivers(limit, s, e, i);
    }
  }

  lemma {:induction false} RunKeepsInv(limit: nat, s: State, es: seq<Step>)
    requires Inv(limit, s) && Legal(limit, s, es)
    ensures Inv(limit, Final(limit, s, es)) && |Final(limit, s, es).phase| == |s.phase|
    decreases |es|
  {
    if es != [] {
      StepKeepsInv(limit, s, es[0]);
      RunKeepsInv(limit, Apply(limit, s, es[0]), es[1..]);
    }
  }

  lemma {:induction false} InitialCounts(n: nat)
    ensures Count(seq(n, _ => Unspawned), HOLDS) == 0
    ensures Count(seq(n, _ => Unspawned), LIVE) == 0
    ensures Count(seq(n, _ => Unspawned), OWES) == n
  {
    if n > 0 {
      assert seq(n, _ => Unspawned)[1..] == seq(n - 1, _ => Unspawned);
      InitialCounts(n - 1);
    }
  }

  lemma ReachableInv(limit: nat, n: nat, s: State)
    requires Reachable(limit, n, s)
    ensures Inv(limit, s) && |s.phase| == n
  {
    var es :| Legal(limit, Initial(n), es) && Final(limit, Initial(n), es) == s;
    InitialCounts(n);
    RunKeepsInv(limit, Initial(n), es);
  }

  /******* Safety *******/

  /** At most `limit` fetches are in progress; a goroutine that wants to send finds room in an open channel;
      slots and the wait group are never given back twice. */
  lemma ScheduleIsSafe(limit: nat, n: nat, s: State)
    requires Reachable(limit, n, s)
    ensures Count(s.phase, {Fetching}) <= Count(s.phase, HOLDS) <= limit
    ensures |s.drained| + |s.buffer| + Count(s.phase, OWES) == n
    ensures forall i :: PhaseIs(s, i, Sending) || PhaseIs(s, i, Aborting) ==> Enabled(limit, s, Send(i)) && !s.closed
    ensures forall i :: PhaseIs(s, i, Releasing) ==> Enabled(limit, s, Release(i))
    ensures forall i :: PhaseIs(s, i, Leaving) ==> Enabled(limit, s, Finish(i))
  {
    ReachableInv(limit, n, s);
    FewerFetching(s.phase);
    forall i | 0 <= i < n
      ensures s.phase[i] in OWES ==> Count(s.phase, OWES) > 0
      ensures s.phase[i] in HOLDS ==> Count(s.phase, HOLDS) > 0
      ensures s.phase[i] in LIVE ==> Count(s.phase, LIVE) > 0
    {
      CountsIt(s.phase, i, OWES);
      CountsIt(s.phase, i, HOLDS);
      CountsIt(s.phase, i, LIVE);
    }
  }

  lemma CountsIt(phase: seq<Phase>, i: nat, of: set<Phase>)
    requires i < |phase|
    ensures phase[i] in of ==> Count(phase, of) > 0
  {
    CountWitness(phase, of);
  }

  lemma FewerFetching(phase: seq<Phase>)
    ensures Count(phase, {Fetching}) <= Count(phase, HOLDS)
  {
  }

  /******* Progress *******/

  /** A goroutine that is spawned, past its select and not done can always move. */
  lemma MoverMoves(limit: nat, n: nat, s: State, i: nat)
    requires Reachable(limit, n, s) && i < |s.phase| && s.phase[i] !in {Unspawned, AtSelect, Done}
    ensures Enabled(limit, s, Onward(s, i)) && !Onward(s, i).Cancel?
  {
    ScheduleIsSafe(limit, n, s);
    assert PhaseIs(s, i, s.phase[i]);
  }

  lemma SlotOrHolder(limit: nat, n: nat, s: State, i: nat) returns (e: Step)
    requires Reachable(limit, n, s) && limit > 0 && PhaseIs(s, i, AtSelect)
    ensures Enabled(limit, s, e) && !e.Cancel?
  {
    ReachableInv(limit, n, s);
    if s.sem < limit {
      e := Acquire(i);
    } else {
      CountWitness(s.phase, HOLDS);
      var j :| 0 <= j < |s.phase| && s.phase[j] in HOLDS;
      MoverMoves(limit, n, s, j);
      e := Onward(s, j);
    }
  }

  /** As long as the collecting loop has not ended, some goroutine can move, cancelled or not. */
  lemma AlwaysProgress(limit: nat, n: nat, s: State) returns (e: Step)
    requires Reachable(limit, n, s) && !Finished(s) && limit > 0
    ensures Enabled(limit, s, e) && !e.Cancel?
  {
    ReachableInv(limit, n, s);
    if s.spawned < n {
      e := Spawn;
    } else if Count(s.phase, LIVE) > 0 {
      CountWitness(s.phase, LIVE);
      var i :| 0 <= i < |s.phase| && s.phase[i] in LIVE;
      if s.phase[i].AtSelect? {
        e := SlotOrHolder(limit, n, s, i);
      } else {
        MoverMoves(limit, n, s, i);
        e := Onward(s, i);
      }
    } else {
      e := if s.closed then Drain else Close;
    }
  }

  function Onward(s: State, i: nat): Step
    requires i < |s.phase|
  {
    match s.phase[i]
    case Fetching => FetchEnds(i)
    case Releasing => Release(i)
    case Leaving => Finish(i)
    case _ => Send(i)
  }

  /** Without a slot to acquire, a batch that is not cancelled stalls as soon as its goroutines are spawned. */
  lemma {:induction false} NoSlotStalls(n: nat, s: State) returns (es: seq<Step>)
    requires s.phase == seq(n, i => if i < s.spawned then AtSelect else Unspawned) && s.spawned <= n
    requires s.buffer == [] && !s.closed && !s.cancelled && s.wg == s.spawned
    ensures Legal(0, s, es)
    ensures var t := Final(0, s, es); n > 0 ==> !Finished(t) && forall e :: Enabled(0, t, e) ==> e.Cancel?
    decreases n - s.spawned
  {
    if s.spawned == n {
      es := [];
    } else {
      var t := Apply(0, s, Spawn);
      assert t.phase == seq(n, i => if i < t.spawned then AtSelect else Unspawned);
      var rest := NoSlotStalls(n, t);
      es := [Spawn] + rest;
      assert es[1..] == rest;
    }
  }

  ghost predicate MakesProgress(limit: nat, n: nat) {
    forall s :: Reachable(limit, n, s) && !Finished(s) ==> exists e :: Enabled(limit, s, e) && !e.Cancel?
  }

  /** Progress rests on the concurrency limit: a batch of URLs can always go on exactly when the limit is positive. */
  lemma ProgressExactly(limit: nat, n: nat)
    requires n > 0
    ensures MakesProgress(limit, n) <==> limit > 0
  {
    if limit > 0 {
      forall s | Reachable(limit, n, s) && !Finished(s)
        ensures exists e :: Enabled(limit, s, e) && !e.Cancel?
      {
        var e := AlwaysProgress(limit, n, s);
      }
    } else {
      assert Initial(n).phase == seq(n, i => if i < 0 then AtSelect else Unspawned);
      var es := NoSlotStalls(n, Initial(n));
      assert Reachable(0, n, Final(0, Initial(n), es));
    }
  }

  /******* Termination *******/

  function Weight(p: Phase): nat {
    match p
    case Unspawned => 6
    case AtSelect => 5
    case Aborting => 3
    case Fetching => 4
    case Sending => 3
    case Releasing => 2
    case Leaving => 1
    case Done => 0
  }

  function Weights(phase: seq<Phase>): nat {
    if phase == [] then 0 else Weight(phase[0]) + Weights(phase[1..])
  }

  lemma {:induction false} WeightsUpdate(phase: seq<Phase>, i: nat, p: Phase)
    requires i < |phase|
    ensures Weights(phase[i := p]) + Weight(phase[i]) == Weights(phase) + Weight(p)
  {
    if i == 0 {
      assert phase[i := p][1..] == phase[1..];
    } else {
      assert phase[i := p][1..] == phase[1..][i - 1 := p];
      WeightsUpdate(phase[1..], i - 1, p);
    }
  }

  /** The steps a run can still take. */
  function Remaining(s: State): int {
    Weights(s.phase) + |s.phase| - |s.drained| + One(!s.closed) + One(!s.cancelled)
  }

  lemma StepShortens(limit: nat, s: State, e: Step)
    requires Inv(limit, s) && Enabled(limit, s, e)
    ensures Remaining(Apply(limit, s, e)) < Remaining(s)
  {
    if Moves(e) {
      var i, p := Mover(s, e), Target(s, e);
      assert Apply(limit, s, e).phase == s.phase[i := p];
      WeightsUpdate(s.phase, i, p);
    }
  }

  lemma {:induction false} RunShortens(limit: nat, s: State, es: seq<Step>)
    requires Inv(limit, s) && Legal(limit, s, es)
    ensures |es| <= Remaining(s)
    decreases |es|
  {
    if es != [] {
      StepShortens(limit, s, es[0]);
      StepKeepsInv(limit, s, es[0]);
      RunShortens(limit, Apply(limit, s, es[0]), es[1..]);
    }
  }

  lemma {:induction false} InitialWeights(n: nat)
    ensures Weights(seq(n, _ => Unspawned)) == 6 * n
  {
    if n > 0 {
      assert seq(n, _ => Unspawned)[1..] == seq(n - 1, _ => Unspawned);
      InitialWeights(n - 1);
    }
  }

  /** Every schedule of `n` URLs ends within seven steps per URL and two more. */
  lemma EveryScheduleEnds(limit: nat, n: nat, es: seq<Step>)
    requires Legal(limit, Initial(n), es)
    ensures |es| <= 7 * n + 2
  {
    InitialCounts(n);
    InitialWeights(n);
    RunShortens(limit, Initial(n), es);
  }

  /******* What is collected *******/

  function Indices(n: nat): seq<nat> {
    seq(n, i requires 0 <= i < n => i)
  }

  lemma {:induction false} IndicesOnce(n: nat, i: nat)
    ensures multiset(Indices(n))[i] == One(i < n)
  {
    if n > 0 {
      assert Indices(n) == Indices(n - 1) + [n - 1];
      IndicesOnce(n - 1, i);
    }
  }

  /** When the loop ends it has received exactly one result from every goroutine, in some order. */
  lemma CollectsEveryResultOnce(limit: nat, n: nat, s: State)
    requires Reachable(limit, n, s) && Finished(s)
    ensures multiset(s.drained) == multiset(Indices(n))
  {
    ReachableInv(limit, n, s);
    forall i: nat
      ensures multiset(s.drained)[i] == multiset(Indices(n))[i]
    {
      IndicesOnce(n, i);
      assert Delivered(s, i);
    }
  }

  /******* What a run tells about each goroutine *******/

  /** Who gave up holds no slot and only after the context was cancelled; results are collected and the channel is
      closed only once all goroutines are spawned. */
  predicate Sorted(s: State) {
    && (forall i :: 0 <= i < |s.phase| && s.phase[i].Aborting? ==> i in s.gaveUp)
    && (forall i :: i in s.gaveUp ==> s.cancelled && i < |s.phase| && s.phase[i] in {Aborting, Leaving, Done})
    && (s.drained != [] || s.closed ==> s.spawned == |s.phase|)
  }

  /** A goroutine's fetch has ended. */
  predicate HasFetched(s: State, i: nat) {
    i < |s.phase| && s.phase[i] in {Sending, Releasing, Leaving, Done} && i !in s.gaveUp
  }

  lemma StepSorts(limit: nat, s: State, e: Step)
    requires Sorted(s) && Phased(s) && Enabled(limit, s, e)
    ensures Sorted(Apply(limit, s, e))
  {
    if e.Spawn? {
      assert s.phase[s.spawned].Unspawned?;
    }
  }

  lemma StepTells(limit: nat, s: State, e: Step, i: nat)
    requires Sorted(s) && Phased(s) && Enabled(limit, s, e)
    ensures i in Apply(limit, s, e).gaveUp <==> i in s.gaveUp || e == Abort(i)
    ensures HasFetched(Apply(limit, s, e), i) <==> HasFetched(s, i) || e == FetchEnds(i)
  {
    var t := Apply(limit, s, e);
    if Moves(e) {
      var j := Mover(s, e);
      assert t.phase == s.phase[j := Target(s, e)];
      assert e.Spawn? ==> s.phase[j].Unspawned?;
    }
  }

  lemma {:induction false} RunTells(limit: nat, s: State, es: seq<Step>, i: nat)
    requires Inv(limit, s) && Sorted(s) && Legal(limit, s, es)
    ensures var t := Final(limit, s, es);
            && Sorted(t)
            && (i in t.gaveUp <==> i in s.gaveUp || Abort(i) in es)
            && (HasFetched(t, i) <==> HasFetched(s, i) || FetchEnds(i) in es)
    decreases |es|
  {
    if es != [] {
      StepKeepsInv(limit, s, es[0]);
      StepSorts(limit, s, es[0]);
      StepTells(limit, s, es[0], i);
      RunTells(limit, Apply(limit, s, es[0]), es[1..], i);
      assert es == [es[0]] + es[1..];
    }
  }

  /** Who sent in a run, in order. */
  function Senders(es: seq<Step>): seq<nat> {
    if es == [] then [] else (if es[0].Send? then [es[0].i] else []) + Senders(es[1..])
  }

  lemma {:induction false} SentInOrder(limit: nat, s: State, es: seq<Step>)
    requires Legal(limit, s, es)
    ensures Final(limit, s, es).drained + Final(limit, s, es).buffer == s.drained + s.buffer + Senders(es)
    decreases |es|
  {
    if es != [] {
      var t := Apply(limit, s, es[0]);
      SentInOrder(limit, t, es[1..]);
      assert t.drained + t.buffer == s.drained + s.buffer + if es[0].Send? then [es[0].i] else [];
    }
  }

  /** A finished run: every goroutine either fetched or, after the context was cancelled, gave up, never both; the
      results were collected in the order in which they were sent; and collecting began once all were spawned. */
  lemma FetchedOrGaveUp(limit: nat, n: nat, es: seq<Step>, i: nat)
    requires Legal(limit, Initial(n), es) && Finished(Final(limit, Initial(n), es)) && i < n
    ensures var s := Final(limit, Initial(n), es);
            && (i in s.gaveUp <==> Abort(i) in es)
            && (i !in s.gaveUp <==> FetchEnds(i) in es)
            && (s.gaveUp != {} ==> Cancel in es)
            && s.drained == Senders(es) && s.spawned == n
  {
    var s := Final(limit, Initial(n), es);
    InitialCounts(n);
    RunKeepsInv(limit, Initial(n), es);
    RunTells(limit, Initial(n), es, i);
    SentInOrder(limit, Initial(n), es);
    CancelTells(limit, Initial(n), es);
    assert s.phase[i].Done? && s.drained + s.buffer == s.drained;
    assert Senders(es) == Initial(n).drained + Initial(n).buffer + Senders(es);
    if j :| j in s.gaveUp {
      assert s.cancelled;
    }
  }

  lemma {:induction false} CancelTells(limit: nat, s: State, es: seq<Step>)
    requires Legal(limit, s, es)
    ensures Final(limit, s, es).cancelled <==> s.cancelled || Cancel in es
    decreases |es|
  {
    if es != [] {
      CancelTells(limit, Apply(limit, s, es[0]), es[1..]);
      assert es == [es[0]] + es[1..];
    }
  }

  /******* Every order can happen *******/

  lemma {:induction false} Then(limit: nat, s: State, es: seq<Step>, e: Step)
    requires Legal(limit, s, es) && Enabled(limit, Final(limit, s, es), e)
    ensures Legal(limit, s, es + [e]) && Final(limit, s, es + [e]) == Apply(limit, Final(limit, s, es), e)
    decreases |es|
  {
    if es == [] {
      assert [e][1..] == [];
    } else {
      assert (es + [e])[0] == es[0] && (es + [e])[1..] == es[1..] + [e];
      Then(limit, Apply(limit, s, es[0]), es[1..], e);
    }
  }

  /** The first `k` goroutines are spawned, and nothing else has happened. */
  function Spawned(n: nat, k: nat): State {
    State(seq(n, i => if i < k then AtSelect else Unspawned), k, 0, k, [], [], false, false, {})
  }

  lemma {:induction false} SpawnAll(limit: nat, n: nat, k: nat) returns (es: seq<Step>)
    requires k <= n
    ensures Legal(limit, Initial(n), es) && Final(limit, Initial(n), es) == Spawned(n, k)
  {
    if k == 0 {
      es := [];
      assert Initial(n).phase == Spawned(n, 0).phase;
    } else {
      es := SpawnAll(limit, n, k - 1);
      Then(limit, Initial(n), es, Spawn);
      assert Spawned(n, k - 1).phase[k - 1 := AtSelect] == Spawned(n, k).phase;
      es := es + [Spawn];
    }
  }

  /** All goroutines are spawned; those in `served` are done and their results collected in that order, the others
      wait. */
  function Served(n: nat, served: seq<nat>): State
    requires |served| <= n
  {
    State(seq(n, i => if i in served then Done else AtSelect), n, 0, n - |served|, [], served, false, false, {})
  }

  /** The life of one goroutine that is served alone: each step's effect on its phase, the slot, the wait group and
      the channel. */
  function Stage(n: nat, served: seq<nat>, i: nat, k: nat): State
    requires |served| < n && i < n
  {
    var s := Served(n, served);
    if k == 0 then s
    else if k == 1 then Move(s, i, Fetching).(sem := 1)
    else if k == 2 then Move(s, i, Sending).(sem := 1)
    else if k == 3 then Move(s, i, Releasing).(sem := 1, buffer := [i])
    else if k == 4 then Move(s, i, Releasing).(sem := 1, drained := served + [i])
    else if k == 5 then Move(s, i, Leaving).(drained := served + [i])
    else Move(s, i, Done).(drained := served + [i], wg := n - |served| - 1)
  }

  function StageStep(i: nat, k: nat): Step {
    if k == 0 then Acquire(i)
    else if k == 1 then FetchEnds(i)
    else if k == 2 then Send(i)
    else if k == 3 then Drain
    else if k == 4 then Release(i)
    else Finish(i)
  }

  lemma StageAdvances(limit: nat, n: nat, served: seq<nat>, i: nat, k: nat)
    requires limit > 0 && |served| < n && i < n && i !in served && k < 6
    ensures Enabled(limit, Stage(n, served, i, k), StageStep(i, k))
    ensures Apply(limit, Stage(n, served, i, k), StageStep(i, k)) == Stage(n, served, i, k + 1)
  {
    var s, t := Stage(n, served, i, k), Stage(n, served, i, k + 1);
    assert Served(n, served).phase[i] == AtSelect;
    if k == 3 {
      assert s.buffer[1..] == [];
    } else {
      assert s.phase[i := t.phase[i]] == t.phase;
    }
  }

  lemma {:induction false} Stages(limit: nat, n: nat, es: seq<Step>, served: seq<nat>, i: nat, k: nat)
    returns (es': seq<Step>)
    requires Legal(limit, Initial(n), es) && |served| < n && i < n && i !in served && k <= 6 && limit > 0
    requires Final(limit, Initial(n), es) == Served(n, served)
    ensures Legal(limit, Initial(n), es') && Final(limit, Initial(n), es') == Stage(n, served, i, k)
  {
    if k == 0 {
      es' := es;
    } else {
      es' := Stages(limit, n, es, served, i, k - 1);
      StageAdvances(limit, n, served, i, k - 1);
      Then(limit, Initial(n), es', StageStep(i, k - 1));
      es' := es' + [StageStep(i, k - 1)];
    }
  }

  /** Goroutines listed once each can be served in that order, one after the other. */
  lemma {:induction false} ServeInOrder(limit: nat, n: nat, order: seq<nat>) returns (es: seq<Step>)
    requires limit > 0 && |order| <= n
    requires forall k :: 0 <= k < |order| ==> order[k] < n && order[k] !in order[..k]
    ensures Legal(limit, Initial(n), es) && Final(limit, Initial(n), es) == Served(n, order)
  {
    if order == [] {
      es := SpawnAll(limit, n, n);
      assert Spawned(n, n).phase == Served(n, []).phase;
    } else {
      var k := |order| - 1;
      var before, i := order[..k], order[k];
      assert forall j :: 0 <= j < k ==> before[..j] == order[..j];
      es := ServeInOrder(limit, n, before);
      es := Stages(limit, n, es, before, i, 6);
      assert order == before + [i];
      assert Served(n, before).phase[i := Done] == Served(n, order).phase;
    }
  }

  lemma EachOnce(n: nat, order: seq<nat>, k: nat)
    requires multiset(order) == multiset(Indices(n)) && k < |order|
    ensures order[k] < n && order[k] !in order[..k]
  {
    IndicesOnce(n, order[k]);
    assert order == order[..k] + [order[k]] + order[k + 1..];
    assert multiset(order)[order[k]] == multiset(order[..k])[order[k]] + 1 + multiset(order[k + 1..])[order[k]];
  }

  /** With a positive limit the results can be collected in every order. */
  lemma EveryOrderHappens(limit: nat, n: nat, order: seq<nat>) returns (s: State)
    requires limit > 0 && multiset(order) == multiset(Indices(n))
    ensures Reachable(limit, n, s) && Finished(s) && s.drained == order && s.gaveUp == {}
  {
    assert |order| == n by {
      assert |multiset(order)| == |order| && |multiset(Indices(n))| == |Indices(n)|;
    }
    forall k | 0 <= k < |order|
      ensures order[k] < n && order[k] !in order[..k]
    {
      EachOnce(n, order, k);
    }
    var es := ServeInOrder(limit, n, order);
    Then(limit, Initial(n), es, Close);
    s := Final(limit, Initial(n), es + [Close]);
    assert Reachable(limit, n, s);
  }
}
