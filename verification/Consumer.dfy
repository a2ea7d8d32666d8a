/** What the consumer does with one delivery, and how that moves the command through the queues. */
module Consumer {
  import opened Base
  import opened CommandQueue
  import opened RetryCount
  import opened Topology

  datatype Settlement = Acknowledged | DeadLettered | Requeued

  /** A delivery's way back to the broker: how it was settled, if the broker got to know, and what was published to
      the failed queue meanwhile. */
  class Courier {
    var settled: Option<Settlement>
    var parked: seq<string>

    constructor ()
      ensures settled == None && parked == []
    {
      settled, parked := None, [];
    }

    method Ack(reaches: bool)
      requires settled == None
      modifies this`settled
      ensures settled == if reaches then Some(Acknowledged) else None
    {
      if reaches {
        settled := Some(Acknowledged);
      }
    }

    method Nack(requeue: bool, reaches: bool)
      requires settled == None
      modifies this`settled
      ensures settled == if !reaches then None else Some(if requeue then Requeued else DeadLettered)
    {
      if reaches {
        settled := Some(if requeue then Requeued else DeadLettered);
      }
    }

    /** Publishes to the failed queue with the reason as its header; a refusal leaves nothing behind. */
    method Park(error: string, accepted: bool)
      modifies this`parked
      ensures parked == if accepted then old(parked) + [error] else old(parked)
    {
      if accepted {
        parked := parked + [error];
      }
    }
  }

  const EXCEEDED := "exceeded maximum 3 retries"

  /** The verdict on a delivery with any headers. */
  function VerdictOn(readable: bool, headers: Headers): Phase {
    if !readable then Malformed
    else if CountIn(Entries(headers)) >= MAX_RETRIES then Exhausted
    else Handling
  }

  /** On the headers of a dead-letter history it is the verdict of the queue machine. */
  lemma VerdictOnHistory(m: Msg)
    ensures VerdictOn(m.decodable, HeadersOf(m.deaths)) == Verdict(m)
  {
    RetryCountIsUnique(Entries(HeadersOf(m.deaths)), CountIn(Entries(HeadersOf(m.deaths))), Retries(m.deaths));
  }

  /** How a delivery is settled, from the verdict and what the handler and the broker answer. */
  function SettlementOf(v: Phase, handlerOk: bool, parkOk: bool): Settlement {
    match v
    case Malformed => Acknowledged
    case Exhausted => if parkOk then Acknowledged else Requeued
    case _ => if handlerOk then Acknowledged else DeadLettered
  }

  /** Settles every delivery at most once, and exactly once if the settlement reaches the broker. The handler runs
      exactly on readable commands whose counts, in headers of any shape, are all below three. A readable command that
      has used up its retries is copied to the failed queue and acknowledged, or requeued if that is refused; the
      others are acknowledged if unreadable or handled, and dead-lettered if the handler failed. */
  method ProcessDelivery(readable: bool, headers: Headers, handlerOk: bool, parkOk: bool, reaches: bool,
          courier: Courier)
    returns (handled: bool)
    requires courier.settled == None && courier.parked == []
    modifies courier
    ensures handled <==>
            && readable
            && !(headers.Some? && "x-death" in headers.value && headers.value["x-death"].Array?
                 && exists e :: e in headers.value["x-death"].items && e.Table? && "count" in e.fields
                                && ((e.fields["count"].Long? && e.fields["count"].long >= 3)
                                    || (e.fields["count"].Int? && e.fields["count"].int32 >= 3)))
    ensures courier.settled ==
            if !reaches then None
            else if !readable then Some(Acknowledged)
            else if handled then Some(if handlerOk then Acknowledged else DeadLettered)
            else Some(if parkOk then Acknowledged else Requeued)
    ensures courier.parked == if readable && !handled && parkOk then ["exceeded maximum 3 retries"] else []
    ensures reaches ==> courier.settled == Some(SettlementOf(VerdictOn(readable, headers), handlerOk, parkOk))
    ensures handled <==> VerdictOn(readable, headers) == Handling
  {
    if !readable {
      courier.Ack(reaches);
      return false;
    }
    var retryCount := GetRetryCount(headers);
    RetryCountIsUnique(Entries(headers), retryCount, CountIn(Entries(headers)));
    if retryCount >= 3 {
      courier.Park(EXCEEDED, parkOk);
      if !parkOk {
        courier.Nack(true, reaches);
        return false;
      }
      courier.Ack(reaches);
      return false;
    }
    if !handlerOk {
      courier.Nack(false, reaches);
      return true;
    }
    courier.Ack(reaches);
    return true;
  }

  /** A readable command that was rejected and expired three times is parked without running the handler; after two
      times it is handled once more. */
  lemma ThreeRetriesAreEnough(cfg: Config, m: Msg, n: nat)
    requires cfg.worker != cfg.wait && m.decodable
    requires m.deaths == if n == 0 then [] else [Death(cfg.wait, Expired, n), Death(cfg.worker, Rejected, n)]
    ensures VerdictOn(true, HeadersOf(m.deaths)) == Verdict(m) == if n < 3 then Handling else Exhausted
  {
    assert m.deaths == AtWork(cfg, n);
    CountsAtWork(cfg, n);
    VerdictOnHistory(m);
  }

  /** The steps of the machine that one call of `ProcessDelivery` stands for. */
  function StepsOf(m: Msg, i: nat, handlerOk: bool, parkOk: bool): seq<Step> {
    match Verdict(m)
    case Malformed => [Decide(i), Ack(i)]
    case Exhausted => [Decide(i), Step.Park(i, parkOk), if parkOk then Ack(i) else Requeue(i, 0)]
    case _ => [Decide(i), HandlerReturns(i, handlerOk), if handlerOk then Ack(i) else Reject(i)]
  }

  /** Where a delivery ends up by its settlement: a requeued command at the head of the worker queue, a dead-
      lettered one at the end of the wait queue, an acknowledged one on the record its verdict calls for, with a
      copy in the failed queue if its retries were used up. */
  function Settled(cfg: Config, s: State, i: nat, handlerOk: bool, parkOk: bool): State
    requires i < |s.unacked|
  {
    var m := s.unacked[i].msg;
    var t := s.(unacked := Removed(s.unacked, i));
    match SettlementOf(Verdict(m), handlerOk, parkOk)
    case Requeued => t.(worker := [m] + s.worker)
    case DeadLettered => t.(wait := s.wait + [m.(fails := m.fails + 1, deaths := Die(m.deaths, cfg.worker, Rejected))])
    case Acknowledged =>
      match Verdict(m)
      case Malformed => t.(discarded := s.discarded + [m])
      case Exhausted => t.(shelved := s.shelved + [m], failed := s.failed + [m.(deaths := [])])
      case _ => t.(acked := s.acked + [m])
  }

  lemma RemovedAfterPhase(s: State, i: nat, p: Phase)
    requires i < |s.unacked|
    ensures SetPhase(s, i, p).unacked[i] == Delivery(s.unacked[i].msg, p)
    ensures Removed(SetPhase(s, i, p).unacked, i) == Removed(s.unacked, i)
  {
  }

  lemma PhaseTwice(s: State, i: nat, p: Phase, q: Phase)
    requires i < |s.unacked|
    ensures SetPhase(SetPhase(s, i, p), i, q) == SetPhase(s, i, q)
  {
    assert s.unacked[i := s.unacked[i].(phase := p)][i := s.unacked[i].(phase := q)]
      == s.unacked[i := s.unacked[i].(phase := q)];
  }

  lemma OneStep(cfg: Config, s: State, a: Step)
    requires Enabled(cfg, s, a)
    ensures Legal(cfg, s, [a]) && Final(cfg, s, [a]) == Apply(cfg, s, a)
  {
    assert [a][1..] == [];
  }

  lemma TwoSteps(cfg: Config, s: State, a: Step, b: Step)
    requires Enabled(cfg, s, a) && Enabled(cfg, Apply(cfg, s, a), b)
    ensures Legal(cfg, s, [a, b]) && Final(cfg, s, [a, b]) == Apply(cfg, Apply(cfg, s, a), b)
  {
    assert [a, b][1..] == [b];
    OneStep(cfg, Apply(cfg, s, a), b);
  }

  lemma ThreeSteps(cfg: Config, s: State, a: Step, b: Step, c: Step)
    requires Enabled(cfg, s, a) && Enabled(cfg, Apply(cfg, s, a), b) && Enabled(cfg, Apply(cfg, Apply(cfg, s, a), b), c)
    ensures Legal(cfg, s, [a, b, c]) && Final(cfg, s, [a, b, c]) == Apply(cfg, Apply(cfg, Apply(cfg, s, a), b), c)
  {
    assert [a, b, c][1..] == [b, c];
    TwoSteps(cfg, Apply(cfg, s, a), b, c);
  }

  /** The state in which a delivery is about to be settled. */
  function AboutToSettle(s: State, i: nat, handlerOk: bool, parkOk: bool): State
    requires i < |s.unacked|
  {
    var m := s.unacked[i].msg;
    match Verdict(m)
    case Malformed => SetPhase(s, i, Malformed)
    case Exhausted => if parkOk then SetPhase(s, i, Parked).(failed := s.failed + [m.(deaths := [])])
      else SetPhase(s, i, ParkFailed)
    case _ => SetPhase(s, i, if handlerOk then Handled else HandlerFailed)
  }

  lemma LastAck(cfg: Config, s: State, i: nat, handlerOk: bool, parkOk: bool)
    requires Sound(cfg) && i < |s.unacked| && SettlementOf(Verdict(s.unacked[i].msg), handlerOk, parkOk).Acknowledged?
    ensures var es := StepsOf(s.unacked[i].msg, i, handlerOk, parkOk);
            var t, e := AboutToSettle(s, i, handlerOk, parkOk), es[|es| - 1];
            Enabled(cfg, t, e) && Apply(cfg, t, e) == Settled(cfg, s, i, handlerOk, parkOk)
  {
    RemovedAfterPhase(s, i, AboutToSettle(s, i, handlerOk, parkOk).unacked[i].phase);
  }

  lemma LastRequeue(cfg: Config, s: State, i: nat, handlerOk: bool, parkOk: bool)
    requires Sound(cfg) && i < |s.unacked| && SettlementOf(Verdict(s.unacked[i].msg), handlerOk, parkOk).Requeued?
    ensures var es := StepsOf(s.unacked[i].msg, i, handlerOk, parkOk);
            var t, e := AboutToSettle(s, i, handlerOk, parkOk), es[|es| - 1];
            Enabled(cfg, t, e) && Apply(cfg, t, e) == Settled(cfg, s, i, handlerOk, parkOk)
  {
    RemovedAfterPhase(s, i, ParkFailed);
    assert s.worker[..0] + [s.unacked[i].msg] + s.worker[0..] == [s.unacked[i].msg] + s.worker;
  }

  lemma LastReject(cfg: Config, s: State, i: nat, handlerOk: bool, parkOk: bool)
    requires Sound(cfg) && i < |s.unacked| && SettlementOf(Verdict(s.unacked[i].msg), handlerOk, parkOk).DeadLettered?
    ensures var es := StepsOf(s.unacked[i].msg, i, handlerOk, parkOk);
            var t, e := AboutToSettle(s, i, handlerOk, parkOk), es[|es| - 1];
            Enabled(cfg, t, e) && Apply(cfg, t, e) == Settled(cfg, s, i, handlerOk, parkOk)
  {
    var t := SetPhase(s, i, HandlerFailed);
    assert AboutToSettle(s, i, handlerOk, parkOk) == t;
    RemovedAfterPhase(s, i, HandlerFailed);
    RoutingImplementsCycle(cfg, t, Reject(i));
  }

  /** The last step of a delivery: it is settled and leaves the list of unacknowledged ones. */
  lemma LastStep(cfg: Config, s: State, i: nat, handlerOk: bool, parkOk: bool)
    requires Sound(cfg) && i < |s.unacked|
    ensures var es := StepsOf(s.unacked[i].msg, i, handlerOk, parkOk);
            var t, e := AboutToSettle(s, i, handlerOk, parkOk), es[|es| - 1];
            Enabled(cfg, t, e) && Apply(cfg, t, e) == Settled(cfg, s, i, handlerOk, parkOk)
  {
    if SettlementOf(Verdict(s.unacked[i].msg), handlerOk, parkOk).Acknowledged? {
      LastAck(cfg, s, i, handlerOk, parkOk);
    } else if SettlementOf(Verdict(s.unacked[i].msg), handlerOk, parkOk).Requeued? {
      LastRequeue(cfg, s, i, handlerOk, parkOk);
    } else {
      LastReject(cfg, s, i, handlerOk, parkOk);
    }
  }

  lemma MiddleStep(cfg: Config, s: State, i: nat, handlerOk: bool, parkOk: bool)
    requires Sound(cfg) && i < |s.unacked| && s.unacked[i].msg.decodable
    ensures var m := s.unacked[i].msg;
            var s1, e := SetPhase(s, i, Verdict(m)), StepsOf(m, i, handlerOk, parkOk)[1];
            Enabled(cfg, s1, e) && Apply(cfg, s1, e) == AboutToSettle(s, i, handlerOk, parkOk)
  {
    var m := s.unacked[i].msg;
    var e, s1 := StepsOf(m, i, handlerOk, parkOk)[1], SetPhase(s, i, Verdict(m));
    PhaseTwice(s, i, Verdict(m), AboutToSettle(s, i, handlerOk, parkOk).unacked[i].phase);
    RoutingImplementsCycle(cfg, s1, e);
  }

  /** One delivery processed without interruption is a run of the machine that ends as its settlement says. */
  lemma DeliveryIsARun(cfg: Config, s: State, i: nat, handlerOk: bool, parkOk: bool)
    requires Sound(cfg) && PhaseIs(s, i, Received)
    ensures var es := StepsOf(s.unacked[i].msg, i, handlerOk, parkOk);
            Legal(cfg, s, es) && Final(cfg, s, es) == Settled(cfg, s, i, handlerOk, parkOk)
  {
    var m := s.unacked[i].msg;
    var es := StepsOf(m, i, handlerOk, parkOk);
    assert Apply(cfg, s, es[0]) == SetPhase(s, i, Verdict(m));
    LastStep(cfg, s, i, handlerOk, parkOk);
    if m.decodable {
      MiddleStep(cfg, s, i, handlerOk, parkOk);
      ThreeSteps(cfg, s, es[0], es[1], es[2]);
      assert es == [es[0], es[1], es[2]];
    } else {
      TwoSteps(cfg, s, es[0], es[1]);
      assert es == [es[0], es[1]];
    }
  }

  /** A delivery whose settlement does not reach the broker stays unacknowledged where it was about to be settled,
      until the connection is lost and the command is redelivered. */
  lemma UnsettledDeliveryIsARun(cfg: Config, s: State, i: nat, handlerOk: bool, parkOk: bool)
    requires Sound(cfg) && PhaseIs(s, i, Received)
    ensures var es := StepsOf(s.unacked[i].msg, i, handlerOk, parkOk);
            var begun := es[..|es| - 1];
            Legal(cfg, s, begun) && Final(cfg, s, begun) == AboutToSettle(s, i, handlerOk, parkOk)
  {
    var m := s.unacked[i].msg;
    var es := StepsOf(m, i, handlerOk, parkOk);
    assert Apply(cfg, s, es[0]) == SetPhase(s, i, Verdict(m));
    if m.decodable {
      MiddleStep(cfg, s, i, handlerOk, parkOk);
      TwoSteps(cfg, s, es[0], es[1]);
      assert es[..2] == [es[0], es[1]];
    } else {
      OneStep(cfg, s, es[0]);
      assert es[..1] == [es[0]];
    }
  }
}
