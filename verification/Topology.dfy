/**
 The exchanges, queues and bindings that `DeclareTopology` sets up, and where a message
 goes in them. Declaring is redone after every reconnection, on a broker that may hold
 anything; AMQP refuses to redeclare a queue with different arguments.
 */
module Topology {
  import opened Base

  datatype Config = Config(
    commands: string, retry: string, results: string,
    worker: string, wait: string, failed: string,
    commandsKey: string, resultsKey: string,
    prefetch: nat
  )

  /** The values of the shipped configuration file. */
  const SHIPPED := Config(
    "rss_commands", "rss_commands_retry", "rss_results",
    "rss_commands_worker", "rss_commands_wait_30s", "rss_commands_failed",
    "rss_commands_worker", "rss_results_rails", 10)

  const RESULTS_QUEUE := "rss_results_rails"
  const WAIT_TTL := 30000

  /** The queue arguments the service uses: time to live, dead-letter exchange and routing key. */
  datatype QueueArgs = QueueArgs(ttl: Option<nat>, deadLetter: Option<(string, string)>)

  const PLAIN := QueueArgs(None, None)

  function WorkerArgs(cfg: Config): QueueArgs {
    QueueArgs(None, Some((cfg.retry, cfg.commandsKey)))
  }

  function WaitArgs(cfg: Config): QueueArgs {
    QueueArgs(Some(WAIT_TTL), Some((cfg.commands, cfg.commandsKey)))
  }

  datatype Binding = Binding(exchange: string, key: string, queue: string)

  /** What the service declares is a durable direct exchange; the broker may hold others, with other properties. */
  datatype ExchangeKind = DurableDirect | AnotherKind(description: string)

  datatype Topo = Topo(exchanges: map<string, ExchangeKind>, queues: map<string, QueueArgs>, bindings: set<Binding>)

  const BARE := Topo(map[], map[], {})

  /** Where a published message goes: the default exchange delivers to the queue named by the routing key,
      a direct exchange to every queue bound with exactly that key. */
  function Route(t: Topo, exchange: string, key: string): set<string> {
    if exchange == "" then
      if key in t.queues then {key} else {}
    else
      set b | b in t.bindings && b.exchange == exchange && b.key == key :: b.queue
  }

  predicate Compatible(queues: map<string, QueueArgs>, name: string, args: QueueArgs) {
    name in queues ==> queues[name] == args
  }

  /** A name that is free or already that of a durable direct exchange; the empty name is the default exchange's. */
  predicate Declarable(exchanges: map<string, ExchangeKind>, name: string) {
    name != "" && (name in exchanges ==> exchanges[name].DurableDirect?)
  }

  /** When the broker accepts the whole declaration. */
  predicate Acceptable(t: Topo, cfg: Config) {
    && Declarable(t.exchanges, cfg.commands) && Declarable(t.exchanges, cfg.retry)
      && Declarable(t.exchanges, cfg.results)
    && Compatible(t.queues, cfg.worker, WorkerArgs(cfg))
    && Compatible(t.queues, cfg.wait, WaitArgs(cfg))
    && Compatible(t.queues, cfg.failed, PLAIN)
    && Compatible(t.queues, RESULTS_QUEUE, PLAIN)
    && cfg.worker != cfg.wait
    && cfg.worker !in {cfg.failed, RESULTS_QUEUE}
    && cfg.wait !in {cfg.failed, RESULTS_QUEUE}
  }

  function Bindings(cfg: Config): set<Binding> {
    {Binding(cfg.commands, cfg.commandsKey, cfg.worker),
     Binding(cfg.retry, cfg.commandsKey, cfg.wait),
     Binding(cfg.results, cfg.resultsKey, RESULTS_QUEUE)}
  }

  function Declared(t: Topo, cfg: Config): Topo {
    Topo(
      t.exchanges[cfg.commands := DurableDirect][cfg.retry := DurableDirect][cfg.results := DurableDirect],
      t.queues[cfg.worker := WorkerArgs(cfg)][cfg.wait := WaitArgs(cfg)][cfg.failed := PLAIN][RESULTS_QUEUE := PLAIN],
      t.bindings + Bindings(cfg))
  }

  /** A channel, seen as the broker it talks to. */
  class Channel {
    var topo: Topo

    constructor (topo: Topo)
      ensures this.topo == topo
    {
      this.topo := topo;
    }

    method ExchangeDeclare(name: string) returns (ok: bool)
      modifies this
      ensures ok <==> Declarable(old(topo).exchanges, name)
      ensures topo == if ok then old(topo).(exchanges := old(topo).exchanges[name := DurableDirect]) else old(topo)
    {
      ok := name != "" && (name !in topo.exchanges || topo.exchanges[name].DurableDirect?);
      if ok {
        topo := topo.(exchanges := topo.exchanges[name := DurableDirect]);
      }
    }

    method QueueDeclare(name: string, args: QueueArgs) returns (ok: bool)
      modifies this
      ensures ok <==> Compatible(old(topo).queues, name, args)
      ensures topo == if ok then old(topo).(queues := old(topo).queues[name := args]) else old(topo)
    {
      ok := name !in topo.queues || topo.queues[name] == args;
      if ok {
        topo := topo.(queues := topo.queues[name := args]);
      }
    }

    method QueueBind(queue: string, key: string, exchange: string) returns (ok: bool)
      modifies this
      ensures ok <==> queue in old(topo).queues && exchange in old(topo).exchanges
      ensures topo == if ok then old(topo).(bindings := old(topo).bindings + {Binding(exchange, key, queue)})
          else old(topo)
    {
      ok := queue in topo.queues && exchange in topo.exchanges;
      if ok {
        topo := topo.(bindings := topo.bindings + {Binding(exchange, key, queue)});
      }
    }
  }

  /******* The declaration sequence *******/

  datatype Declaration =
    | AnExchange(name: string)
    | AQueue(queue: string, args: QueueArgs)
    | ABinding(binding: Binding)

  predicate Accepts(t: Topo, d: Declaration) {
    match d
    case AnExchange(name) => Declarable(t.exchanges, name)
    case AQueue(queue, args) => Compatible(t.queues, queue, args)
    case ABinding(b) => b.queue in t.queues && b.exchange in t.exchanges
  }

  function With(t: Topo, d: Declaration): Topo {
    match d
    case AnExchange(name) => t.(exchanges := t.exchanges[name := DurableDirect])
    case AQueue(queue, args) => t.(queues := t.queues[queue := args])
    case ABinding(b) => t.(bindings := t.bindings + {b})
  }

  /** The declarations in their order. */
  function Plan(cfg: Config): seq<Declaration> {
    [AnExchange(cfg.commands), AnExchange(cfg.retry), AnExchange(cfg.results),
     AQueue(cfg.worker, WorkerArgs(cfg)), ABinding(Binding(cfg.commands, cfg.commandsKey, cfg.worker)),
     AQueue(cfg.wait, WaitArgs(cfg)), ABinding(Binding(cfg.retry, cfg.commandsKey, cfg.wait)),
     AQueue(cfg.failed, PLAIN),
     AQueue(RESULTS_QUEUE, PLAIN), ABinding(Binding(cfg.results, cfg.resultsKey, RESULTS_QUEUE))]
  }

  /** What the broker holds after the first `n` declarations. */
  function After(t: Topo, cfg: Config, n: nat): Topo
    requires n <= |Plan(cfg)|
  {
    if n == 0 then t else With(After(t, cfg, n - 1), Plan(cfg)[n - 1])
  }

  predicate AllAccepted(t: Topo, cfg: Config, n: nat)
    requires n <= |Plan(cfg)|
  {
    forall k :: 0 <= k < n ==> Accepts(After(t, cfg, k), Plan(cfg)[k])
  }

  /** The broker takes `n` declarations and refuses the next. */
  predicate RefusedAt(t: Topo, cfg: Config, n: nat) {
    n < |Plan(cfg)| && AllAccepted(t, cfg, n) && !Accepts(After(t, cfg, n), Plan(cfg)[n])
  }

  const MESSAGES: seq<string> := [
    "failed to declare commands exchange", "failed to declare retry exchange", "failed to declare results exchange",
    "failed to declare worker queue", "failed to bind worker queue",
    "failed to declare wait_30s queue", "failed to bind wait_30s queue",
    "failed to declare failed queue",
    "failed to declare results queue", "failed to bind results queue"]

  /** The declaration sequence. It stops at the first refusal, whose message it returns, and leaves what was
      declared until then. */
  method DeclareTopology(ch: Channel, cfg: Config) returns (r: Result<()>)
    modifies ch
    ensures r.Ok? <==> Acceptable(old(ch.topo), cfg)
    ensures r.Ok? ==> ch.topo == Declared(old(ch.topo), cfg)
    // Each refusal, by its message; a binding is never refused.
    ensures var before := old(ch.topo);
            var shut := set x | x in before.exchanges && !before.exchanges[x].DurableDirect? :: x;
            var q, xs := before.queues, [cfg.commands, cfg.retry, cfg.results];
            var worker := QueueArgs(None, Some((cfg.retry, cfg.commandsKey)));
            var wait := QueueArgs(Some(30000), Some((cfg.commands, cfg.commandsKey)));
            var plain := QueueArgs(None, None);
            r == if xs[0] == "" || xs[0] in shut then Err("failed to declare commands exchange")
                 else if xs[1] == "" || xs[1] in shut then Err("failed to declare retry exchange")
                 else if xs[2] == "" || xs[2] in shut then Err("failed to declare results exchange")
                 else if cfg.worker in q && q[cfg.worker] != worker then Err("failed to declare worker queue")
                 else if cfg.wait == cfg.worker || (cfg.wait in q && q[cfg.wait] != wait)
                 then Err("failed to declare wait_30s queue")
                 else if cfg.failed in {cfg.worker, cfg.wait} || (cfg.failed in q && q[cfg.failed] != plain)
                 then Err("failed to declare failed queue")
                 else if "rss_results_rails" in {cfg.worker, cfg.wait}
                         || ("rss_results_rails" in q && q["rss_results_rails"] != plain)
                 then Err("failed to declare results queue")
                 else Ok(())
    ensures r.Err? ==>
              exists n: nat ::
                && n < |Plan(cfg)| && RefusedAt(old(ch.topo), cfg, n)
                && r.message == MESSAGES[n] && ch.topo == After(old(ch.topo), cfg, n)
  {
    ghost var t := ch.topo;
    AcceptableExactly(t, cfg);
    var ok := ch.ExchangeDeclare(cfg.commands);
    if !ok { assert RefusedAt(t, cfg, 0); return Err("failed to declare commands exchange"); }
    ok := ch.ExchangeDeclare(cfg.retry);
    if !ok { assert RefusedAt(t, cfg, 1); return Err("failed to declare retry exchange"); }
    ok := ch.ExchangeDeclare(cfg.results);
    if !ok { assert RefusedAt(t, cfg, 2); return Err("failed to declare results exchange"); }
    assert ch.topo == After(t, cfg, 3) && AllAccepted(t, cfg, 3);

    ok := ch.QueueDeclare(cfg.worker, WorkerArgs(cfg));
    if !ok { assert RefusedAt(t, cfg, 3); return Err("failed to declare worker queue"); }
    assert ch.topo == After(t, cfg, 4) && AllAccepted(t, cfg, 4);
    ok := ch.QueueBind(cfg.worker, cfg.commandsKey, cfg.commands);
    if !ok { return Err("failed to bind worker queue"); }
    assert ch.topo == After(t, cfg, 5) && AllAccepted(t, cfg, 5);

    ok := ch.QueueDeclare(cfg.wait, WaitArgs(cfg));
    if !ok { assert RefusedAt(t, cfg, 5); return Err("failed to declare wait_30s queue"); }
    assert ch.topo == After(t, cfg, 6) && AllAccepted(t, cfg, 6);
    ok := ch.QueueBind(cfg.wait, cfg.commandsKey, cfg.retry);
    if !ok { return Err("failed to bind wait_30s queue"); }
    assert ch.topo == After(t, cfg, 7) && AllAccepted(t, cfg, 7);

    ok := ch.QueueDeclare(cfg.failed, PLAIN);
    if !ok { assert RefusedAt(t, cfg, 7); return Err("failed to declare failed queue"); }
    assert ch.topo == After(t, cfg, 8) && AllAccepted(t, cfg, 8);

    ok := ch.QueueDeclare(RESULTS_QUEUE, PLAIN);
    if !ok { assert RefusedAt(t, cfg, 8); return Err("failed to declare results queue"); }
    assert ch.topo == After(t, cfg, 9) && AllAccepted(t, cfg, 9);
    ok := ch.QueueBind(RESULTS_QUEUE, cfg.resultsKey, cfg.results);
    if !ok { return Err("failed to bind results queue"); }
    assert ch.topo == After(t, cfg, 10) && AllAccepted(t, cfg, 10);
    return Ok(());
  }

  /** What the plan has reached after its exchanges and after each of its queues. */
  lemma PlanSteps(t: Topo, cfg: Config)
    ensures var d, x := Declared(t, cfg), t.exchanges;
            && After(t, cfg, 1).exchanges == x[cfg.commands := DurableDirect]
            && After(t, cfg, 2).exchanges == x[cfg.commands := DurableDirect][cfg.retry := DurableDirect]
            && After(t, cfg, 3) == t.(exchanges := d.exchanges)
            && After(t, cfg, 10).exchanges == d.exchanges && After(t, cfg, 10).bindings == d.bindings
    ensures var q, w, a := t.queues, WorkerArgs(cfg), WaitArgs(cfg);
            && After(t, cfg, 5).queues == q[cfg.worker := w]
            && After(t, cfg, 7).queues == q[cfg.worker := w][cfg.wait := a]
            && After(t, cfg, 8).queues == q[cfg.worker := w][cfg.wait := a][cfg.failed := PLAIN]
            && After(t, cfg, 9).queues == After(t, cfg, 10).queues == Declared(t, cfg).queues
  {
    assert After(t, cfg, 1) == With(After(t, cfg, 0), Plan(cfg)[0]);
    assert After(t, cfg, 2) == With(After(t, cfg, 1), Plan(cfg)[1]);
    assert After(t, cfg, 3) == With(After(t, cfg, 2), Plan(cfg)[2]);
    assert After(t, cfg, 4) == With(After(t, cfg, 3), Plan(cfg)[3]);
    assert After(t, cfg, 5) == With(After(t, cfg, 4), Plan(cfg)[4]);
    assert After(t, cfg, 6) == With(After(t, cfg, 5), Plan(cfg)[5]);
    assert After(t, cfg, 7) == With(After(t, cfg, 6), Plan(cfg)[6]);
    assert After(t, cfg, 8) == With(After(t, cfg, 7), Plan(cfg)[7]);
    assert After(t, cfg, 9) == With(After(t, cfg, 8), Plan(cfg)[8]);
    assert After(t, cfg, 10) == With(After(t, cfg, 9), Plan(cfg)[9]);
  }

  /** The bindings of a plan are accepted once its exchanges and queues are declared. */
  lemma BindingsAccepted(t: Topo, cfg: Config)
    ensures Accepts(After(t, cfg, 4), Plan(cfg)[4]) && Accepts(After(t, cfg, 6), Plan(cfg)[6])
    ensures Accepts(After(t, cfg, 9), Plan(cfg)[9])
  {
    PlanSteps(t, cfg);
    assert After(t, cfg, 4) == With(After(t, cfg, 3), Plan(cfg)[3]);
    assert After(t, cfg, 6) == With(After(t, cfg, 5), Plan(cfg)[5]);
    assert After(t, cfg, 5) == With(After(t, cfg, 4), Plan(cfg)[4]);
    assert After(t, cfg, 7) == With(After(t, cfg, 6), Plan(cfg)[6]);
    assert After(t, cfg, 8) == With(After(t, cfg, 7), Plan(cfg)[7]);
    assert After(t, cfg, 9) == With(After(t, cfg, 8), Plan(cfg)[8]);
  }

  /** The broker accepts the whole plan exactly if the configuration is acceptable, and then holds what is declared. */
  lemma AcceptableExactly(t: Topo, cfg: Config)
    ensures Acceptable(t, cfg) <==> AllAccepted(t, cfg, |Plan(cfg)|)
    ensures After(t, cfg, |Plan(cfg)|) == Declared(t, cfg)
  {
    PlanSteps(t, cfg);
    BindingsAccepted(t, cfg);
    assert AllAccepted(t, cfg, 10) ==>
        && Accepts(After(t, cfg, 0), Plan(cfg)[0]) && Accepts(After(t, cfg, 1), Plan(cfg)[1])
        && Accepts(After(t, cfg, 2), Plan(cfg)[2]) && Accepts(After(t, cfg, 3), Plan(cfg)[3])
        && Accepts(After(t, cfg, 5), Plan(cfg)[5]) && Accepts(After(t, cfg, 7), Plan(cfg)[7])
        && Accepts(After(t, cfg, 8), Plan(cfg)[8]);
  }

  /** A refused declaration only adds: what the broker held before is still there, with the same arguments. */
  lemma {:induction false} DeclaringOnlyAdds(t: Topo, cfg: Config, n: nat)
    requires n <= |Plan(cfg)| && AllAccepted(t, cfg, n)
    ensures var after := After(t, cfg, n);
            && t.bindings <= after.bindings
            && (forall x :: x in t.exchanges ==> x in after.exchanges && after.exchanges[x] == t.exchanges[x])
            && forall q :: q in t.queues ==> q in after.queues && after.queues[q] == t.queues[q]
  {
    if n > 0 {
      DeclaringOnlyAdds(t, cfg, n - 1);
      assert Accepts(After(t, cfg, n - 1), Plan(cfg)[n - 1]);
    }
  }

  /** What an accepted declaration sets up, name by name; nothing else changes. */
  lemma DeclaredByName(t: Topo, cfg: Config)
    requires Acceptable(t, cfg)
    ensures var d := Declared(t, cfg);
            && d.queues.Keys == t.queues.Keys + {cfg.worker, cfg.wait, cfg.failed, "rss_results_rails"}
            && d.queues[cfg.worker] == QueueArgs(None, Some((cfg.retry, cfg.commandsKey)))
            && d.queues[cfg.wait] == QueueArgs(Some(30000), Some((cfg.commands, cfg.commandsKey)))
            && d.queues[cfg.failed] == d.queues["rss_results_rails"] == QueueArgs(None, None)
            && (forall q :: q in t.queues ==> d.queues[q] == t.queues[q])
    ensures var d := Declared(t, cfg);
            && d.exchanges.Keys == t.exchanges.Keys + {cfg.commands, cfg.retry, cfg.results}
            && d.exchanges[cfg.commands].DurableDirect? && d.exchanges[cfg.retry].DurableDirect?
            && d.exchanges[cfg.results].DurableDirect?
            && (forall x :: x in t.exchanges ==> d.exchanges[x] == t.exchanges[x])
            && forall b :: b in d.bindings <==>
                 || b in t.bindings
                 || b == Binding(cfg.commands, cfg.commandsKey, cfg.worker)
                 || b == Binding(cfg.retry, cfg.commandsKey, cfg.wait)
                 || b == Binding(cfg.results, cfg.resultsKey, "rss_results_rails")
  {
  }

  /** Declaring again after a reconnection is accepted and changes nothing. */
  lemma RedeclareIsIdle(t: Topo, cfg: Config)
    requires Acceptable(t, cfg)
    ensures Acceptable(Declared(t, cfg), cfg) && Declared(Declared(t, cfg), cfg) == Declared(t, cfg)
  {
    var d := Declared(t, cfg);
    assert Declared(d, cfg).queues == d.queues;
    assert Declared(d, cfg).exchanges == d.exchanges;
    assert Declared(d, cfg).bindings == d.bindings;
  }

  /** The names keep the three exchanges apart. */
  predicate Separated(cfg: Config) {
    && cfg.commands != cfg.retry
    && (cfg.results in {cfg.commands, cfg.retry} ==> cfg.resultsKey != cfg.commandsKey)
  }

  /** Every hop of the retry cycle reaches exactly one queue, the intended one. */
  predicate HopsAreExact(cfg: Config) {
    var t := Declared(BARE, cfg);
    && Route(t, cfg.commands, cfg.commandsKey) == {cfg.worker}
    && Route(t, cfg.retry, cfg.commandsKey) == {cfg.wait}
    && Route(t, cfg.results, cfg.resultsKey) == {RESULTS_QUEUE}
    && Route(t, "", cfg.failed) == {cfg.failed}
  }

  /** A configuration the broker accepts gives the intended retry cycle if and only if its exchanges are kept apart. */
  lemma RetryCycleExactly(cfg: Config)
    requires Acceptable(BARE, cfg)
    ensures HopsAreExact(cfg) <==> Separated(cfg)
  {
    var t := Declared(BARE, cfg);
    assert t.bindings == Bindings(cfg);
    var b1, b2, b3 := Binding(cfg.commands, cfg.commandsKey, cfg.worker), Binding(cfg.retry, cfg.commandsKey, cfg.wait),
      Binding(cfg.results, cfg.resultsKey, RESULTS_QUEUE);
    assert b1 in t.bindings && b2 in t.bindings && b3 in t.bindings;
    assert cfg.worker in Route(t, cfg.commands, cfg.commandsKey);
    assert cfg.wait in Route(t, cfg.retry, cfg.commandsKey);
    assert RESULTS_QUEUE in Route(t, cfg.results, cfg.resultsKey);
    assert cfg.failed in t.queues;
  }

  /** The shipped names: commands go to the worker queue, rejected ones wait 30 seconds and come back. */
  lemma ShippedIsSound()
    ensures Acceptable(BARE, SHIPPED) && HopsAreExact(SHIPPED)
    ensures var t := Declared(BARE, SHIPPED);
            && Route(t, "rss_commands", "rss_commands_worker") == {"rss_commands_worker"}
            && t.queues["rss_commands_worker"].deadLetter == Some(("rss_commands_retry", "rss_commands_worker"))
            && Route(t, "rss_commands_retry", "rss_commands_worker") == {"rss_commands_wait_30s"}
            && t.queues["rss_commands_wait_30s"]
              == QueueArgs(Some(30000), Some(("rss_commands", "rss_commands_worker")))
            && Route(t, "", "rss_commands_failed") == {"rss_commands_failed"}
            && Route(t, "rss_results", "rss_results_rails") == {"rss_results_rails"}
  {
    var c := SHIPPED;
    assert |c.commands| == 12 && |c.retry| == 18 && |c.results| == 11;
    assert |c.worker| == 19 && |c.wait| == 21 && c.failed[13] == 'f' && c.worker[13] == 'w' && |RESULTS_QUEUE| == 17;
    RetryCycleExactly(SHIPPED);
    DeclaredByName(BARE, SHIPPED);
  }
}
