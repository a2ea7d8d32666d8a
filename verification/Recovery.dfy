/**
 The self-healing AMQP connection of `rabbitmq.Client`.

 The first part is the client object: one method per critical section of its mutex.
 The second part is the whole protocol: the boot sequence, one disconnect handler per
 dialled session, and the recovery loop, interleaved in any order. The steps of the
 protocol change the client only through the functions that specify its methods.
 */
module Recovery {
  import opened Base

  /** The mutable fields of the client. A session number stands for one dialled
      connection together with the channel opened on it; `signal` is the buffer of
      the recovery channel, whose capacity is one. */
  datatype Fields = Fields(conn: Option<nat>, channel: Option<nat>, closed: bool, signal: bool)

  const FRESH := Fields(None, None, false, false)

  function Dialled(f: Fields, session: nat): Fields {
    f.(conn := Some(session), channel := Some(session))
  }

  function Dropped(f: Fields): Fields {
    f.(conn := None, channel := None)
  }

  function Signalled(f: Fields): Fields {
    f.(signal := true)
  }

  function Shut(f: Fields): Fields {
    Dropped(f).(closed := true)
  }

  /** How an attempt to open a session ends at the broker. */
  datatype Dial = Refused | NoChannel | NoQos | Opened

  class Client {
    var conn: Option<nat>
    var channel: Option<nat>
    var closed: bool
    var signal: bool

    function View(): Fields
      reads this
    {
      Fields(conn, channel, closed, signal)
    }

    constructor ()
      ensures View() == FRESH
    {
      conn, channel, closed, signal := None, None, false, false;
    }

    /** Opens a session under the lock. Every refusal leaves the client untouched. */
    method Connect(session: nat, dial: Dial) returns (r: Result<nat>)
      modifies this
      ensures r == if old(closed) then Err("client already closed")
                   else match dial
                     case Refused => Err("failed to dial rabbitmq")
                     case NoChannel => Err("failed to open channel")
                     case NoQos => Err("failed to set channel QoS")
                     case Opened => Ok(session)
      ensures View() == if r.Ok? then Fields(Some(session), Some(session), false, old(signal)) else old(View())
    {
      if closed {
        return Err("client already closed");
      }
      match dial
      case Refused => return Err("failed to dial rabbitmq");
      case NoChannel => return Err("failed to open channel");
      case NoQos => return Err("failed to set channel QoS");
      case Opened =>
        conn, channel := Some(session), Some(session);
        return Ok(session);
    }

    /** The critical section of a disconnect handler. `notify` tells it to go on to the signal;
        `torn` lists the sessions it closes on the way. */
    method ClearAfterDisconnect() returns (notify: bool, torn: set<nat>)
      modifies this
      ensures notify == !old(closed)
      ensures View() == if notify then Fields(None, None, false, old(signal)) else old(View())
      ensures forall h :: h in torn <==> notify && Some(h) in {old(conn), old(channel)}
    {
      if closed {
        return false, {};
      }
      torn := {};
      if channel.Some? {
        torn := torn + {channel.value};
      }
      if conn.Some? {
        torn := torn + {conn.value};
      }
      channel, conn := None, None;
      notify := true;
    }

    /** The non-blocking send: a full buffer swallows the signal. */
    method TriggerRecovery()
      modifies this
      ensures View() == Fields(old(conn), old(channel), old(closed), true)
    {
      if !signal {
        signal := true;
      }
    }

    method Channel() returns (r: Result<nat>)
      ensures r.Ok? <==> channel.Some?
      ensures r.Ok? ==> Some(r.value) == channel
    {
      if channel.None? {
        return Err("rabbitmq channel is not established");
      }
      return Ok(channel.value);
    }

    method Close() returns (torn: set<nat>)
      modifies this
      ensures View() == Fields(None, None, true, old(signal))
      ensures forall h :: h in torn <==> Some(h) in {old(conn), old(channel)}
    {
      closed := true;
      torn := {};
      if channel.Some? {
        torn := torn + {channel.value};
      }
      if conn.Some? {
        torn := torn + {conn.value};
      }
      channel, conn := None, None;
    }
  }

  /** The sessions the client's fields still hold. */
  function Sessions(f: Fields): set<nat> {
    (if f.conn.Some? then {f.conn.value} else {}) + (if f.channel.Some? then {f.channel.value} else {})
  }

  /******* Exponential backoff *******/

  const MAX_BACKOFF := 60

  function MinDuration(a: nat, b: nat): nat {
    if a < b then a else b
  }

  function Pow2(k: nat): (p: nat)
    ensures p >= 1
  {
    if k == 0 then 1 else 2 * Pow2(k - 1)
  }

  /** The delay after `k` consecutive failed rounds: doubling from one second, capped. */
  function Delay(k: nat): (d: nat)
    ensures 1 <= d <= MAX_BACKOFF
  {
    MinDuration(Pow2(k), MAX_BACKOFF)
  }

  /** Doubling and capping the current delay is the same as capping the next power of two. */
  lemma DelayStep(k: nat)
    ensures MinDuration(2 * Delay(k), MAX_BACKOFF) == Delay(k + 1)
  {
    assert Pow2(k + 1) == 2 * Pow2(k);
  }

  /******* The protocol *******/

  datatype Main =
    | Booting
    | Triggering     // the first dial failed
    | BootReading    // connected, about to read Channel()
    | BootDeclaring  // connected, declaring the topology
    | Starting       // about to start the loop
    | Running
    | Exited         // the first declaration was refused

  datatype Loop =
    | Unstarted
    | Waiting      // blocked on the recovery channel
    | Dialling     // holds the signal, about to call Connect
    | Sleeping     // between two rounds
    | Callback     // connected, about to read Channel() in the callback
    | Declaring    // connected, declaring the topology
    | Closing      // the callback failed, about to call Close
    | Stopped      // its context was cancelled

  /** `up` are the sessions open at the broker, `watching` the handlers blocked on a close
      notification, `sending` those between their critical section and their signal.
      `streak` counts failed rounds since the last successful dial, `rounds` all of them,
      `slept` the seconds slept. */
  datatype System = System(
    f: Fields,
    up: set<nat>,
    next: nat,
    watching: set<nat>,
    sending: set<nat>,
    main: Main,
    loop: Loop,
    backoff: nat,
    streak: nat,
    rounds: nat,
    slept: nat
  )

  const BOOT := System(FRESH, {}, 0, {}, {}, Booting, Unstarted, 1, 0, 0, 0)

  datatype Step =
    | BootConnect(ok: bool)
    | BootTrigger
    | BootChannel
    | BootDeclare(ok: bool)
    | StartLoop
    | BrokerDrop(session: nat)
    | HandlerClear(session: nat)
    | HandlerSignal(session: nat)
    | LoopReceive
    | LoopConnect(ok: bool)
    | LoopWake
    | CallbackChannel
    | CallbackDeclare(ok: bool)
    | LoopClose
    | LoopCancel

  /** The session in the client's fields is open at the broker. */
  predicate Live(s: System) {
    s.f.channel.Some? && s.f.channel.value in s.up
  }

  /** A declaration can only succeed on a live session: a closed channel refuses it. A drop after the broker's last
      reply is a later step. */
  predicate Enabled(s: System, e: Step) {
    !s.main.Exited? &&
    match e
    case BootConnect(ok) => s.main.Booting?
    case BootTrigger => s.main.Triggering?
    case BootChannel => s.main.BootReading?
    case BootDeclare(ok) => s.main.BootDeclaring? && (ok ==> Live(s))
    case StartLoop => s.main.Starting?
    case BrokerDrop(h) => h in s.up
    case HandlerClear(h) => h in s.watching && h !in s.up
    case HandlerSignal(h) => h in s.sending
    case LoopReceive => s.loop.Waiting? && s.f.signal
    case LoopConnect(ok) => s.loop.Dialling? && (ok ==> !s.f.closed)
    case LoopWake => s.loop.Sleeping?
    case CallbackChannel => s.loop.Callback?
    case CallbackDeclare(ok) => s.loop.Declaring? && (ok ==> Live(s))
    case LoopClose => s.loop.Closing?
    case LoopCancel => s.loop.Waiting? || s.loop.Dialling?
  }

  /** A successful Connect: a fresh session is open and has its own handler. */
  function Connected(s: System): System {
    s.(f := Dialled(s.f, s.next), up := s.up + {s.next}, watching := s.watching + {s.next}, next := s.next + 1)
  }

  /** A failed round: sleep for the current delay, then double it. */
  function FailRound(s: System): System {
    s.(loop := Sleeping,
       slept := s.slept + s.backoff,
       rounds := s.rounds + 1,
       streak := s.streak + 1,
       backoff := MinDuration(2 * s.backoff, MAX_BACKOFF))
  }

  /** The critical section of the handler of session `h`; on an open client it goes on to the signal. */
  function Cleared(s: System, h: nat): System {
    if s.f.closed then s.(watching := s.watching - {h})
    else s.(f := Dropped(s.f), up := s.up - Sessions(s.f), watching := s.watching - {h}, sending := s.sending + {h})
  }

  function Apply(s: System, e: Step): System
    requires Enabled(s, e)
  {
    if e.BootConnect? then
      if e.ok then Connected(s).(main := BootReading) else s.(main := Triggering)
    else if e.BootTrigger? then s.(f := Signalled(s.f), main := Starting)
    else if e.BootChannel? then s.(main := if s.f.channel.Some? then BootDeclaring else Starting)
    else if e.BootDeclare? then
      if e.ok then s.(main := Starting) else s.(main := Exited, up := {})
    else if e.StartLoop? then s.(main := Running, loop := Waiting)
    else if e.BrokerDrop? then s.(up := s.up - {e.session})
    else if e.HandlerClear? then Cleared(s, e.session)
    else if e.HandlerSignal? then s.(f := Signalled(s.f), sending := s.sending - {e.session})
    else if e.LoopReceive? then s.(f := s.f.(signal := false), loop := Dialling)
    else if e.LoopConnect? then
      if e.ok then Connected(s).(loop := Callback, backoff := 1, streak := 0) else FailRound(s)
    else if e.LoopWake? then s.(loop := Dialling)
    else if e.CallbackChannel? then s.(loop := if s.f.channel.Some? then Declaring else Closing)
    else if e.CallbackDeclare? then s.(loop := if e.ok then Waiting else Closing)
    else if e.LoopClose? then FailRound(s.(f := Shut(s.f), up := s.up - Sessions(s.f)))
    else s.(loop := Stopped)
  }

  predicate Legal(s: System, es: seq<Step>)
    decreases |es|
  {
    es == [] || (Enabled(s, es[0]) && Legal(Apply(s, es[0]), es[1..]))
  }

  function Final(s: System, es: seq<Step>): System
    requires Legal(s, es)
    decreases |es|
  {
    if es == [] then s else Final(Apply(s, es[0]), es[1..])
  }

  ghost predicate Reachable(s: System) {
    exists es :: Legal(BOOT, es) && Final(BOOT, es) == s
  }

  /** Everything that stands for "somebody still owes a dial": the boot sequence before its
      trigger, a handler before its signal, the buffered signal, or the loop on its way to Connect. */
  function Tokens(s: System): nat {
    (if s.main.Booting? || s.main.Triggering? then 1 else 0)
    + |s.sending|
    + (if s.f.signal then 1 else 0)
    + (if s.loop.Dialling? || s.loop.Sleeping? then 1 else 0)
  }

  /** While the client is open: a live channel has exactly its own handler and nobody owes a dial;
      without one there is no handler and no open session, and exactly one dial is owed (unless the loop was stopped,
      when it may be lost). */
  predicate TokenInv(s: System) {
    && (s.f.channel.Some? ==> s.watching == {s.f.channel.value} && Tokens(s) == 0)
    && (s.f.channel.None? ==> s.watching == {} && (if s.loop.Stopped? then Tokens(s) <= 1 else Tokens(s) == 1))
  }

  /** Only the watched sessions are open, handlers never share a session, and closing is final. */
  predicate Wired(s: System) {
    && s.f.conn == s.f.channel
    && (forall h :: h in s.watching ==> h < s.next)
    && (forall h :: h in s.sending ==> h < s.next)
    && s.up <= s.watching
    && s.watching !! s.sending
    && (s.loop.Unstarted? <==> !s.main.Running?)
    && (s.f.closed ==> s.f.channel.None? && s.up == {} && s.main.Running?)
    && (s.main.Exited? ==> s.up == {})
  }

  /** The loop's delay is a function of its failed rounds, and is back to one second whenever it waits. */
  predicate Paced(s: System) {
    && s.backoff == Delay(s.streak)
    && (s.loop.Unstarted? || s.loop.Waiting? || s.loop.Callback? || s.loop.Declaring? || s.loop.Closing? ==>
      s.streak == 0)
    && s.rounds <= s.slept <= MAX_BACKOFF * s.rounds
  }

  predicate Inv(s: System) {
    Wired(s) && (!s.f.closed ==> TokenInv(s)) && Paced(s)
  }

  lemma StepKeepsPace(s: System, e: Step)
    requires Wired(s) && Paced(s) && Enabled(s, e)
    ensures Paced(Apply(s, e))
  {
    DelayStep(s.streak);
    assert Pow2(0) == 1 && Delay(0) == 1;
  }

  lemma StepKeepsWiring(s: System, e: Step)
    requires Wired(s) && (!s.f.closed ==> TokenInv(s)) && Enabled(s, e)
    ensures Wired(Apply(s, e))
  {
  }

  lemma ClearKeepsToken(s: System, h: nat)
    requires Wired(s) && !s.f.closed && TokenInv(s) && h in s.watching && h !in s.up
    ensures TokenInv(Cleared(s, h))
  {
    assert |s.sending + {h}| == |s.sending| + 1;
  }

  lemma SignalKeepsToken(s: System, h: nat)
    requires Wired(s) && !s.f.closed && TokenInv(s) && h in s.sending
    ensures TokenInv(s.(f := Signalled(s.f), sending := s.sending - {h}))
  {
    assert |s.sending - {h}| == |s.sending| - 1;
  }

  lemma ConnectKeepsToken(s: System, e: Step)
    requires Wired(s) && !s.f.closed && TokenInv(s) && Enabled(s, e) && (e.BootConnect? || e.LoopConnect?)
    ensures TokenInv(Apply(s, e))
  {
    assert s.f.channel.None? && s.watching == {};
    assert Connected(s).watching == {s.next};
  }

  lemma OtherKeepsToken(s: System, e: Step)
    requires Wired(s) && !s.f.closed && TokenInv(s) && Enabled(s, e)
    requires !e.HandlerClear? && !e.HandlerSignal? && !e.BootConnect? && !e.LoopConnect? && !e.LoopClose?
    ensures TokenInv(Apply(s, e))
  {
    var t := Apply(s, e);
    assert t.sending == s.sending && t.watching == s.watching && t.f.channel == s.f.channel;
  }

  lemma StepKeepsToken(s: System, e: Step)
    requires Wired(s) && !s.f.closed && TokenInv(s) && Enabled(s, e)
    ensures !Apply(s, e).f.closed ==> TokenInv(Apply(s, e))
  {
    if e.HandlerClear? {
      ClearKeepsToken(s, e.session);
    } else if e.HandlerSignal? {
      SignalKeepsToken(s, e.session);
    } else if e.BootConnect? || e.LoopConnect? {
      ConnectKeepsToken(s, e);
    } else if !e.LoopClose? {
      OtherKeepsToken(s, e);
    }
  }

  lemma StepKeepsInv(s: System, e: Step)
    requires Inv(s) && Enabled(s, e)
    ensures Inv(Apply(s, e))
  {
    StepKeepsWiring(s, e);
    StepKeepsPace(s, e);
    if !s.f.closed {
      StepKeepsToken(s, e);
    } else {
      assert Apply(s, e).f.closed;
    }
  }

  lemma {:induction false} RunKeepsInv(s: System, es: seq<Step>)
    requires Inv(s) && Legal(s, es)
    ensures Inv(Final(s, es))
    decreases |es|
  {
    if es != [] {
      StepKeepsInv(s, es[0]);
      RunKeepsInv(Apply(s, es[0]), es[1..]);
    }
  }

  lemma StartsWell()
    ensures Inv(BOOT)
  {
    assert Pow2(0) == 1 && Delay(0) == 1;
  }

  lemma ReachableInv(s: System)
    requires Reachable(s)
    ensures Inv(s)
  {
    var es :| Legal(BOOT, es) && Final(BOOT, es) == s;
    StartsWell();
    RunKeepsInv(BOOT, es);
  }

  /******* What the invariant gives every reachable state *******/

  /** At most one session is ever open, and it is the one in the client's fields: no dial leaks or overwrites a
      live one. */
  lemma OneSession(s: System)
    requires Reachable(s)
    ensures s.up <= Sessions(s.f) && |s.up| <= 1
    ensures forall e :: Enabled(s, e) && (e == LoopConnect(true) || e == BootConnect(true)) ==>
              s.f.channel.None? && s.up == {} && s.watching == {}
  {
    ReachableInv(s);
    if h :| h in s.up {
      assert s.f.channel == Some(h) && s.up == {h};
    }
  }

  /** While the client is open exactly one party owes a dial when there is no channel, and none when there is;
      a stopped loop is the only way to lose it. */
  lemma SingleToken(s: System)
    requires Reachable(s) && !s.f.closed
    ensures s.f.channel.Some? ==> s.watching == {s.f.channel.value} && Tokens(s) == 0
    ensures s.f.channel.None? ==> s.watching == {} && Tokens(s) <= 1 && (!s.loop.Stopped? ==> Tokens(s) == 1)
  {
    ReachableInv(s);
  }

  /** A signal sent while the client is open is never swallowed by a full buffer. */
  lemma NoLostSignal(s: System, e: Step)
    requires Reachable(s) && Enabled(s, e) && (e.HandlerSignal? || e.BootTrigger?) && !s.f.closed
    ensures !s.f.signal && s.f.channel.None?
  {
    ReachableInv(s);
    if e.HandlerSignal? {
      assert e.session in s.sending && |s.sending - {e.session}| == |s.sending| - 1;
    }
  }

  /** A handler that clears the client's fields clears the session it was watching, never a newer one. */
  lemma HandlerClearsItsOwn(s: System, h: nat)
    requires Reachable(s) && Enabled(s, HandlerClear(h)) && !s.f.closed
    ensures Sessions(s.f) == {h} && Apply(s, HandlerClear(h)).up == {}
  {
    ReachableInv(s);
    assert s.watching == {s.f.channel.value};
  }

  /** The backoff in closed form, along every run. */
  lemma BackoffBounds(s: System)
    requires Reachable(s)
    ensures 1 <= s.backoff <= 60 && s.backoff == if Pow2(s.streak) < 60 then Pow2(s.streak) else 60
    ensures s.loop.Waiting? ==> s.backoff == 1
    ensures s.rounds <= s.slept <= 60 * s.rounds
  {
    ReachableInv(s);
    assert Pow2(0) == 1;
  }

  /** The seconds a run sleeps, from the outcomes of its rounds alone: the k-th failure in a row costs two to the k, at
      most sixty, and a successful dial starts again at one. */
  function Sleeps(es: seq<Step>, k: nat): nat {
    if es == [] then 0
    else if es[0].LoopClose? || es[0] == LoopConnect(false) then
      (if Pow2(k) < 60 then Pow2(k) else 60) + Sleeps(es[1..], k + 1)
    else if es[0] == LoopConnect(true) then Sleeps(es[1..], 0)
    else Sleeps(es[1..], k)
  }

  lemma {:induction false} SleepsFrom(s: System, es: seq<Step>)
    requires Inv(s) && Legal(s, es)
    ensures Final(s, es).slept == s.slept + Sleeps(es, s.streak)
    decreases |es|
  {
    if es != [] {
      StepKeepsInv(s, es[0]);
      SleepsFrom(Apply(s, es[0]), es[1..]);
    }
  }

  /** How long a run has slept; the delays are 1, 2, 4, 8, 16, 32 and then 60 seconds. */
  lemma SleepsExactly(es: seq<Step>)
    requires Legal(BOOT, es)
    ensures Final(BOOT, es).slept == Sleeps(es, 0)
    ensures Delay(0) == 1 && Delay(1) == 2 && Delay(2) == 4 && Delay(3) == 8 && Delay(4) == 16 && Delay(5) == 32
    ensures forall k :: k >= 6 ==> Delay(k) == 60
  {
    StartsWell();
    SleepsFrom(BOOT, es);
    assert Pow2(1) == 2 * Pow2(0) && Pow2(2) == 2 * Pow2(1) && Pow2(3) == 2 * Pow2(2);
    assert Pow2(4) == 2 * Pow2(3) && Pow2(5) == 2 * Pow2(4) && Pow2(6) == 2 * Pow2(5);
    forall k | k >= 6
      ensures Delay(k) == 60
    {
      AtLeast64(k);
    }
  }

  lemma {:induction false} AtLeast64(k: nat)
    requires k >= 6
    ensures Pow2(k) >= 64
  {
    if k == 6 {
      assert Pow2(6) == 2 * Pow2(5) == 4 * Pow2(4) == 8 * Pow2(3);
      assert Pow2(3) == 2 * Pow2(2) == 4 * Pow2(1) == 8 * Pow2(0);
    } else {
      AtLeast64(k - 1);
    }
  }

  /******* The machine drives the object *******/

  /** One step of the protocol, taken on the object: its fields become those of the next state, and what the step finds
      out and closes is what the machine goes on with. A failed dial may fail in any way. */
  method Take(client: Client, s: System, e: Step, failure: Dial) returns (found: bool, torn: set<nat>)
    requires client.View() == s.f && Inv(s) && Enabled(s, e) && !failure.Opened?
    modifies client
    ensures var t := Apply(s, e);
            && client.View() == t.f
            && (e.BootConnect? || e.LoopConnect? ==> found == e.ok && t.up == if found then s.up + {s.next} else s.up)
            && (e.BootChannel? ==> t.main == if found then BootDeclaring else Starting)
            && (e.CallbackChannel? ==> t.loop == if found then Declaring else Closing)
            && (e.HandlerClear? ==> t.sending == (if found then s.sending + {e.session} else s.sending)
                                    && t.up == s.up - torn)
            && (e.LoopClose? ==> t.up == s.up - torn)
  {
    found, torn := false, {};
    match e
    case BootConnect(ok) => found := DialAs(client, s.next, if ok then Opened else failure);
    case LoopConnect(ok) => found := DialAs(client, s.next, if ok then Opened else failure);
    case BootTrigger => client.TriggerRecovery();
    case HandlerSignal(_) => client.TriggerRecovery();
    case HandlerClear(_) => found, torn := client.ClearAfterDisconnect();
    case LoopReceive => client.signal := false;
    case LoopClose => torn := client.Close();
    case BootChannel => found := HasChannel(client);
    case CallbackChannel => found := HasChannel(client);
    case _ =>
  }

  method DialAs(client: Client, session: nat, dial: Dial) returns (ok: bool)
    modifies client
    ensures ok <==> !old(client.closed) && dial.Opened?
    ensures client.View() == if ok then Dialled(old(client.View()), session) else old(client.View())
  {
    var r := client.Connect(session, dial);
    ok := r.Ok?;
  }

  method HasChannel(client: Client) returns (ok: bool)
    ensures ok <==> client.channel.Some?
  {
    var r := client.Channel();
    ok := r.Ok?;
  }

  /** Every run of the protocol is a run of the object's methods. */
  method Follow(client: Client, es: seq<Step>, failure: Dial)
    requires client.View() == FRESH && Legal(BOOT, es) && !failure.Opened?
    modifies client
    ensures client.View() == Final(BOOT, es).f
  {
    var s := BOOT;
    StartsWell();
    for i := 0 to |es|
      invariant Inv(s) && client.View() == s.f
      invariant Legal(s, es[i..]) && Final(s, es[i..]) == Final(BOOT, es)
    {
      assert es[i..][0] == es[i] && es[i..][1..] == es[i + 1..];
      StepKeepsInv(s, es[i]);
      var found, torn := Take(client, s, es[i], failure);
      s := Apply(s, es[i]);
    }
  }

  /******* When recovery is still possible *******/

  /** The process will never get another session: it exited, it is closed, its loop stopped, or it is about to find
      out that the session it has just dialled is gone, which makes it close the client, or exit at boot. */
  predicate Doomed(s: System) {
    && !Live(s)
    && (s.f.closed || s.main.Exited? || s.main.BootDeclaring?
        || s.loop.Stopped? || s.loop.Callback? || s.loop.Declaring? || s.loop.Closing?)
  }

  lemma DoomedStays(s: System, e: Step)
    requires Inv(s) && Doomed(s) && Enabled(s, e)
    ensures Doomed(Apply(s, e))
  {
  }

  lemma {:induction false} DoomedForever(s: System, es: seq<Step>)
    requires Inv(s) && Doomed(s) && Legal(s, es)
    ensures Doomed(Final(s, es))
    decreases |es|
  {
    if es != [] {
      DoomedStays(s, es[0]);
      StepKeepsInv(s, es[0]);
      DoomedForever(Apply(s, es[0]), es[1..]);
    }
  }

  /** The service is back: the session is live, the topology is declared on it, and the loop waits for the next drop. */
  predicate Ready(s: System) {
    Live(s) && s.loop.Waiting?
  }

  /** The loop will never wait again on a live session: also when a refused declaration is about to close a live one. */
  predicate Hopeless(s: System) {
    || s.f.closed || s.main.Exited? || s.loop.Stopped? || s.loop.Closing?
    || (!Live(s) && (s.main.BootDeclaring? || s.loop.Callback? || s.loop.Declaring?))
  }

  lemma HopelessStays(s: System, e: Step)
    requires Inv(s) && Hopeless(s) && Enabled(s, e)
    ensures Hopeless(Apply(s, e))
  {
  }

  lemma {:induction false} HopelessForever(s: System, es: seq<Step>)
    requires Inv(s) && Hopeless(s) && Legal(s, es)
    ensures Hopeless(Final(s, es))
    decreases |es|
  {
    if es != [] {
      HopelessStays(s, es[0]);
      StepKeepsInv(s, es[0]);
      HopelessForever(Apply(s, es[0]), es[1..]);
    }
  }

  function BootDistance(m: Main): nat {
    if m.Booting? then 20
    else if m.Triggering? then 19
    else if m.BootReading? then 18
    else if m.BootDeclaring? then 17
    else if m.Starting? then 16
    else 0
  }

  function LoopDistance(l: Loop): nat {
    if l.Unstarted? || l.Waiting? then 6
    else if l.Sleeping? then 5
    else if l.Dialling? then 4
    else if l.Callback? then 2
    else 1
  }

  /** How far the service is from being ready: each step of the way back lowers it. */
  function Distance(s: System): nat {
    |s.sending| + (if s.f.channel.Some? && !Live(s) then 2 else 0) + BootDistance(s.main) + LoopDistance(s.loop)
  }

  function BootOnward(s: System): Step {
    if s.main.Booting? then BootConnect(true)
    else if s.main.Triggering? then BootTrigger
    else if s.main.BootReading? then BootChannel
    else if s.main.BootDeclaring? then BootDeclare(true)
    else StartLoop
  }

  function LoopOnward(s: System): Step {
    if s.loop.Waiting? then LoopReceive
    else if s.loop.Dialling? then LoopConnect(true)
    else if s.loop.Sleeping? then LoopWake
    else if s.loop.Callback? then CallbackChannel
    else CallbackDeclare(true)
  }

  /** The next step towards being ready. */
  ghost function Onward(s: System): Step {
    if s.f.channel.Some? && !Live(s) then HandlerClear(s.f.channel.value)
    else if s.sending != {} then (var h :| h in s.sending; HandlerSignal(h))
    else if s.main.Running? then LoopOnward(s)
    else BootOnward(s)
  }

  lemma ClearAdvances(s: System)
    requires Inv(s) && !Hopeless(s) && s.f.channel.Some? && !Live(s)
    ensures var e := HandlerClear(s.f.channel.value);
            Enabled(s, e) && !Hopeless(Apply(s, e)) && Distance(Apply(s, e)) < Distance(s)
  {
    var h := s.f.channel.value;
    assert s.watching == {h} && s.sending == {};
    assert |s.sending + {h}| == |s.sending| + 1;
  }

  lemma SignalAdvances(s: System, h: nat)
    requires Inv(s) && !Hopeless(s) && h in s.sending
    ensures Enabled(s, HandlerSignal(h)) && !Hopeless(Apply(s, HandlerSignal(h)))
        && Distance(Apply(s, HandlerSignal(h))) < Distance(s)
  {
    assert |s.sending - {h}| == |s.sending| - 1;
    assert !Live(s);
  }

  /** What a successful dial gives. */
  lemma ConnectedIsLive(s: System)
    ensures Live(Connected(s)) && Connected(s).sending == s.sending
  {
  }

  lemma BootAdvances(s: System)
    requires !Hopeless(s) && !s.main.Running? && s.loop.Unstarted? && (s.f.channel.Some? ==> Live(s))
    ensures Enabled(s, BootOnward(s)) && !Hopeless(Apply(s, BootOnward(s)))
    ensures Distance(Apply(s, BootOnward(s))) < Distance(s)
  {
    var t := Apply(s, BootOnward(s));
    if s.main.Booting? {
      ConnectedIsLive(s);
      assert t == Connected(s).(main := BootReading);
    } else if s.main.Triggering? {
      assert t == s.(f := Signalled(s.f), main := Starting);
    } else {
      assert t.f == s.f && t.up == s.up && t.sending == s.sending;
    }
  }

  lemma LoopAdvances(s: System)
    requires !Hopeless(s) && !Ready(s) && s.main.Running? && !s.loop.Unstarted? && (s.f.channel.Some? ==> Live(s))
    requires s.loop.Waiting? ==> s.f.signal
    ensures Enabled(s, LoopOnward(s)) && !Hopeless(Apply(s, LoopOnward(s)))
    ensures Ready(Apply(s, LoopOnward(s))) || Distance(Apply(s, LoopOnward(s))) < Distance(s)
  {
    var t := Apply(s, LoopOnward(s));
    if s.loop.Dialling? {
      ConnectedIsLive(s);
      assert t == Connected(s).(loop := Callback, backoff := 1, streak := 0);
    } else if s.loop.Waiting? {
      assert t == s.(f := s.f.(signal := false), loop := Dialling);
    } else {
      assert t.f == s.f && t.up == s.up && t.sending == s.sending && t.main == s.main;
    }
  }

  lemma OnwardAdvances(s: System)
    requires Inv(s) && !Hopeless(s) && !Ready(s)
    ensures Enabled(s, Onward(s))
    ensures var t := Apply(s, Onward(s)); Inv(t) && !Hopeless(t) && (Ready(t) || Distance(t) < Distance(s))
  {
    if s.f.channel.Some? && !Live(s) {
      ClearAdvances(s);
    } else if s.sending != {} {
      SignalAdvances(s, Onward(s).session);
    } else if s.main.Running? {
      assert |s.sending| == 0;
      LoopAdvances(s);
    } else {
      BootAdvances(s);
    }
    StepKeepsInv(s, Onward(s));
  }

  lemma {:induction false} WayBack(s: System) returns (es: seq<Step>)
    requires Inv(s) && !Hopeless(s)
    ensures Legal(s, es) && Ready(Final(s, es))
    decreases if Ready(s) then 0 else 1 + Distance(s)
  {
    if Ready(s) {
      es := [];
    } else {
      OnwardAdvances(s);
      var e := Onward(s);
      var rest := WayBack(Apply(s, e));
      es := [e] + rest;
      assert es[1..] == rest;
    }
  }

  ghost predicate CanBeLive(s: System) {
    exists es :: Legal(s, es) && Live(Final(s, es))
  }

  ghost predicate CanBeReady(s: System) {
    exists es :: Legal(s, es) && Ready(Final(s, es))
  }

  /** A live session is there or can be had again exactly when the process is not doomed. In particular a
      connection that drops at any moment between a dial and the last reply to the declarations that follow it is
      the last one. */
  lemma RecoverableExactly(s: System)
    requires Reachable(s)
    ensures CanBeLive(s) <==> !Doomed(s)
  {
    ReachableInv(s);
    if Doomed(s) {
      forall es | Legal(s, es)
        ensures !Live(Final(s, es))
      {
        DoomedForever(s, es);
      }
    } else if Live(s) {
      assert Legal(s, []) && Live(Final(s, []));
    } else {
      var es := WayBack(s);
    }
  }

  /** The service can be ready, now or later, exactly when it is not hopeless. */
  lemma ReadyExactly(s: System)
    requires Reachable(s)
    ensures CanBeReady(s) <==> !Hopeless(s)
  {
    ReachableInv(s);
    if Hopeless(s) {
      NeverReady(s);
    } else {
      var es := WayBack(s);
    }
  }

  /******* When recovery does succeed *******/

  /** A step that is no fault: no session drops, no dial or declaration fails, and the loop is not cancelled. */
  predicate Calm(e: Step) {
    && !e.BrokerDrop? && !e.LoopCancel?
    && (e.BootConnect? || e.BootDeclare? || e.LoopConnect? || e.CallbackDeclare? ==> e.ok)
  }

  /** The service gets ready without further faults, whoever moves first: it is not hopeless, and the boot sequence
      is not about to declare the topology on a session that its handler has not cleared yet. */
  predicate Coming(s: System) {
    Inv(s) && !Hopeless(s) && !(s.main.BootReading? && s.f.channel.Some? && !Live(s))
  }

  /** How many calm steps there can be until the service is ready. */
  function Remaining(s: System): nat {
    if Ready(s) then 0 else 1 + Distance(s)
  }

  /** The calm steps of a coming service: its handler's, or the next one of boot or loop. */
  lemma CalmSteps(s: System, e: Step)
    requires Coming(s) && Enabled(s, e) && Calm(e)
    ensures !Ready(s)
    ensures || e == BootOnward(s) || e == LoopOnward(s)
            || (e.HandlerSignal? && e.session in s.sending)
            || (s.f.channel.Some? && !Live(s) && e == HandlerClear(s.f.channel.value))
  {
    if e.HandlerClear? {
      assert e.session in s.watching && s.watching == {s.f.channel.value};
    }
  }

  /** Starting the loop does not depend on the session. */
  lemma StartAdvances(s: System)
    requires !Hopeless(s) && s.main.Starting? && s.loop.Unstarted?
    ensures Enabled(s, StartLoop) && !Hopeless(Apply(s, StartLoop)) && Distance(Apply(s, StartLoop)) < Distance(s)
  {
    var t := Apply(s, StartLoop);
    assert t.f == s.f && t.up == s.up && t.sending == s.sending;
  }

  lemma CalmAdvances(s: System, e: Step)
    requires Coming(s) && Enabled(s, e) && Calm(e)
    ensures Coming(Apply(s, e)) && Remaining(Apply(s, e)) < Remaining(s)
  {
    CalmSteps(s, e);
    StepKeepsInv(s, e);
    if e.HandlerClear? {
      ClearAdvances(s);
    } else if e.HandlerSignal? {
      SignalAdvances(s, e.session);
    } else if e.StartLoop? {
      StartAdvances(s);
    } else if s.main.Running? {
      LoopAdvances(s);
    } else {
      BootAdvances(s);
    }
  }

  ghost predicate CalmRun(s: System, es: seq<Step>) {
    Legal(s, es) && forall e :: e in es ==> Calm(e)
  }

  /** No calm step is left. */
  ghost predicate Settled(s: System) {
    forall e :: Enabled(s, e) ==> !Calm(e)
  }

  lemma SettledExactly(s: System)
    requires Coming(s)
    ensures Settled(s) <==> Ready(s)
  {
    if Ready(s) {
      forall e | Enabled(s, e)
        ensures !Calm(e)
      {
        if Calm(e) {
          CalmSteps(s, e);
        }
      }
    } else {
      OnwardAdvances(s);
      assert Calm(Onward(s));
    }
  }

  /** Recovery ends in success: every calm run of a coming service is bounded, stays coming, and can only stop ready. */
  lemma {:induction false} CalmRunsGetReady(s: System, es: seq<Step>)
    requires Coming(s) && CalmRun(s, es)
    ensures |es| + Remaining(Final(s, es)) <= Remaining(s)
    ensures Coming(Final(s, es)) && (Settled(Final(s, es)) <==> Ready(Final(s, es)))
    decreases |es|
  {
    if es == [] {
      SettledExactly(s);
    } else {
      assert es[0] in es;
      CalmAdvances(s, es[0]);
      CalmRunsGetReady(Apply(s, es[0]), es[1..]);
    }
  }

  /** No calm run ever loses the possibility of getting ready. */
  ghost predicate Recovers(s: System) {
    forall es :: CalmRun(s, es) ==> CanBeReady(Final(s, es))
  }

  /** The service recovers, in whatever order boot, handlers and loop move, exactly when it is coming. Otherwise
      some calm run leads to a state from which no run at all, calm or not, makes it ready. */
  lemma RecoversExactly(s: System)
    requires Reachable(s)
    ensures Recovers(s) <==> Coming(s)
  {
    ReachableInv(s);
    if Coming(s) {
      forall es | CalmRun(s, es)
        ensures CanBeReady(Final(s, es))
      {
        CalmRunsGetReady(s, es);
        var more := WayBack(Final(s, es));
      }
    } else if Hopeless(s) {
      NeverReady(s);
      assert CalmRun(s, []) && Final(s, []) == s;
    } else {
      var t := Apply(s, BootChannel);
      var es := [BootChannel];
      assert es[1..] == [] && Legal(t, es[1..]);
      assert CalmRun(s, es) && Final(s, es) == t;
      StepKeepsInv(s, BootChannel);
      NeverReady(t);
    }
  }

  lemma NeverReady(s: System)
    requires Inv(s) && Hopeless(s)
    ensures !CanBeReady(s)
  {
    forall es | Legal(s, es)
      ensures !Ready(Final(s, es))
    {
      HopelessForever(s, es);
      RunKeepsInv(s, es);
    }
  }

  /** A drop between the first dial and the reading of its channel starts a race: the service can still get ready,
      and without any further fault it can also end. */
  lemma DropAtBootRaces() returns (s: System)
    ensures Reachable(s) && CanBeReady(s) && !Recovers(s)
  {
    var es := [BootConnect(true)];
    assert es[1..] == [];
    Then(BOOT, es, BrokerDrop(0));
    es := es + [BrokerDrop(0)];
    s := Final(BOOT, es);
    assert Reachable(s);
    ReachableInv(s);
    var back := WayBack(s);
    RecoversExactly(s);
  }

  /** The callback runs on a session that is gone, or has failed. */
  predicate Condemned(s: System) {
    s.f.closed || s.loop.Closing? || (!Live(s) && (s.loop.Callback? || s.loop.Declaring?))
  }

  lemma {:induction false} CondemnedForever(s: System, es: seq<Step>)
    requires Inv(s) && Condemned(s) && Legal(s, es)
    ensures Condemned(Final(s, es))
    decreases |es|
  {
    if es != [] {
      StepKeepsInv(s, es[0]);
      CondemnedForever(Apply(s, es[0]), es[1..]);
    }
  }

  /** A drop before the last declaration reply is fatal: however the run goes on, the loop leaves the callback only
      by closing the client for good. */
  lemma DropBeforeDeclarationIsFatal(s: System, es: seq<Step>)
    requires Reachable(s) && !Live(s) && (s.loop.Callback? || s.loop.Declaring?) && Legal(s, es)
    ensures var t := Final(s, es);
            t.f.closed || t.loop.Callback? || t.loop.Declaring? || t.loop.Closing?
  {
    ReachableInv(s);
    CondemnedForever(s, es);
  }

  /** Closing is final: after it no run has a channel or an open session again, nobody dials a new one, and no handler
      signals any more; only the loop, unless it is cancelled, goes on dialling in vain and sleeping. */
  lemma ClosedIsFinal(s: System, es: seq<Step>)
    requires Reachable(s) && s.f.closed && Legal(s, es)
    ensures var t := Final(s, es);
            && t.f.closed && t.f.channel.None? && t.up == {}
            && t.next == s.next && t.watching <= s.watching && t.sending <= s.sending
            && (t.loop.Dialling? || t.loop.Sleeping? || t.loop.Stopped?)
            && (t.loop.Stopped? ==> s.loop.Stopped? || LoopCancel in es)
  {
    var past :| Legal(BOOT, past) && Final(BOOT, past) == s;
    StartsWell();
    ReachableInv(s);
    RunKeepsInv(s, es);
    ClosedLoops(BOOT, past);
    StaysClosed(s, es);
  }

  /** A closed client's loop is between two dials, or stopped. */
  predicate Vain(s: System) {
    s.f.closed ==> s.loop.Dialling? || s.loop.Sleeping? || s.loop.Stopped?
  }

  lemma {:induction false} ClosedLoops(s: System, es: seq<Step>)
    requires Inv(s) && Vain(s) && Legal(s, es)
    ensures Vain(Final(s, es))
    decreases |es|
  {
    if es != [] {
      StepKeepsInv(s, es[0]);
      ClosedLoops(Apply(s, es[0]), es[1..]);
    }
  }

  lemma {:induction false} StaysClosed(s: System, es: seq<Step>)
    requires Inv(s) && s.f.closed && Vain(s) && Legal(s, es)
    ensures var t := Final(s, es);
            && t.f.closed && Vain(t) && t.next == s.next && t.watching <= s.watching && t.sending <= s.sending
            && (t.loop.Stopped? ==> s.loop.Stopped? || LoopCancel in es)
    decreases |es|
  {
    if es != [] {
      StepKeepsInv(s, es[0]);
      StaysClosed(Apply(s, es[0]), es[1..]);
      assert es == [es[0]] + es[1..];
    }
  }

  lemma {:induction false} StoppedFrom(s: System, es: seq<Step>)
    requires Legal(s, es) && (s.loop.Unstarted? <==> !s.main.Running?)
    ensures Final(s, es).loop.Stopped? <==> s.loop.Stopped? || LoopCancel in es
    decreases |es|
  {
    if es != [] {
      StoppedFrom(Apply(s, es[0]), es[1..]);
      assert es == [es[0]] + es[1..];
    }
  }

  /** The loop stops when its context is cancelled, for good, and never by itself: after closing the client it goes on
      sleeping and dialling. */
  lemma OnlyCancelStops(es: seq<Step>)
    requires Legal(BOOT, es)
    ensures Final(BOOT, es).loop.Stopped? <==> LoopCancel in es
  {
    StoppedFrom(BOOT, es);
  }

  /** Nothing cuts a sleep short, not even a cancelled context: the loop goes on only by waking up. */
  lemma {:induction false} SleepIsWhole(s: System, es: seq<Step>)
    requires s.loop.Sleeping? && s.main.Running? && Legal(s, es) && LoopWake !in es
    ensures Final(s, es).loop.Sleeping? && Final(s, es).slept == s.slept
    decreases |es|
  {
    if es != [] {
      assert es[0] in es;
      SleepIsWhole(Apply(s, es[0]), es[1..]);
    }
  }

  /** Appending one enabled step to a run. */
  lemma {:induction false} Then(s: System, es: seq<Step>, e: Step)
    requires Legal(s, es) && Enabled(Final(s, es), e)
    ensures Legal(s, es + [e]) && Final(s, es + [e]) == Apply(Final(s, es), e)
    decreases |es|
  {
    if es == [] {
      assert [] + [e] == [e];
    } else {
      assert (es + [e])[0] == es[0] && (es + [e])[1..] == es[1..] + [e];
      Then(Apply(s, es[0]), es[1..], e);
    }
  }

  /** Boot connects, the session drops once, and the loop dials a second session. */
  lemma Redialled() returns (es: seq<Step>)
    ensures Legal(BOOT, es) && BootConnect(false) !in es && LoopConnect(false) !in es && CallbackDeclare(false) !in es
    ensures BootDeclare(false) !in es
    ensures Final(BOOT, es) == System(Dialled(FRESH, 1), {1}, 2, {1}, {}, Running, Callback, 1, 0, 0, 0)
  {
    es := [BootConnect(true)];
    assert es[1..] == [];
    Then(BOOT, es, BootChannel);
    es := es + [BootChannel];
    Then(BOOT, es, BootDeclare(true));
    es := es + [BootDeclare(true)];
    Then(BOOT, es, StartLoop);
    es := es + [StartLoop];
    Then(BOOT, es, BrokerDrop(0));
    es := es + [BrokerDrop(0)];
    Then(BOOT, es, HandlerClear(0));
    es := es + [HandlerClear(0)];
    Then(BOOT, es, HandlerSignal(0));
    es := es + [HandlerSignal(0)];
    assert Final(BOOT, es) == System(Signalled(FRESH), {}, 1, {}, {}, Running, Waiting, 1, 0, 0, 0);
    Then(BOOT, es, LoopReceive);
    es := es + [LoopReceive];
    Then(BOOT, es, LoopConnect(true));
    es := es + [LoopConnect(true)];
  }

  /** One short outage at the wrong moment suffices: in this run every dial succeeds and no declaration is even
      attempted on a lost session, yet the client ends closed, because the callback reads the channel just after it
      was cleared. */
  lemma FlapDuringCallbackIsFatal() returns (es: seq<Step>)
    ensures Legal(BOOT, es) && Final(BOOT, es).f.closed
    ensures BootConnect(false) !in es && LoopConnect(false) !in es && CallbackDeclare(false) !in es
    ensures BootDeclare(false) !in es
  {
    es := Redialled();
    Then(BOOT, es, BrokerDrop(1));
    es := es + [BrokerDrop(1)];
    Then(BOOT, es, HandlerClear(1));
    es := es + [HandlerClear(1)];
    Then(BOOT, es, CallbackChannel);
    es := es + [CallbackChannel];
    Then(BOOT, es, LoopClose);
    es := es + [LoopClose];
  }
}
