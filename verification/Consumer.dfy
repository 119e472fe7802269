/** The AMQP consumer loop: draining deliveries, closing the channel, reconnecting with bounded
    backoff. What the broker, the handler and the context do comes in as scripts, a script that ends
    meaning that the context is done; what the loop does comes out as a log. */
module Consumer {
  import opened Sequences

  /** What one select of drainDeliveries receives. */
  datatype Signal = ContextDone | ChannelClosed | DeliveriesClosed | Message(tag: nat, handlerFails: bool)

  /** What one reconnect attempt meets. */
  datatype Attempt = Attempt(contextDone: bool, connectionDead: bool, redialOk: bool,
                             channelOk: bool, qosOk: bool, consumeOk: bool)

  datatype Effect =
    | Opened(ch: nat) | Closed(ch: nat)
    | Took(tag: nat) | Acked(tag: nat) | Nacked(tag: nat)
    | Waited(delay: int)

  datatype Options = Options(prefetchCount: int, maxReconnectTries: int, baseDelay: int, maxDelay: int)

  const DEFAULT_PREFETCH: int := 10
  const DEFAULT_MAX_TRIES: int := 5
  const DEFAULT_BASE_DELAY: int := 1_000_000_000
  const DEFAULT_MAX_DELAY: int := 30_000_000_000

  /** The setting, or the default if it is not positive. */
  function Setting(value: int, standard: int): int {
    if value <= 0 then standard else value
  }

  function WithDefaults(o: Options): (r: Options)
    ensures r.prefetchCount > 0 && r.maxReconnectTries > 0 && r.baseDelay > 0 && r.maxDelay > 0
    ensures o.prefetchCount > 0 ==> r.prefetchCount == o.prefetchCount
    ensures o.maxReconnectTries > 0 ==> r.maxReconnectTries == o.maxReconnectTries
    ensures o.baseDelay > 0 ==> r.baseDelay == o.baseDelay
    ensures o.maxDelay > 0 ==> r.maxDelay == o.maxDelay
  {
    Options(Setting(o.prefetchCount, DEFAULT_PREFETCH), Setting(o.maxReconnectTries, DEFAULT_MAX_TRIES),
            Setting(o.baseDelay, DEFAULT_BASE_DELAY), Setting(o.maxDelay, DEFAULT_MAX_DELAY))
  }

  function NextBackoff(current: int, ceiling: int): int {
    if current * 2 > ceiling then ceiling else current * 2
  }

  // ---------------------------------------------------------------- what the loop does

  function Settled(m: Signal): seq<Effect>
    requires m.Message?
  {
    [Took(m.tag), if m.handlerFails then Nacked(m.tag) else Acked(m.tag)]
  }

  /** drainDeliveries: its effects, whether the loop must stop, and the signals left over. */
  function Drained(signals: seq<Signal>): (r: (seq<Effect>, bool, seq<Signal>))
    ensures |r.2| <= |signals| && (!r.1 ==> |r.2| < |signals|)
  {
    if signals == [] then ([], true, [])
    else
      match signals[0]
      case ContextDone => ([], true, signals[1..])
      case ChannelClosed => ([], false, signals[1..])
      case DeliveriesClosed => ([], false, signals[1..])
      case Message(_, _) =>
        var (log, stop, rest) := Drained(signals[1..]);
        (Settled(signals[0]) + log, stop, rest)
  }

  /** openConsumer on an open connection: a channel that cannot be set up is closed again. */
  function OpenEffects(a: Attempt, ch: nat): (seq<Effect>, bool) {
    if !a.channelOk then ([], false)
    else if !a.qosOk || !a.consumeOk then ([Opened(ch), Closed(ch)], false)
    else ([Opened(ch)], true)
  }

  /** One attempt after its wait: effects, and whether the consumer is open again. */
  function TryEffects(a: Attempt, ch: nat): (seq<Effect>, bool) {
    if a.connectionDead && !a.redialOk then ([], false) else OpenEffects(a, ch)
  }

  function Head(attempts: seq<Attempt>): Attempt {
    if attempts == [] then Attempt(true, true, false, false, false, false) else attempts[0]
  }

  function Tail(attempts: seq<Attempt>): seq<Attempt> {
    if attempts == [] then [] else attempts[1..]
  }

  datatype Reconnected = Reconnected(log: seq<Effect>, open: bool, ch: nat, attempts: seq<Attempt>) {
    /** The same with effects that came before. */
    function After(earlier: seq<Effect>): Reconnected {
      this.(log := earlier + log)
    }
  }

  /** reconnectConsumer with `tries` attempts left; `ch` is the next unused channel number. */
  function Reconnects(tries: nat, delay: int, ceiling: int, attempts: seq<Attempt>, ch: nat): Reconnected
    decreases tries
  {
    var a := Head(attempts);
    if tries == 0 then Reconnected([], false, ch, attempts)
    else if a.contextDone then Reconnected([], false, ch, Tail(attempts))
    else
      var (effects, open) := TryEffects(a, ch);
      if open then Reconnected([Waited(delay)] + effects, true, ch, Tail(attempts))
      else
        Reconnects(tries - 1, NextBackoff(delay, ceiling), ceiling, Tail(attempts), ch + 1)
          .After([Waited(delay)] + effects)
  }

  /** runConsumer on the open channel `ch`. */
  function Consumed(o: Options, signals: seq<Signal>, attempts: seq<Attempt>, ch: nat): seq<Effect>
    requires o.maxReconnectTries >= 0
    decreases |signals|
  {
    var (log, stop, rest) := Drained(signals);
    if stop then log + [Closed(ch)]
    else
      var r := Reconnects(o.maxReconnectTries, o.baseDelay, o.maxDelay, attempts, ch + 1);
      log + [Closed(ch)] + r.log + if r.open then Consumed(o, rest, r.attempts, r.ch) else []
  }

  // ---------------------------------------------------------------- the discipline

  /** Channel and delivery ownership; Broken once violated, for good. */
  datatype Mode = Idle | Holding(ch: nat) | Processing(ch: nat, tag: nat) | Broken

  function Next(m: Mode, e: Effect): Mode {
    match (m, e)
    case (Idle, Opened(ch)) => Holding(ch)
    case (Idle, Waited(_)) => Idle
    case (Holding(ch), Closed(c)) => if c == ch then Idle else Broken
    case (Holding(ch), Took(tag)) => Processing(ch, tag)
    case (Processing(ch, tag), Acked(t)) => if t == tag then Holding(ch) else Broken
    case (Processing(ch, tag), Nacked(t)) => if t == tag then Holding(ch) else Broken
    case _ => Broken
  }

  function Follow(m: Mode, log: seq<Effect>): Mode
    decreases |log|
  {
    if log == [] then m else Follow(Next(m, log[0]), log[1..])
  }

  lemma {:induction false} FollowCons(m: Mode, e: Effect, log: seq<Effect>)
    ensures Follow(m, [e] + log) == Follow(Next(m, e), log)
  {
    assert ([e] + log)[1..] == log;
  }

  lemma {:induction false} FollowConcat(m: Mode, a: seq<Effect>, b: seq<Effect>)
    ensures Follow(m, a + b) == Follow(Follow(m, a), b)
    decreases |a|
  {
    if a == [] {
      assert a + b == b;
    } else {
      assert (a + b)[1..] == a[1..] + b;
      FollowConcat(Next(m, a[0]), a[1..], b);
    }
  }

  lemma {:induction false} BrokenForever(log: seq<Effect>)
    ensures Follow(Broken, log) == Broken
  {
    if log == [] {
    } else {
      BrokenForever(log[1..]);
    }
  }

  /** A log that ends well was well at every moment. */
  lemma {:induction false} PrefixesAreSound(m: Mode, log: seq<Effect>, n: nat)
    requires n <= |log| && Follow(m, log) != Broken
    ensures Follow(m, log[..n]) != Broken
  {
    assert log == log[..n] + log[n..];
    FollowConcat(m, log[..n], log[n..]);
    BrokenForever(log[n..]);
  }

  lemma {:induction false} DrainingKeepsChannel(signals: seq<Signal>, ch: nat)
    ensures Follow(Holding(ch), Drained(signals).0) == Holding(ch)
  {
    if signals == [] || !signals[0].Message? {
    } else {
      var step, rest := Settled(signals[0]), Drained(signals[1..]).0;
      DrainingKeepsChannel(signals[1..], ch);
      FollowConcat(Holding(ch), step, rest);
      assert step == [step[0]] + ([step[1]] + []);
      FollowCons(Holding(ch), step[0], [step[1]] + []);
      FollowCons(Next(Holding(ch), step[0]), step[1], []);
    }
  }

  lemma TryingIsSound(a: Attempt, delay: int, ch: nat)
    ensures var (effects, open) := TryEffects(a, ch);
            Follow(Idle, [Waited(delay)] + effects) == if open then Holding(ch) else Idle
  {
    var (effects, open) := TryEffects(a, ch);
    FollowCons(Idle, Waited(delay), effects);
    FollowCons(Idle, Opened(ch), []);
    FollowCons(Idle, Opened(ch), [Closed(ch)]);
    FollowCons(Holding(ch), Closed(ch), []);
    assert [Opened(ch)] + [] == [Opened(ch)] && [Opened(ch)] + [Closed(ch)] == [Opened(ch), Closed(ch)];
    assert [Closed(ch)] + [] == [Closed(ch)];
  }

  lemma {:induction false} ReconnectingIsSound(tries: nat, delay: int, ceiling: int, attempts: seq<Attempt>, ch: nat)
    ensures var r := Reconnects(tries, delay, ceiling, attempts, ch);
            Follow(Idle, r.log) == (if r.open then Holding(r.ch) else Idle) && r.ch >= ch
    decreases tries
  {
    var a := Head(attempts);
    if tries == 0 || a.contextDone {
    } else {
      TryingIsSound(a, delay, ch);
      var (effects, open) := TryEffects(a, ch);
      if !open {
        ReconnectingIsSound(tries - 1, NextBackoff(delay, ceiling), ceiling, Tail(attempts), ch + 1);
        FollowConcat(Idle, [Waited(delay)] + effects,
                     Reconnects(tries - 1, NextBackoff(delay, ceiling), ceiling, Tail(attempts), ch + 1).log);
      }
    }
  }

  lemma ClosingEndsHolding(ch: nat)
    ensures Follow(Holding(ch), [Closed(ch)]) == Idle
  {
    assert [Closed(ch)][1..] == [];
  }

  /** Over any run: at most one consumer channel is open at a time and none in the end, and every
      delivery taken is settled once, before anything else happens. */
  lemma {:induction false} ConsumerKeepsDiscipline(o: Options, signals: seq<Signal>, attempts: seq<Attempt>, ch: nat)
    requires o.maxReconnectTries >= 0
    ensures Follow(Holding(ch), Consumed(o, signals, attempts, ch)) == Idle
    decreases |signals|
  {
    var (log, stop, rest) := Drained(signals);
    DrainingKeepsChannel(signals, ch);
    ClosingEndsHolding(ch);
    FollowConcat(Holding(ch), log, [Closed(ch)]);
    if !stop {
      var r := Reconnects(o.maxReconnectTries, o.baseDelay, o.maxDelay, attempts, ch + 1);
      ReconnectingIsSound(o.maxReconnectTries, o.baseDelay, o.maxDelay, attempts, ch + 1);
      FollowConcat(Holding(ch), log + [Closed(ch)], r.log);
      if r.open {
        ConsumerKeepsDiscipline(o, rest, r.attempts, r.ch);
        FollowConcat(Holding(ch), log + [Closed(ch)] + r.log, Consumed(o, rest, r.attempts, r.ch));
      } else {
        assert Consumed(o, signals, attempts, ch) == log + [Closed(ch)] + r.log;
      }
    }
  }

  // ---------------------------------------------------------------- settlements

  /** The settlements in a log, in order: delivery tag and whether it was acknowledged. */
  function Settlements(log: seq<Effect>): seq<(nat, bool)> {
    if log == [] then [] else SettlementIn(log[0]) + Settlements(log[1..])
  }

  function SettlementIn(e: Effect): seq<(nat, bool)> {
    match e
    case Acked(t) => [(t, true)]
    case Nacked(t) => [(t, false)]
    case _ => []
  }

  /** The messages before the first signal that ends the draining, and how the handler took them. */
  function Verdicts(signals: seq<Signal>): seq<(nat, bool)> {
    if signals == [] || !signals[0].Message? then []
    else [(signals[0].tag, !signals[0].handlerFails)] + Verdicts(signals[1..])
  }

  lemma {:induction false} SettlementsConcat(a: seq<Effect>, b: seq<Effect>)
    ensures Settlements(a + b) == Settlements(a) + Settlements(b)
  {
    if a == [] {
      assert a + b == b;
    } else {
      assert (a + b)[1..] == a[1..] + b;
      SettlementsConcat(a[1..], b);
      Regroup(SettlementIn(a[0]), Settlements(a[1..]), Settlements(b));
    }
  }

  /** Exactly the messages received are settled, in order: acknowledged where the handler succeeded,
      rejected where it failed. */
  lemma {:induction false} DrainSettlesVerdicts(signals: seq<Signal>)
    ensures Settlements(Drained(signals).0) == Verdicts(signals)
  {
    if signals == [] || !signals[0].Message? {
    } else {
      DrainSettlesVerdicts(signals[1..]);
      OneSettlement(signals[0], Drained(signals[1..]).0);
    }
  }

  /** Draining ends at the first signal that is not a message, which it takes: the loop stops when that is
      the end of the context and reconnects otherwise. */
  lemma {:induction false} DrainEndsAt(signals: seq<Signal>, k: nat)
    requires k <= |signals| && (forall i :: 0 <= i < k ==> signals[i].Message?)
    requires k < |signals| ==> !signals[k].Message?
    ensures var (_, stop, rest) := Drained(signals);
            && (stop <==> k == |signals| || signals[k].ContextDone?)
            && rest == if k == |signals| then [] else signals[k + 1..]
  {
    if k == 0 {
    } else {
      DrainEndsAt(signals[1..], k - 1);
    }
  }

  /** How the handler took all the messages among some signals. */
  function MessageVerdicts(signals: seq<Signal>): seq<(nat, bool)> {
    if signals == [] then []
    else VerdictOn(signals[0]) + MessageVerdicts(signals[1..])
  }

  function VerdictOn(signal: Signal): seq<(nat, bool)> {
    if signal.Message? then [(signal.tag, !signal.handlerFails)] else []
  }

  /** How many signals the whole run receives. */
  function SignalsTaken(o: Options, signals: seq<Signal>, attempts: seq<Attempt>, ch: nat): (n: nat)
    requires o.maxReconnectTries >= 0
    ensures n <= |signals|
    decreases |signals|
  {
    var (_, stop, rest) := Drained(signals);
    var r := Reconnects(o.maxReconnectTries, o.baseDelay, o.maxDelay, attempts, ch + 1);
    |signals| - |rest| + if !stop && r.open then SignalsTaken(o, rest, r.attempts, r.ch) else 0
  }

  lemma {:induction false} DrainTakesPrefix(signals: seq<Signal>)
    ensures var (log, _, rest) := Drained(signals);
            && rest == signals[|signals| - |rest|..]
            && Settlements(log) == MessageVerdicts(signals[..|signals| - |rest|])
  {
    if signals == [] {
    } else {
      var (_, _, rest) := Drained(signals);
      var taken := signals[..|signals| - |rest|];
      assert taken[1..] == signals[1..][..|signals| - |rest| - 1];
      if signals[0].Message? {
        DrainTakesPrefix(signals[1..]);
        OneSettlement(signals[0], Drained(signals[1..]).0);
      } else {
        assert taken == [signals[0]];
      }
    }
  }

  lemma {:induction false} OneSettlement(m: Signal, log: seq<Effect>)
    requires m.Message?
    ensures Settlements(Settled(m) + log) == [(m.tag, !m.handlerFails)] + Settlements(log)
  {
    var step := Settled(m);
    SettlementsConcat(step, log);
    assert step[1..] == [step[1]] && step[1..][1..] == [];
    assert Settlements(step[1..]) == [(m.tag, !m.handlerFails)];
  }

  lemma {:induction false} VerdictsConcat(a: seq<Signal>, b: seq<Signal>)
    ensures MessageVerdicts(a + b) == MessageVerdicts(a) + MessageVerdicts(b)
  {
    if a == [] {
      assert a + b == b;
    } else {
      assert (a + b)[1..] == a[1..] + b;
      VerdictsConcat(a[1..], b);
      Regroup(VerdictOn(a[0]), MessageVerdicts(a[1..]), MessageVerdicts(b));
    }
  }

  predicate NoMessages(log: seq<Effect>) {
    forall i :: 0 <= i < |log| ==> !log[i].Acked? && !log[i].Nacked?
  }

  lemma {:induction false} NoMessagesNoSettlements(log: seq<Effect>)
    requires NoMessages(log)
    ensures Settlements(log) == []
  {
    if log == [] {
    } else {
      NoMessagesNoSettlements(log[1..]);
    }
  }

  lemma {:induction false} ReconnectSettlesNothing(tries: nat, delay: int, ceiling: int, attempts: seq<Attempt>,
                                                  ch: nat)
    ensures NoMessages(Reconnects(tries, delay, ceiling, attempts, ch).log)
    decreases tries
  {
    if tries == 0 {
    } else {
      ReconnectSettlesNothing(tries - 1, NextBackoff(delay, ceiling), ceiling, Tail(attempts), ch + 1);
    }
  }

  /** Over the whole run, reconnects included, the settlements are the verdicts of exactly the messages
      received, in order. */
  lemma {:induction false} RunSettlesVerdicts(o: Options, signals: seq<Signal>, attempts: seq<Attempt>, ch: nat)
    requires o.maxReconnectTries >= 0
    ensures Settlements(Consumed(o, signals, attempts, ch))
         == MessageVerdicts(signals[..SignalsTaken(o, signals, attempts, ch)])
    decreases |signals|
  {
    var (log, stop, rest) := Drained(signals);
    var r := Reconnects(o.maxReconnectTries, o.baseDelay, o.maxDelay, attempts, ch + 1);
    var round := log + [Closed(ch)] + r.log;
    ReconnectSettlesNothing(o.maxReconnectTries, o.baseDelay, o.maxDelay, attempts, ch + 1);
    RoundSettlesVerdicts(signals, ch, r.log);
    if stop {
    } else if !r.open {
      assert round + [] == round;
    } else {
      RunSettlesVerdicts(o, rest, r.attempts, r.ch);
      TwoParts(signals, |signals| - |rest|, SignalsTaken(o, rest, r.attempts, r.ch), round,
               Consumed(o, rest, r.attempts, r.ch));
    }
  }

  /** One round of the loop settles the messages it drained, whether or not a reconnect follows. */
  lemma {:induction false} RoundSettlesVerdicts(signals: seq<Signal>, ch: nat, more: seq<Effect>)
    requires NoMessages(more)
    ensures var (log, _, rest) := Drained(signals);
            && rest == signals[|signals| - |rest|..]
            && Settlements(log + [Closed(ch)]) == MessageVerdicts(signals[..|signals| - |rest|])
            && Settlements(log + [Closed(ch)] + more) == MessageVerdicts(signals[..|signals| - |rest|])
  {
    DrainTakesPrefix(signals);
    SettlesOnlyDrained(Drained(signals).0, ch, more);
  }

  lemma {:induction false} TwoParts(signals: seq<Signal>, n: nat, m: nat, log: seq<Effect>, more: seq<Effect>)
    requires n + m <= |signals|
    requires Settlements(log) == MessageVerdicts(signals[..n])
    requires Settlements(more) == MessageVerdicts(signals[n..][..m])
    ensures Settlements(log + more) == MessageVerdicts(signals[..n + m])
  {
    SettlementsConcat(log, more);
    SplitPrefix(signals, n, m);
  }

  lemma {:induction false} SettlesOnlyDrained(log: seq<Effect>, ch: nat, more: seq<Effect>)
    ensures Settlements(log + [Closed(ch)]) == Settlements(log)
    ensures NoMessages(more) ==> Settlements(log + [Closed(ch)] + more) == Settlements(log)
  {
    SettlementsConcat(log, [Closed(ch)]);
    NoMessagesNoSettlements([Closed(ch)]);
    SettlementsConcat(log + [Closed(ch)], more);
    if NoMessages(more) { NoMessagesNoSettlements(more); }
  }

  lemma SplitPrefix(signals: seq<Signal>, n: nat, m: nat)
    requires n + m <= |signals|
    ensures MessageVerdicts(signals[..n + m]) == MessageVerdicts(signals[..n]) + MessageVerdicts(signals[n..][..m])
  {
    assert signals[..n + m] == signals[..n] + signals[n..][..m];
    VerdictsConcat(signals[..n], signals[n..][..m]);
  }

  // ---------------------------------------------------------------- backoff

  function Waits(log: seq<Effect>): seq<int> {
    if log == [] then [] else WaitIn(log[0]) + Waits(log[1..])
  }

  function WaitIn(e: Effect): seq<int> {
    if e.Waited? then [e.delay] else []
  }

  lemma {:induction false} WaitsConcat(a: seq<Effect>, b: seq<Effect>)
    ensures Waits(a + b) == Waits(a) + Waits(b)
  {
    if a == [] {
      assert a + b == b;
    } else {
      assert (a + b)[1..] == a[1..] + b;
      WaitsConcat(a[1..], b);
      Regroup(WaitIn(a[0]), Waits(a[1..]), Waits(b));
    }
  }

  function Pow2(k: nat): nat {
    if k == 0 then 1 else 2 * Pow2(k - 1)
  }

  /** The wait before attempt k + 1, in closed form. */
  function Backoff(base: int, ceiling: int, k: nat): int {
    if k == 0 then base else if base * Pow2(k) > ceiling then ceiling else base * Pow2(k)
  }

  lemma {:induction false} Pow2Grows(k: nat)
    ensures Pow2(k) >= 1
  {
    if k == 0 {
    } else {
      Pow2Grows(k - 1);
    }
  }

  /** Doubling under a ceiling step by step is doubling and then taking the ceiling. */
  lemma BackoffStep(base: int, ceiling: int, k: nat)
    requires base > 0 && ceiling > 0
    ensures NextBackoff(Backoff(base, ceiling, k), ceiling) == Backoff(base, ceiling, k + 1)
  {
    assert base * Pow2(k + 1) == 2 * (base * Pow2(k));
  }

  lemma WaitsOfTry(delay: int, a: Attempt, ch: nat)
    ensures Waits([Waited(delay)] + TryEffects(a, ch).0) == [delay]
  {
    var effects := TryEffects(a, ch).0;
    WaitsConcat([Waited(delay)], effects);
    NoWaits(effects);
    assert [Waited(delay)][1..] == [];
  }

  lemma {:induction false} NoWaits(log: seq<Effect>)
    requires forall i :: 0 <= i < |log| ==> !log[i].Waited?
    ensures Waits(log) == []
  {
    if log == [] {
    } else {
      NoWaits(log[1..]);
    }
  }

  lemma WaitsUnfold(tries: nat, delay: int, ceiling: int, attempts: seq<Attempt>, ch: nat)
    requires tries > 0 && !Head(attempts).contextDone
    ensures Waits(Reconnects(tries, delay, ceiling, attempts, ch).log)
         == [delay] +
            if TryEffects(Head(attempts), ch).1 then []
            else Waits(Reconnects(tries - 1, NextBackoff(delay, ceiling), ceiling, Tail(attempts), ch + 1).log)
  {
    var (effects, open) := TryEffects(Head(attempts), ch);
    WaitsOfTry(delay, Head(attempts), ch);
    if !open {
      WaitsConcat([Waited(delay)] + effects,
                  Reconnects(tries - 1, NextBackoff(delay, ceiling), ceiling, Tail(attempts), ch + 1).log);
    }
  }

  /** The waits of a reconnect in which every attempt fails. */
  function Delays(tries: nat, delay: int, ceiling: int): seq<int> {
    if tries == 0 then [] else [delay] + Delays(tries - 1, NextBackoff(delay, ceiling), ceiling)
  }

  lemma {:induction false} WaitsAreDelays(tries: nat, delay: int, ceiling: int, attempts: seq<Attempt>, ch: nat)
    ensures Waits(Reconnects(tries, delay, ceiling, attempts, ch).log) <= Delays(tries, delay, ceiling)
    decreases tries
  {
    if tries == 0 || Head(attempts).contextDone {
    } else {
      WaitsUnfold(tries, delay, ceiling, attempts, ch);
      WaitsAreDelays(tries - 1, NextBackoff(delay, ceiling), ceiling, Tail(attempts), ch + 1);
    }
  }

  lemma {:induction false} DelaysAreBackoff(tries: nat, base: int, ceiling: int, k: nat)
    requires base > 0 && ceiling > 0
    ensures var delays := Delays(tries, Backoff(base, ceiling, k), ceiling);
            |delays| == tries && forall i :: 0 <= i < tries ==> delays[i] == Backoff(base, ceiling, k + i)
  {
    if tries == 0 {
    } else {
      BackoffStep(base, ceiling, k);
      DelaysAreBackoff(tries - 1, base, ceiling, k + 1);
      var rest := Delays(tries - 1, Backoff(base, ceiling, k + 1), ceiling);
      forall i | 0 < i < tries ensures ([Backoff(base, ceiling, k)] + rest)[i] == Backoff(base, ceiling, k + i) {
        assert rest[i - 1] == Backoff(base, ceiling, (k + 1) + (i - 1));
      }
    }
  }

  /** One reconnect waits at most `tries` times, and its k-th wait is the base for k = 1 and
      min(base * 2^(k-1), ceiling) afterwards. */
  lemma {:induction false} ReconnectWaits(o: Options, tries: nat, attempts: seq<Attempt>, ch: nat)
    requires o.baseDelay > 0 && o.maxDelay > 0
    ensures var waits := Waits(Reconnects(tries, o.baseDelay, o.maxDelay, attempts, ch).log);
            |waits| <= tries && forall i :: 0 <= i < |waits| ==> waits[i] == Backoff(o.baseDelay, o.maxDelay, i)
  {
    WaitsAreDelays(tries, o.baseDelay, o.maxDelay, attempts, ch);
    DelaysAreBackoff(tries, o.baseDelay, o.maxDelay, 0);
  }

  ghost predicate AllRedialsFail(attempts: seq<Attempt>) {
    forall i :: 0 <= i < |attempts| ==> attempts[i].connectionDead && !attempts[i].redialOk && !attempts[i].contextDone
  }

  lemma {:induction false} FailingWaits(tries: nat, delay: int, ceiling: int, attempts: seq<Attempt>, ch: nat)
    requires AllRedialsFail(attempts) && |attempts| >= tries
    ensures var r := Reconnects(tries, delay, ceiling, attempts, ch);
            !r.open && Waits(r.log) == Delays(tries, delay, ceiling)
  {
    if tries == 0 {
    } else {
      WaitsUnfold(tries, delay, ceiling, attempts, ch);
      FailingWaits(tries - 1, NextBackoff(delay, ceiling), ceiling, attempts[1..], ch + 1);
    }
  }

  /** With no settings at all, a consumer whose connection is lost for good gives up after waiting one,
      two, four, eight and sixteen seconds. */
  lemma {:induction false} UnsetOptionsGiveUp(attempts: seq<Attempt>, ch: nat)
    requires AllRedialsFail(attempts) && |attempts| >= 5
    ensures var o := WithDefaults(Options(0, 0, 0, 0));
            var r := Reconnects(o.maxReconnectTries, o.baseDelay, o.maxDelay, attempts, ch);
            && !r.open
            && Waits(r.log) == [1_000_000_000, 2_000_000_000, 4_000_000_000, 8_000_000_000, 16_000_000_000]
  {
    FailingWaits(5, 1_000_000_000, 30_000_000_000, attempts, ch);
    assert Delays(2, 8_000_000_000, 30_000_000_000) == [8_000_000_000, 16_000_000_000];
    assert Delays(4, 2_000_000_000, 30_000_000_000) == [2_000_000_000, 4_000_000_000, 8_000_000_000, 16_000_000_000];
  }

  // ---------------------------------------------------------------- reopening

  /** The broker lets this attempt succeed: a dead connection is dialled again and the new consumer is
      accepted. */
  predicate CanOpen(a: Attempt) {
    (a.connectionDead ==> a.redialOk) && a.channelOk && a.qosOk && a.consumeOk
  }

  /** The first `n` attempts find the context alive and a broker that does not let them succeed. */
  ghost predicate AllFail(attempts: seq<Attempt>, n: nat) {
    n <= |attempts| && forall i :: 0 <= i < n ==> !attempts[i].contextDone && !CanOpen(attempts[i])
  }

  /** The first attempt that can succeed is `attempts[n]`, in time and before the context is done. */
  ghost predicate OpensAt(tries: nat, attempts: seq<Attempt>, n: nat) {
    AllFail(attempts, n) && n < tries && n < |attempts| && !attempts[n].contextDone && CanOpen(attempts[n])
  }

  /** After `n` failed attempts none is left or the context is done. */
  ghost predicate GivesUpAt(tries: nat, attempts: seq<Attempt>, n: nat) {
    AllFail(attempts, n) && n <= tries && (n == tries || n == |attempts| || attempts[n].contextDone)
  }

  lemma FirstFails(attempts: seq<Attempt>, n: nat, ch: nat)
    requires AllFail(attempts, n) && n > 0
    ensures !attempts[0].contextDone && !TryEffects(attempts[0], ch).1 && AllFail(attempts[1..], n - 1)
  {
    assert !CanOpen(attempts[0]);
  }

  lemma AfterFailure(tries: nat, delay: int, ceiling: int, attempts: seq<Attempt>, ch: nat)
    requires tries > 0 && attempts != [] && !attempts[0].contextDone && !TryEffects(attempts[0], ch).1
    ensures Reconnects(tries, delay, ceiling, attempts, ch)
         == Reconnects(tries - 1, NextBackoff(delay, ceiling), ceiling, attempts[1..], ch + 1)
              .After([Waited(delay)] + TryEffects(attempts[0], ch).0)
  {
  }

  lemma {:induction false} ReopensAt(tries: nat, delay: int, ceiling: int, attempts: seq<Attempt>, ch: nat, n: nat)
    requires OpensAt(tries, attempts, n)
    ensures var r := Reconnects(tries, delay, ceiling, attempts, ch);
            && r.open && r.ch == ch + n && r.attempts == attempts[n + 1..]
            && |r.log| > 0 && r.log[|r.log| - 1] == Opened(ch + n)
    decreases n
  {
    if n == 0 {
    } else {
      FirstFails(attempts, n, ch);
      AfterFailure(tries, delay, ceiling, attempts, ch);
      ReopensAt(tries - 1, NextBackoff(delay, ceiling), ceiling, attempts[1..], ch + 1, n - 1);
      assert attempts[1..][n..] == attempts[n + 1..];
    }
  }

  lemma {:induction false} WaitsUntilOpen(tries: nat, delay: int, ceiling: int, attempts: seq<Attempt>, ch: nat, n: nat)
    requires OpensAt(tries, attempts, n)
    ensures |Waits(Reconnects(tries, delay, ceiling, attempts, ch).log)| == n + 1
    decreases n
  {
    if n > 0 { FirstFails(attempts, n, ch); }
    WaitsUnfold(tries, delay, ceiling, attempts, ch);
    if n == 0 {
    } else {
      WaitsUntilOpen(tries - 1, NextBackoff(delay, ceiling), ceiling, attempts[1..], ch + 1, n - 1);
    }
  }

  lemma {:induction false} GivesUpAfter(tries: nat, delay: int, ceiling: int, attempts: seq<Attempt>, ch: nat, n: nat)
    requires GivesUpAt(tries, attempts, n)
    ensures var r := Reconnects(tries, delay, ceiling, attempts, ch); !r.open && |Waits(r.log)| == n
    decreases n
  {
    if n == 0 {
    } else {
      FirstFails(attempts, n, ch);
      AfterFailure(tries, delay, ceiling, attempts, ch);
      WaitsUnfold(tries, delay, ceiling, attempts, ch);
      GivesUpAfter(tries - 1, NextBackoff(delay, ceiling), ceiling, attempts[1..], ch + 1, n - 1);
    }
  }

  lemma {:induction false} OpensOrGivesUp(tries: nat, attempts: seq<Attempt>) returns (n: nat)
    ensures OpensAt(tries, attempts, n) || GivesUpAt(tries, attempts, n)
    decreases tries
  {
    if tries == 0 || attempts == [] || attempts[0].contextDone || CanOpen(attempts[0]) {
      return 0;
    }
    var m := OpensOrGivesUp(tries - 1, attempts[1..]);
    assert forall i :: 0 < i <= m ==> attempts[i] == attempts[1..][i - 1];
    return m + 1;
  }

  /** A consumer whose channel was lost is open again exactly if one of the allowed attempts can succeed
      before the context is done, and then on the first such attempt. */
  lemma {:induction false} ReopensIff(tries: nat, delay: int, ceiling: int, attempts: seq<Attempt>, ch: nat)
    ensures Reconnects(tries, delay, ceiling, attempts, ch).open <==> exists n :: OpensAt(tries, attempts, n)
  {
    var n := OpensOrGivesUp(tries, attempts);
    if OpensAt(tries, attempts, n) {
      ReopensAt(tries, delay, ceiling, attempts, ch, n);
    } else {
      GivesUpAfter(tries, delay, ceiling, attempts, ch, n);
    }
    forall m | OpensAt(tries, attempts, m) ensures Reconnects(tries, delay, ceiling, attempts, ch).open {
      ReopensAt(tries, delay, ceiling, attempts, ch, m);
    }
  }

  lemma {:induction false} DrainKeepsAlive(signals: seq<Signal>)
    requires forall i :: 0 <= i < |signals| ==> !signals[i].ContextDone?
    ensures var (_, stop, rest) := Drained(signals);
            (stop ==> rest == []) && forall i :: 0 <= i < |rest| ==> !rest[i].ContextDone?
  {
    if signals == [] || !signals[0].Message? {
    } else {
      DrainKeepsAlive(signals[1..]);
    }
  }

  lemma {:induction false} AllSignalsTaken(o: Options, signals: seq<Signal>, attempts: seq<Attempt>, ch: nat)
    requires o.maxReconnectTries > 0 && |attempts| >= |signals|
    requires forall i :: 0 <= i < |signals| ==> !signals[i].ContextDone?
    requires forall i :: 0 <= i < |attempts| ==> !attempts[i].contextDone && CanOpen(attempts[i])
    ensures SignalsTaken(o, signals, attempts, ch) == |signals|
    decreases |signals|
  {
    var (_, stop, rest) := Drained(signals);
    DrainKeepsAlive(signals);
    if !stop {
      ReopensAt(o.maxReconnectTries, o.baseDelay, o.maxDelay, attempts, ch + 1, 0);
      AllSignalsTaken(o, rest, attempts[1..], ch + 1);
    }
  }

  /** While the context lives and every reconnect can succeed, the consumer settles every message it is
      sent, across any number of lost channels. */
  lemma {:induction false} StableBrokerLosesNothing(o: Options, signals: seq<Signal>, attempts: seq<Attempt>, ch: nat)
    requires o.maxReconnectTries > 0 && |attempts| >= |signals|
    requires forall i :: 0 <= i < |signals| ==> !signals[i].ContextDone?
    requires forall i :: 0 <= i < |attempts| ==> !attempts[i].contextDone && CanOpen(attempts[i])
    ensures Settlements(Consumed(o, signals, attempts, ch)) == MessageVerdicts(signals)
  {
    AllSignalsTaken(o, signals, attempts, ch);
    RunSettlesVerdicts(o, signals, attempts, ch);
    assert signals[..|signals|] == signals;
  }

  lemma {:induction false} ChannelsCountUp(tries: nat, delay: int, ceiling: int, attempts: seq<Attempt>, ch: nat,
                                           c: nat)
    requires c < ch
    ensures Opened(c) !in Reconnects(tries, delay, ceiling, attempts, ch).log
    decreases tries
  {
    if tries == 0 || Head(attempts).contextDone {
    } else {
      var (effects, open) := TryEffects(Head(attempts), ch);
      assert Opened(c) !in [Waited(delay)] + effects;
      if !open {
        ChannelsCountUp(tries - 1, NextBackoff(delay, ceiling), ceiling, Tail(attempts), ch + 1, c);
      }
    }
  }

  /** An attempt opens a channel exactly if the connection is up, again if need be, and the broker grants
      the channel. */
  predicate Grants(a: Attempt) {
    (a.connectionDead ==> a.redialOk) && a.channelOk
  }

  lemma GrantedChannel(delay: int, a: Attempt, ch: nat, c: nat)
    ensures Opened(c) in [Waited(delay)] + TryEffects(a, ch).0 <==> c == ch && Grants(a)
  {
    var effects := TryEffects(a, ch).0;
    assert effects == [] || effects == [Opened(ch)] || effects == [Opened(ch), Closed(ch)];
    if c == ch && Grants(a) { assert ([Waited(delay)] + effects)[1] == Opened(c); }
  }

  lemma {:induction false} ChannelPerAttempt(tries: nat, delay: int, ceiling: int, attempts: seq<Attempt>, ch: nat,
                                             n: nat, i: nat)
    requires i < n <= tries && AllFail(attempts, n)
    ensures Opened(ch + i) in Reconnects(tries, delay, ceiling, attempts, ch).log <==> Grants(attempts[i])
    decreases n
  {
    var first := [Waited(delay)] + TryEffects(attempts[0], ch).0;
    var rest := Reconnects(tries - 1, NextBackoff(delay, ceiling), ceiling, attempts[1..], ch + 1);
    FirstFails(attempts, n, ch);
    AfterFailure(tries, delay, ceiling, attempts, ch);
    GrantedChannel(delay, attempts[0], ch, ch + i);
    InConcat(Opened(ch + i), first, rest.log);
    if i == 0 {
      ChannelsCountUp(tries - 1, NextBackoff(delay, ceiling), ceiling, attempts[1..], ch + 1, ch);
    } else {
      ChannelPerAttempt(tries - 1, NextBackoff(delay, ceiling), ceiling, attempts[1..], ch + 1, n - 1, i - 1);
    }
  }

  // ---------------------------------------------------------------- the loops

  /** A failed attempt hands over to the next, with its effects behind those so far. */
  lemma FailedAttempt(done: seq<Effect>, tries: nat, delay: int, ceiling: int, attempts: seq<Attempt>, ch: nat)
    requires tries > 0 && !Head(attempts).contextDone && !TryEffects(Head(attempts), ch).1
    ensures Reconnects(tries, delay, ceiling, attempts, ch).After(done)
         == Reconnects(tries - 1, NextBackoff(delay, ceiling), ceiling, Tail(attempts), ch + 1)
              .After(done + ([Waited(delay)] + TryEffects(Head(attempts), ch).0))
  {
    Regroup(done, [Waited(delay)] + TryEffects(Head(attempts), ch).0,
            Reconnects(tries - 1, NextBackoff(delay, ceiling), ceiling, Tail(attempts), ch + 1).log);
  }

  lemma {:induction false} EndedAttempt(done: seq<Effect>, tries: nat, delay: int, ceiling: int,
                                        attempts: seq<Attempt>, ch: nat)
    requires tries > 0 && Head(attempts).contextDone
    ensures Reconnects(tries, delay, ceiling, attempts, ch).After(done) == Reconnected(done, false, ch, Tail(attempts))
  {
    assert done + [] == done;
  }

  lemma {:induction false} OpenedAttempt(done: seq<Effect>, tries: nat, delay: int, ceiling: int,
                                         attempts: seq<Attempt>, ch: nat)
    requires tries > 0 && !Head(attempts).contextDone && TryEffects(Head(attempts), ch).1
    ensures Reconnects(tries, delay, ceiling, attempts, ch).After(done)
         == Reconnected(done + ([Waited(delay)] + TryEffects(Head(attempts), ch).0), true, ch, Tail(attempts))
  {
  }

  lemma {:induction false} NoAttemptLeft(done: seq<Effect>, delay: int, ceiling: int, attempts: seq<Attempt>, ch: nat)
    ensures Reconnects(0, delay, ceiling, attempts, ch).After(done) == Reconnected(done, false, ch, attempts)
  {
    assert done + [] == done;
  }

  lemma AfterNothing(r: Reconnected)
    ensures r.After([]) == r
  {
    assert [] + r.log == r.log;
  }

  class RabbitMQ {
    const opts: Options
    var log: seq<Effect>

    constructor (o: Options)
      ensures opts == WithDefaults(o) && log == []
    {
      opts := WithDefaults(o);
      log := [];
    }

    method DrainDeliveries(signals: seq<Signal>) returns (stopped: bool, rest: seq<Signal>)
      modifies this`log
      ensures var (effects, stop, left) := Drained(signals);
              log == old(log) + effects && stopped == stop && rest == left
    {
      rest := signals;
      while rest != [] && rest[0].Message?
        invariant var (effects, stop, left) := Drained(signals);
                  var (effects', stop', left') := Drained(rest);
                  log + effects' == old(log) + effects && stop' == stop && left' == left
        decreases |rest|
      {
        var msg := rest[0];
        ghost var ahead := Drained(rest[1..]).0;
        log := log + [Took(msg.tag)];
        if msg.handlerFails {
          log := log + [Nacked(msg.tag)];
        } else {
          log := log + [Acked(msg.tag)];
        }
        rest := rest[1..];
      }
      stopped := rest == [] || rest[0].ContextDone?;
      if rest != [] {
        rest := rest[1..];
      }
    }

    /** Opens a channel, sets its prefetch and registers the consumer, undoing a partial success. */
    method OpenConsumer(a: Attempt, ch: nat) returns (ok: bool)
      modifies this`log
      ensures log == old(log) + OpenEffects(a, ch).0 && ok == OpenEffects(a, ch).1
    {
      if !a.channelOk {
        return false;
      }
      log := log + [Opened(ch)];
      if !a.qosOk {
        log := log + [Closed(ch)];
        return false;
      }
      if !a.consumeOk {
        log := log + [Closed(ch)];
        return false;
      }
      return true;
    }

    /** One attempt: the wait, a redial if the connection died, and the new consumer. */
    method TryOnce(a: Attempt, delay: int, ch: nat) returns (ok: bool)
      modifies this`log
      ensures log == old(log) + ([Waited(delay)] + TryEffects(a, ch).0) && ok == TryEffects(a, ch).1
    {
      log := log + [Waited(delay)];
      if a.connectionDead && !a.redialOk {
        return false;
      }
      ok := OpenConsumer(a, ch);
    }

    method ReconnectConsumer(attempts: seq<Attempt>, ch: nat) returns (r: Reconnected)
      requires opts.maxReconnectTries >= 0
      modifies this`log
      ensures r == Reconnects(opts.maxReconnectTries, opts.baseDelay, opts.maxDelay, attempts, ch)
      ensures log == old(log) + r.log
    {
      var delay, left, next := opts.baseDelay, attempts, ch;
      ghost var all := Reconnects(opts.maxReconnectTries, opts.baseDelay, opts.maxDelay, attempts, ch);
      var done: seq<Effect> := [];
      AfterNothing(all);
      for attempt := 1 to opts.maxReconnectTries + 1
        invariant log == old(log) + done
        invariant all == Reconnects(opts.maxReconnectTries + 1 - attempt, delay, opts.maxDelay, left, next).After(done)
      {
        var a := Head(left);
        ghost var tries := opts.maxReconnectTries + 1 - attempt;
        if a.contextDone {
          EndedAttempt(done, tries, delay, opts.maxDelay, left, next);
          return Reconnected(done, false, next, Tail(left));
        }
        var ok := TryOnce(a, delay, next);
        var effects := [Waited(delay)] + TryEffects(a, next).0;
        Regroup(old(log), done, effects);
        if ok {
          OpenedAttempt(done, tries, delay, opts.maxDelay, left, next);
          return Reconnected(done + effects, true, next, Tail(left));
        }
        FailedAttempt(done, tries, delay, opts.maxDelay, left, next);
        done, left := done + effects, Tail(left);
        delay := NextBackoff(delay, opts.maxDelay);
        next := next + 1;
      }
      NoAttemptLeft(done, delay, opts.maxDelay, left, next);
      return Reconnected(done, false, next, left);
    }

    /** The whole life of one consumer on the open channel `ch`. */
    method RunConsumer(signals: seq<Signal>, attempts: seq<Attempt>, ch: nat)
      requires opts.maxReconnectTries >= 0
      modifies this`log
      ensures log == old(log) + Consumed(opts, signals, attempts, ch)
    {
      var signalsLeft, attemptsLeft, current := signals, attempts, ch;
      while true
        invariant log + Consumed(opts, signalsLeft, attemptsLeft, current)
            == old(log) + Consumed(opts, signals, attempts, ch)
        decreases |signalsLeft|
      {
        ghost var before, ahead := log, Consumed(opts, signalsLeft, attemptsLeft, current);
        ghost var drained := Drained(signalsLeft).0;
        var stopped, rest := DrainDeliveries(signalsLeft);
        log := log + [Closed(current)];
        Regroup(before, drained, [Closed(current)]);
        if stopped {
          assert ahead == drained + [Closed(current)];
          return;
        }
        var r := ReconnectConsumer(attemptsLeft, current + 1);
        ghost var part := drained + [Closed(current)] + r.log;
        Regroup(before, drained + [Closed(current)], r.log);
        assert log == before + part;
        if !r.open {
          assert ahead == part;
          return;
        }
        Regroup(before, part, Consumed(opts, rest, r.attempts, r.ch));
        assert ahead == part + Consumed(opts, rest, r.attempts, r.ch);
        signalsLeft, attemptsLeft, current := rest, r.attempts, r.ch;
      }
    }
  }
}
