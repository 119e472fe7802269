/** Stopping the job worker: the consumer goroutines, the delivery goroutines of the queue that run
    the handlers, the retry goroutines with their timers, the WaitGroup and the cancelled context, as
    steps that interleave freely. */
module WorkerShutdown {

  /** A consumer goroutine, registered on the WaitGroup until it is gone. */
  datatype Consumer =
    | Opening         // inside queue.Consume
    | Blocked         // waiting for cancellation
    | ConsumerLeaving // about to call wg.Done
    | ConsumerGone

  /** The delivery goroutine that a successful queue.Consume leaves behind, not registered anywhere. */
  datatype Delivery = Draining | InHandler | Stopped

  /** A retry goroutine; each state is about to do what it is named after. */
  datatype Retry =
    | Starting        // registered on the WaitGroup, not yet running
    | Selecting       // waiting for its timer or for cancellation
    | CheckingContext // the timer won; the context is checked once more
    | Publishing      // the check passed: Publish is about to be called
    | InPublish       // inside Publish
    | Leaving         // about to call wg.Done
    | Gone

  datatype Shutdown = Waiting | Drained | ReturnedNil | ReturnedError

  /** A delivery goroutine has the number of the consumer that made it. */
  datatype State = State(
    cancelled: bool,
    counter: int,
    consumers: map<nat, Consumer>,
    deliveries: map<nat, Delivery>,
    retries: map<nat, Retry>,
    shutdowns: map<nat, Shutdown>,
    published: nat)

  const INITIAL := State(false, 0, map[], map[], map[], map[], 0)

  datatype Action =
    | StartConsumer(id: nat)
    | ConsumeReturns(id: nat, ok: bool)
    | Unblock(id: nat)
    | EndConsumer(id: nat)
    | Deliver(id: nat)              // select may pick a delivery even after cancellation
    | EndHandler(id: nat)
    | StopDelivery(id: nat)         // on cancellation, or because reconnecting failed
    | ScheduleRetry(handler: nat, id: nat)
    | AdvanceRetry(id: nat, byTimer: bool)
    | BeginShutdown(id: nat)
    | WaitReturns(id: nat)
    | ReturnNil(id: nat)
    | TimeOut(id: nat)

  predicate ConsumerIs(s: State, id: nat, c: Consumer) {
    id in s.consumers && s.consumers[id] == c
  }

  predicate DeliveryIs(s: State, id: nat, d: Delivery) {
    id in s.deliveries && s.deliveries[id] == d
  }

  predicate ShutdownIs(s: State, id: nat, sd: Shutdown) {
    id in s.shutdowns && s.shutdowns[id] == sd
  }

  predicate Enabled(s: State, a: Action) {
    match a
    case StartConsumer(id) => id !in s.consumers
    case ConsumeReturns(id, _) => ConsumerIs(s, id, Opening)
    case Unblock(id) => ConsumerIs(s, id, Blocked) && s.cancelled
    case EndConsumer(id) => ConsumerIs(s, id, ConsumerLeaving)
    case Deliver(id) => DeliveryIs(s, id, Draining)
    case EndHandler(id) => DeliveryIs(s, id, InHandler)
    case StopDelivery(id) => DeliveryIs(s, id, Draining)
    case ScheduleRetry(h, id) => DeliveryIs(s, h, InHandler) && id !in s.retries
    case AdvanceRetry(id, byTimer) =>
      id in s.retries && s.retries[id] != Gone && (s.retries[id].Selecting? && !byTimer ==> s.cancelled)
    case BeginShutdown(id) => id !in s.shutdowns
    case WaitReturns(id) => ShutdownIs(s, id, Waiting) && s.counter == 0
    case ReturnNil(id) => ShutdownIs(s, id, Drained)
    case TimeOut(id) => ShutdownIs(s, id, Waiting) || ShutdownIs(s, id, Drained)
  }

  function NextRetry(r: Retry, cancelled: bool, byTimer: bool): Retry {
    match r
    case Starting => Selecting
    case Selecting => if byTimer then CheckingContext else Leaving
    case CheckingContext => if cancelled then Leaving else Publishing
    case Publishing => InPublish
    case InPublish => Leaving
    case Leaving => Gone
    case Gone => Gone
  }

  function Do(s: State, a: Action): State
    requires Enabled(s, a)
  {
    match a
    case StartConsumer(id) => s.(counter := s.counter + 1, consumers := s.consumers[id := Opening])
    case ConsumeReturns(id, ok) =>
      if ok then s.(consumers := s.consumers[id := Blocked], deliveries := s.deliveries[id := Draining])
      else s.(consumers := s.consumers[id := ConsumerLeaving])
    case Unblock(id) => s.(consumers := s.consumers[id := ConsumerLeaving])
    case EndConsumer(id) => s.(counter := s.counter - 1, consumers := s.consumers[id := ConsumerGone])
    case Deliver(id) => s.(deliveries := s.deliveries[id := InHandler])
    case EndHandler(id) => s.(deliveries := s.deliveries[id := Draining])
    case StopDelivery(id) => s.(deliveries := s.deliveries[id := Stopped])
    case ScheduleRetry(_, id) => s.(counter := s.counter + 1, retries := s.retries[id := Starting])
    case AdvanceRetry(id, byTimer) =>
      var r := s.retries[id];
      s.(retries := s.retries[id := NextRetry(r, s.cancelled, byTimer)],
         counter := if r.Leaving? then s.counter - 1 else s.counter,
         published := if r.Publishing? then s.published + 1 else s.published)
    case BeginShutdown(id) => s.(cancelled := true, shutdowns := s.shutdowns[id := Waiting])
    case WaitReturns(id) => s.(shutdowns := s.shutdowns[id := Drained])
    case ReturnNil(id) => s.(shutdowns := s.shutdowns[id := ReturnedNil])
    case TimeOut(id) => s.(shutdowns := s.shutdowns[id := ReturnedError])
  }

  predicate Runs(s: State, actions: seq<Action>)
    decreases |actions|
  {
    actions == [] || (Enabled(s, actions[0]) && Runs(Do(s, actions[0]), actions[1..]))
  }

  function After(s: State, actions: seq<Action>): State
    requires Runs(s, actions)
    decreases |actions|
  {
    if actions == [] then s else After(Do(s, actions[0]), actions[1..])
  }

  // ---------------------------------------------------------------- invariant

  function Active(retries: map<nat, Retry>): set<nat> {
    set id | id in retries && retries[id] != Gone
  }

  function Consuming(consumers: map<nat, Consumer>): set<nat> {
    set id | id in consumers && consumers[id] != ConsumerGone
  }

  predicate CommittedToPublish(r: Retry) {
    r.Publishing? || r.InPublish?
  }

  ghost predicate Quiet(s: State) {
    s.cancelled && forall id :: id in s.retries ==> !CommittedToPublish(s.retries[id])
  }

  predicate Counted(s: State) {
    s.counter == |Consuming(s.consumers)| + |Active(s.retries)|
  }

  ghost predicate Inv(s: State) {
    && Counted(s)
    && (forall j :: j in s.shutdowns ==> s.cancelled)
    && (forall j :: j in s.shutdowns && (s.shutdowns[j].Drained? || s.shutdowns[j].ReturnedNil?) ==> Quiet(s))
  }

  lemma ActiveAfter(retries: map<nat, Retry>, id: nat, r: Retry)
    ensures Active(retries[id := r]) == if r.Gone? then Active(retries) - {id} else Active(retries) + {id}
  {
  }

  lemma ConsumingAfter(consumers: map<nat, Consumer>, id: nat, c: Consumer)
    ensures Consuming(consumers[id := c])
         == if c.ConsumerGone? then Consuming(consumers) - {id} else Consuming(consumers) + {id}
  {
  }

  lemma ConsumerStepKeepsCount(s: State, a: Action)
    requires Counted(s) && Enabled(s, a)
    requires a.StartConsumer? || a.ConsumeReturns? || a.Unblock? || a.EndConsumer?
    ensures Counted(Do(s, a))
  {
    ConsumingAfter(s.consumers, a.id, Do(s, a).consumers[a.id]);
    if !a.StartConsumer? {
      assert a.id in Consuming(s.consumers);
      assert Consuming(s.consumers) + {a.id} == Consuming(s.consumers);
    }
  }

  lemma RetryStepKeepsCount(s: State, a: Action)
    requires Counted(s) && Enabled(s, a) && (a.ScheduleRetry? || a.AdvanceRetry?)
    ensures Counted(Do(s, a))
  {
    ActiveAfter(s.retries, a.id, Do(s, a).retries[a.id]);
    if a.AdvanceRetry? {
      assert a.id in Active(s.retries);
      assert Active(s.retries) + {a.id} == Active(s.retries);
    }
  }

  /** Cancelled and with nobody past the check, nothing can get past it any more. */
  lemma QuietStays(s: State, a: Action)
    requires Enabled(s, a) && Quiet(s)
    ensures Quiet(Do(s, a)) && Do(s, a).published == s.published
  {
  }

  /** A wait that returns finds every consumer and every retry gone. */
  lemma NobodyLeft(s: State)
    requires Counted(s) && s.counter == 0
    ensures forall id :: id in s.consumers ==> s.consumers[id].ConsumerGone?
    ensures forall id :: id in s.retries ==> s.retries[id].Gone?
  {
    assert forall id :: id in s.consumers ==> id !in Consuming(s.consumers);
    assert forall id :: id in s.retries ==> id !in Active(s.retries);
  }

  lemma StepKeepsInv(s: State, a: Action)
    requires Inv(s) && Enabled(s, a)
    ensures Inv(Do(s, a))
  {
    if a.StartConsumer? || a.ConsumeReturns? || a.Unblock? || a.EndConsumer? { ConsumerStepKeepsCount(s, a); }
    if a.ScheduleRetry? || a.AdvanceRetry? { RetryStepKeepsCount(s, a); }
    if Quiet(s) { QuietStays(s, a); }
    if a.WaitReturns? { NobodyLeft(s); }
  }

  lemma {:induction false} RunKeepsInv(s: State, actions: seq<Action>)
    requires Inv(s) && Runs(s, actions)
    ensures Inv(After(s, actions))
    decreases |actions|
  {
    if actions == [] {
    } else {
      StepKeepsInv(s, actions[0]);
      RunKeepsInv(Do(s, actions[0]), actions[1..]);
    }
  }

  lemma InitialInv()
    ensures Inv(INITIAL)
  {
    assert Consuming(INITIAL.consumers) == {} && Active(INITIAL.retries) == {};
  }

  lemma {:induction false} QuietForever(s: State, actions: seq<Action>)
    requires Quiet(s) && Runs(s, actions)
    ensures Quiet(After(s, actions)) && After(s, actions).published == s.published
    decreases |actions|
  {
    if actions == [] {
    } else {
      QuietStays(s, actions[0]);
      QuietForever(Do(s, actions[0]), actions[1..]);
    }
  }

  /** Once a Shutdown has returned nil, no retry publish is in progress, and none ever starts, not even
      by retries that handlers still running register afterwards. */
  lemma {:induction false} NoPublishAfterShutdown(run: seq<Action>, j: nat, later: seq<Action>)
    requires Runs(INITIAL, run) && ShutdownIs(After(INITIAL, run), j, ReturnedNil)
    requires Runs(After(INITIAL, run), later)
    ensures var end := After(After(INITIAL, run), later);
            && (forall id :: id in end.retries ==> !CommittedToPublish(end.retries[id]))
            && end.published == After(INITIAL, run).published
  {
    InitialInv();
    RunKeepsInv(INITIAL, run);
    QuietForever(After(INITIAL, run), later);
  }

  // ---------------------------------------------------------------- what a retry does

  lemma {:induction false} Prepend(s: State, a: Action, rest: seq<Action>)
    requires Enabled(s, a) && Runs(Do(s, a), rest)
    ensures Runs(s, [a] + rest) && After(s, [a] + rest) == After(Do(s, a), rest)
  {
    assert ([a] + rest)[1..] == rest;
  }

  /** A retry goroutine from its start on, with its timer firing: four steps. */
  function TimerFires(id: nat): seq<Action> {
    var step := AdvanceRetry(id, true);
    [step] + ([step] + ([step] + ([step] + [])))
  }

  /** A scheduled retry whose timer fires is published, once, if and only if the context is alive at the
      check; otherwise it leaves the WaitGroup unpublished. */
  lemma {:induction false} RetryPublishesIff(s: State, id: nat)
    requires id in s.retries && s.retries[id] == Starting
    ensures Runs(s, TimerFires(id))
    ensures var end := After(s, TimerFires(id));
            && end.published == s.published + (if s.cancelled then 0 else 1)
            && end.retries == s.retries[id := if s.cancelled then Gone else InPublish]
            && end.counter == if s.cancelled then s.counter - 1 else s.counter
  {
    var step := AdvanceRetry(id, true);
    var s1 := Do(s, step);
    var s2 := Do(s1, step);
    var s3 := Do(s2, step);
    Prepend(s3, step, []);
    Prepend(s2, step, [step] + []);
    Prepend(s1, step, [step] + ([step] + []));
    Prepend(s, step, [step] + ([step] + ([step] + [])));
  }

  // ---------------------------------------------------------------- the wait ends

  /** How many steps a retry has ahead of it once the context is cancelled. */
  function StepsLeft(r: Retry): nat {
    match r
    case Starting => 4
    case Selecting => 3
    case CheckingContext => 2
    case Publishing => 3
    case InPublish => 2
    case Leaving => 1
    case Gone => 0
  }

  /** After cancellation a retry can leave without waiting for its timer, and it publishes only if it was
      about to. */
  lemma {:induction false} RetryLeaves(s: State, id: nat) returns (acts: seq<Action>)
    requires s.cancelled && id in s.retries && s.retries[id] != Gone
    ensures Runs(s, acts) && forall i :: 0 <= i < |acts| ==> acts[i] == AdvanceRetry(id, false)
    ensures var r := s.retries[id];
            After(s, acts) == s.(retries := s.retries[id := Gone], counter := s.counter - 1,
                                 published := if r.Publishing? then s.published + 1 else s.published)
    decreases StepsLeft(s.retries[id])
  {
    var step := AdvanceRetry(id, false);
    var next := Do(s, step);
    if s.retries[id].Leaving? {
      acts := [];
    } else {
      acts := RetryLeaves(next, id);
      assert s.retries[id := next.retries[id]][id := Gone] == s.retries[id := Gone];
    }
    Prepend(s, step, acts);
    acts := [step] + acts;
  }

  /** After cancellation a consumer can leave, whether or not its queue.Consume has returned. */
  lemma {:induction false} ConsumerLeaves(s: State, id: nat) returns (acts: seq<Action>)
    requires s.cancelled && id in s.consumers && s.consumers[id] != ConsumerGone
    ensures Runs(s, acts)
    ensures var end := After(s, acts);
            && end.consumers == s.consumers[id := ConsumerGone] && end.retries == s.retries && end.cancelled
            && end.shutdowns == s.shutdowns && end.counter == s.counter - 1
    decreases match s.consumers[id] case Opening => 2 case Blocked => 1 case _ => 0
  {
    var step := match s.consumers[id]
      case Opening => ConsumeReturns(id, true)
      case Blocked => Unblock(id)
      case _ => EndConsumer(id);
    if s.consumers[id].ConsumerLeaving? {
      acts := [];
    } else {
      acts := ConsumerLeaves(Do(s, step), id);
    }
    Prepend(s, step, acts);
    acts := [step] + acts;
  }

  lemma {:induction false} Join(s: State, first: seq<Action>, second: seq<Action>)
    requires Runs(s, first) && Runs(After(s, first), second)
    ensures Runs(s, first + second) && After(s, first + second) == After(After(s, first), second)
    decreases |first|
  {
    if first == [] {
      assert first + second == second;
    } else {
      Join(Do(s, first[0]), first[1..], second);
      Prepend(s, first[0], first[1..] + second);
      assert first + second == [first[0]] + (first[1..] + second);
    }
  }

  /** One registered goroutine leaves. */
  lemma {:induction false} OneLeaves(s: State) returns (acts: seq<Action>)
    requires Counted(s) && s.cancelled && s.counter > 0
    ensures Runs(s, acts)
    ensures var end := After(s, acts);
            Counted(end) && end.cancelled && end.shutdowns == s.shutdowns && end.counter == s.counter - 1
  {
    if Active(s.retries) != {} {
      var id :| id in Active(s.retries);
      acts := RetryLeaves(s, id);
      ActiveAfter(s.retries, id, Gone);
    } else {
      var id :| id in Consuming(s.consumers);
      acts := ConsumerLeaves(s, id);
      ConsumingAfter(s.consumers, id, ConsumerGone);
    }
  }

  lemma {:induction false} AllLeave(s: State) returns (acts: seq<Action>)
    requires Counted(s) && s.cancelled
    ensures Runs(s, acts)
    ensures var end := After(s, acts); end.counter == 0 && end.shutdowns == s.shutdowns
    decreases s.counter
  {
    if s.counter == 0 {
      acts := [];
    } else {
      var first := OneLeaves(s);
      var rest := AllLeave(After(s, first));
      Join(s, first, rest);
      acts := first + rest;
    }
  }

  /** Shutdown is never stuck: in every reachable state in which one is waiting, the registered goroutines
      can all leave and it can return nil. */
  lemma {:induction false} ShutdownCanFinish(run: seq<Action>, j: nat) returns (acts: seq<Action>)
    requires Runs(INITIAL, run) && ShutdownIs(After(INITIAL, run), j, Waiting)
    ensures Runs(After(INITIAL, run), acts) && ShutdownIs(After(After(INITIAL, run), acts), j, ReturnedNil)
  {
    var s := After(INITIAL, run);
    InitialInv();
    RunKeepsInv(INITIAL, run);
    var leave := AllLeave(s);
    var left := After(s, leave);
    var waited := Do(left, WaitReturns(j));
    Prepend(waited, ReturnNil(j), []);
    Prepend(left, WaitReturns(j), [ReturnNil(j)] + []);
    Join(s, leave, [WaitReturns(j)] + ([ReturnNil(j)] + []));
    acts := leave + ([WaitReturns(j)] + ([ReturnNil(j)] + []));
  }

  // ---------------------------------------------------------------- handlers after the shutdown

  predicate NoStart(actions: seq<Action>) {
    forall i :: 0 <= i < |actions| ==> !actions[i].StartConsumer?
  }

  ghost predicate HandlerRuns(s: State) {
    exists id :: DeliveryIs(s, id, InHandler)
  }

  ghost predicate AllStopped(s: State) {
    forall id :: id in s.deliveries ==> s.deliveries[id].Stopped?
  }

  ghost predicate NoneOpening(s: State) {
    forall id :: id in s.consumers ==> !s.consumers[id].Opening?
  }

  lemma NoneOpeningStep(s: State, a: Action)
    requires NoneOpening(s) && Enabled(s, a) && !a.StartConsumer?
    ensures NoneOpening(Do(s, a))
    ensures AllStopped(s) ==> AllStopped(Do(s, a))
  {
  }

  lemma {:induction false} NoneOpeningStays(s: State, actions: seq<Action>)
    requires NoneOpening(s) && Runs(s, actions) && NoStart(actions)
    ensures NoneOpening(After(s, actions))
    ensures AllStopped(s) ==> AllStopped(After(s, actions))
    decreases |actions|
  {
    if actions == [] {
    } else {
      NoneOpeningStep(s, actions[0]);
      NoneOpeningStays(Do(s, actions[0]), actions[1..]);
    }
  }

  ghost predicate HandlersAreOver(s: State) {
    forall later :: Runs(s, later) && NoStart(later) ==> !HandlerRuns(After(s, later))
  }

  lemma UnstoppedMayHandle(s: State, id: nat)
    requires id in s.deliveries && !s.deliveries[id].Stopped?
    ensures !HandlersAreOver(s)
  {
    var later := if s.deliveries[id].Draining? then [Deliver(id)] else [];
    if s.deliveries[id].Draining? { assert later[1..] == []; }
    assert Runs(s, later) && NoStart(later);
    assert DeliveryIs(After(s, later), id, InHandler);
  }

  /** The WaitGroup does not cover the delivery goroutines. After the wait of a Shutdown has returned,
      and with no Start since, no handler is running or ever will be if and only if every delivery
      goroutine has stopped. */
  lemma {:induction false} HandlersAreOverIff(before: seq<Action>, j: nat, after: seq<Action>)
    requires Runs(INITIAL, before) && Enabled(After(INITIAL, before), WaitReturns(j))
    requires Runs(Do(After(INITIAL, before), WaitReturns(j)), after) && NoStart(after)
    ensures var s := After(Do(After(INITIAL, before), WaitReturns(j)), after);
            HandlersAreOver(s) <==> AllStopped(s)
  {
    var waited := Do(After(INITIAL, before), WaitReturns(j));
    var s := After(waited, after);
    InitialInv();
    RunKeepsInv(INITIAL, before);
    NobodyLeft(After(INITIAL, before));
    NoneOpeningStays(waited, after);
    if AllStopped(s) {
      forall later | Runs(s, later) && NoStart(later) ensures !HandlerRuns(After(s, later)) {
        NoneOpeningStays(s, later);
      }
    } else {
      var id :| id in s.deliveries && !s.deliveries[id].Stopped?;
      UnstoppedMayHandle(s, id);
    }
  }

  /** A Shutdown that returns nil, with its only consumer gone, while that consumer's delivery goroutine
      is in a handler, which then schedules a retry. */
  function Overtaken(): seq<Action> {
    [StartConsumer(0)] + ([ConsumeReturns(0, true)] + ([Deliver(0)] + ([BeginShutdown(0)] + ([Unblock(0)]
    + ([EndConsumer(0)] + ([WaitReturns(0)] + ([ReturnNil(0)] + ([ScheduleRetry(0, 0)] + []))))))))
  }

  lemma HandlerMayOutliveShutdown()
    ensures Runs(INITIAL, Overtaken())
    ensures ShutdownIs(After(INITIAL, Overtaken()), 0, ReturnedNil) && HandlerRuns(After(INITIAL, Overtaken()))
    ensures After(INITIAL, Overtaken()).retries == map[0 := Starting]
  {
    var s1 := Do(INITIAL, StartConsumer(0));
    var s2 := Do(s1, ConsumeReturns(0, true));
    var s3 := Do(s2, Deliver(0));
    var s4 := Do(s3, BeginShutdown(0));
    var s5 := Do(s4, Unblock(0));
    var s6 := Do(s5, EndConsumer(0));
    var s7 := Do(s6, WaitReturns(0));
    var s8 := Do(s7, ReturnNil(0));
    var s9 := Do(s8, ScheduleRetry(0, 0));
    var r8 := [ScheduleRetry(0, 0)] + [];
    var r7 := [ReturnNil(0)] + r8;
    var r6 := [WaitReturns(0)] + r7;
    var r5 := [EndConsumer(0)] + r6;
    var r4 := [Unblock(0)] + r5;
    Prepend(s8, ScheduleRetry(0, 0), []);
    Prepend(s7, ReturnNil(0), r8);
    Prepend(s6, WaitReturns(0), r7);
    Prepend(s5, EndConsumer(0), r6);
    Prepend(s4, Unblock(0), r5);
    Prepend(s3, BeginShutdown(0), r4);
    Prepend(s2, Deliver(0), [BeginShutdown(0)] + r4);
    Prepend(s1, ConsumeReturns(0, true), [Deliver(0)] + ([BeginShutdown(0)] + r4));
    Prepend(INITIAL, StartConsumer(0), [ConsumeReturns(0, true)] + ([Deliver(0)] + ([BeginShutdown(0)] + r4)));
    assert DeliveryIs(s9, 0, InHandler);
  }
}

/** What one job goes through: attempts, retries and their delays. */
module JobRetries {
  import opened Options

  datatype Job = Job(jobType: string, attempts: int, maxRetry: int)

  const DEFAULT_MAX_RETRY: int := 3
  const SECOND: int := 1_000_000_000
  const INT64_MAX: int := 0x7FFF_FFFF_FFFF_FFFF

  function NewJob(jobType: string): Job {
    Job(jobType, 0, DEFAULT_MAX_RETRY)
  }

  function NewJobWithRetry(jobType: string, maxRetry: int): Job {
    NewJob(jobType).(maxRetry := maxRetry)
  }

  /** Two's-complement wrap-around to 64 bits. */
  function Wrap64(x: int): int {
    (x + 0x8000_0000_0000_0000) % 0x1_0000_0000_0000_0000 - 0x8000_0000_0000_0000
  }

  /** The square of the attempts in seconds, as nanoseconds in 64-bit arithmetic. */
  function DelayNs(attempts: int): int {
    Wrap64(Wrap64(attempts * attempts) * SECOND)
  }

  /** A retry that handleMessage scheduled. */
  datatype Retry = Retry(job: Job, delayNs: int)

  /** What happens at one delivery: whether the handler fails if it runs, and whether the job can be
      encoded again for a retry. */
  datatype Trial = Trial(fails: bool, encodes: bool)

  /** One delivery: whether the handler ran, and the retry scheduled. */
  function Delivered(handlers: set<string>, job: Job, trial: Trial): (bool, Option<Retry>) {
    var tried := job.(attempts := job.attempts + 1);
    if tried.jobType !in handlers then (false, None)
    else if trial.fails && tried.attempts < tried.maxRetry && trial.encodes then
      (true, Some(Retry(tried, DelayNs(tried.attempts))))
    else (true, None)
  }

  /** Deliveries of one job, each retry delivered exactly once; the end of the script stands for a retry
      lost to shutdown or to a failed publish. */
  function Executions(handlers: set<string>, job: Job, script: seq<Trial>): nat
    decreases |script|
  {
    if script == [] then 0
    else
      var (ran, retry) := Delivered(handlers, job, script[0]);
      (if ran then 1 else 0) + if retry.Some? then Executions(handlers, retry.value.job, script[1..]) else 0
  }

  function Delays(handlers: set<string>, job: Job, script: seq<Trial>): seq<int>
    decreases |script|
  {
    if script == [] then []
    else
      var (_, retry) := Delivered(handlers, job, script[0]);
      if retry.None? then [] else [retry.value.delayNs] + Delays(handlers, retry.value.job, script[1..])
  }

  function Sum(s: seq<int>): int {
    if s == [] then 0 else s[0] + Sum(s[1..])
  }

  function Budget(job: Job): nat {
    if job.maxRetry - job.attempts > 1 then job.maxRetry - job.attempts else 1
  }

  /** The handler never runs more often than the budget, whatever fails. */
  lemma {:induction false} ExecutionsWithinBudget(handlers: set<string>, job: Job, script: seq<Trial>)
    ensures Executions(handlers, job, script) <= Budget(job)
    decreases |script|
  {
    if script == [] {
    } else {
      var (_, retry) := Delivered(handlers, job, script[0]);
      if retry.Some? { ExecutionsWithinBudget(handlers, retry.value.job, script[1..]); }
    }
  }

  /** A fresh job runs at most max(1, MaxRetry) times. */
  lemma {:induction false} FreshJobExecutions(handlers: set<string>, jobType: string, maxRetry: int, script: seq<Trial>)
    ensures Executions(handlers, NewJobWithRetry(jobType, maxRetry), script) <= if maxRetry > 1 then maxRetry else 1
  {
    ExecutionsWithinBudget(handlers, NewJobWithRetry(jobType, maxRetry), script);
  }

  /** The handler fails and the job can be encoded, so that a retry is due if the budget allows. */
  predicate CallsForRetry(trial: Trial) {
    trial.fails && trial.encodes
  }

  ghost predicate AllFail(script: seq<Trial>) {
    forall i :: 0 <= i < |script| ==> CallsForRetry(script[i])
  }

  /** The position of the first trial after which no retry is due, or the length. */
  function Ending(script: seq<Trial>): (n: nat)
    ensures n <= |script| && (forall i :: 0 <= i < n ==> CallsForRetry(script[i]))
    ensures n < |script| ==> !CallsForRetry(script[n])
  {
    if script == [] || !CallsForRetry(script[0]) then 0 else 1 + Ending(script[1..])
  }

  function Min(a: nat, b: nat): nat {
    if a <= b then a else b
  }

  /** How often the handler runs: up to the first trial that calls for no retry, as far as the script
      goes, and within the budget. */
  lemma {:induction false} ExecutionsAreExact(handlers: set<string>, job: Job, script: seq<Trial>)
    ensures job.jobType !in handlers ==> Executions(handlers, job, script) == 0
    ensures job.jobType in handlers ==>
              Executions(handlers, job, script) == Min(Budget(job), Min(|script|, Ending(script) + 1))
    decreases |script|
  {
    if script == [] {
    } else {
      var (_, retry) := Delivered(handlers, job, script[0]);
      if retry.Some? { ExecutionsAreExact(handlers, retry.value.job, script[1..]); }
    }
  }

  /** Which retries are scheduled: one for each trial before the first that calls for none, within the
      budget, each with the delay of its attempt. */
  lemma {:induction false} DelaysAreExact(handlers: set<string>, job: Job, script: seq<Trial>)
    ensures job.jobType !in handlers ==> Delays(handlers, job, script) == []
    ensures job.jobType in handlers ==>
              && |Delays(handlers, job, script)| == Min(Budget(job) - 1, Ending(script))
              && forall i :: 0 <= i < |Delays(handlers, job, script)| ==>
                   Delays(handlers, job, script)[i] == DelayNs(job.attempts + 1 + i)
    decreases |script|
  {
    if script == [] {
    } else {
      var (_, retry) := Delivered(handlers, job, script[0]);
      if retry.Some? {
        DelaysAreExact(handlers, retry.value.job, script[1..]);
        var rest := Delays(handlers, retry.value.job, script[1..]);
        forall i | 0 < i <= |rest| ensures ([retry.value.delayNs] + rest)[i] == DelayNs(job.attempts + 1 + i) {
          assert rest[i - 1] == DelayNs((job.attempts + 1) + 1 + (i - 1));
        }
      }
    }
  }

  /** A job that succeeds the first time runs once and is not scheduled again. */
  lemma {:induction false} SuccessIsFinal(handlers: set<string>, job: Job, script: seq<Trial>)
    requires job.jobType in handlers && script != [] && !script[0].fails
    ensures Executions(handlers, job, script) == 1 && Delays(handlers, job, script) == []
  {
    ExecutionsAreExact(handlers, job, script);
    DelaysAreExact(handlers, job, script);
  }

  /** A job made without a retry limit that always fails runs three times, one and four seconds apart. */
  lemma {:induction false} DefaultJobRuns(handlers: set<string>, jobType: string, script: seq<Trial>)
    requires jobType in handlers && AllFail(script) && |script| >= 3
    ensures Executions(handlers, NewJob(jobType), script) == 3
    ensures Delays(handlers, NewJob(jobType), script) == [1_000_000_000, 4_000_000_000]
  {
    ExecutionsAreExact(handlers, NewJob(jobType), script);
    DelaysAreExact(handlers, NewJob(jobType), script);
    assert DelayNs(1) == 1_000_000_000 && DelayNs(2) == 4_000_000_000;
  }

  /** A job that always fails uses its whole budget. */
  lemma {:induction false} AlwaysFailingUsesBudget(handlers: set<string>, job: Job, script: seq<Trial>)
    requires job.jobType in handlers && AllFail(script) && |script| >= Budget(job)
    ensures Executions(handlers, job, script) == Budget(job)
    decreases |script|
  {
    var (_, retry) := Delivered(handlers, job, script[0]);
    if retry.Some? { AlwaysFailingUsesBudget(handlers, retry.value.job, script[1..]); }
  }

  // ---------------------------------------------------------------- delays

  const LAST_EXACT_ATTEMPT: int := 96038

  lemma SquareMonotone(a: nat, b: nat)
    requires a <= b
    ensures a * a <= b * b
  {
  }

  /** The 64-bit delay is the intended one exactly up to attempt 96038. */
  lemma DelayIsExact(attempts: nat)
    ensures DelayNs(attempts) == attempts * attempts * SECOND <==> attempts <= LAST_EXACT_ATTEMPT
  {
    if attempts <= LAST_EXACT_ATTEMPT {
      SquareMonotone(attempts, LAST_EXACT_ATTEMPT);
    } else {
      SquareMonotone(LAST_EXACT_ATTEMPT + 1, attempts);
      assert attempts * attempts * SECOND > INT64_MAX;
    }
  }

  /** All delays of an always failing fresh job are as intended exactly when MaxRetry is at most 96039. */
  lemma DelaysExactUpTo(maxRetry: nat)
    ensures (forall a :: 1 <= a < maxRetry ==> DelayNs(a) == a * a * SECOND) <==> maxRetry <= LAST_EXACT_ATTEMPT + 1
  {
    forall a: nat ensures DelayNs(a) == a * a * SECOND <==> a <= LAST_EXACT_ATTEMPT { DelayIsExact(a); }
    if maxRetry > LAST_EXACT_ATTEMPT + 1 {
      var a := LAST_EXACT_ATTEMPT + 1;
      assert 1 <= a < maxRetry && DelayNs(a) != a * a * SECOND;
    }
  }

  /** The squares of a + 1 up to b. */
  function SumSquares(a: nat, b: nat): nat
    decreases b - a
  {
    if a >= b then 0 else (a + 1) * (a + 1) + SumSquares(a + 1, b)
  }

  function Pyramid(n: nat): int {
    n * (n + 1) * (2 * n + 1)
  }

  lemma PyramidStep(n: nat)
    ensures Pyramid(n + 1) == Pyramid(n) + 6 * ((n + 1) * (n + 1))
  {
  }

  lemma {:induction false} SquarePyramid(a: nat, b: nat)
    requires a <= b
    ensures 6 * SumSquares(a, b) == Pyramid(b) - Pyramid(a)
    decreases b - a
  {
    if a < b {
      SquarePyramid(a + 1, b);
      PyramidStep(a);
    }
  }

  lemma Distribute(a: int, b: int)
    ensures (a + b) * SECOND == a * SECOND + b * SECOND
  {
  }

  lemma {:induction false} DelaysSum(handlers: set<string>, job: Job, script: seq<Trial>)
    requires job.jobType in handlers && AllFail(script) && |script| >= Budget(job)
    requires 0 <= job.attempts < job.maxRetry <= LAST_EXACT_ATTEMPT + 1
    ensures Sum(Delays(handlers, job, script)) == SumSquares(job.attempts, job.maxRetry - 1) * SECOND
    decreases |script|
  {
    var (_, retry) := Delivered(handlers, job, script[0]);
    if retry.Some? {
      var next := retry.value.job;
      var rest := Delays(handlers, next, script[1..]);
      DelaysSum(handlers, next, script[1..]);
      DelayIsExact(next.attempts);
      Distribute(next.attempts * next.attempts, SumSquares(next.attempts, job.maxRetry - 1));
      assert Delays(handlers, job, script)[1..] == rest;
    }
  }

  /** An always failing fresh job with MaxRetry m runs m times and waits (m-1)m(2m-1)/6 seconds in all. */
  lemma {:induction false} TotalBackoff(handlers: set<string>, jobType: string, m: int, script: seq<Trial>)
    requires jobType in handlers && AllFail(script) && |script| >= m && 1 <= m <= LAST_EXACT_ATTEMPT + 1
    ensures var job := NewJobWithRetry(jobType, m);
            && Executions(handlers, job, script) == m
            && Sum(Delays(handlers, job, script)) == (m - 1) * m * (2 * m - 1) / 6 * SECOND
  {
    var job := NewJobWithRetry(jobType, m);
    AlwaysFailingUsesBudget(handlers, job, script);
    DelaysSum(handlers, job, script);
    SumOfSquares(m);
  }

  lemma {:induction false} SumOfSquares(m: nat)
    requires m >= 1
    ensures SumSquares(0, m - 1) == (m - 1) * m * (2 * m - 1) / 6
  {
    SquarePyramid(0, m - 1);
    assert Pyramid(m - 1) == (m - 1) * m * (2 * m - 1);
  }

  // ---------------------------------------------------------------- handleMessage

  class JobRecord {
    const jobType: string
    const maxRetry: int
    var attempts: int

    constructor (job: Job)
      ensures View() == job
    {
      jobType, maxRetry, attempts := job.jobType, job.maxRetry, job.attempts;
    }

    function View(): Job
      reads this
    {
      Job(jobType, attempts, maxRetry)
    }

    predicate CanRetry()
      reads this
    {
      attempts < maxRetry
    }

    method IncrementAttempts()
      modifies this
      ensures View() == old(View()).(attempts := old(attempts) + 1)
    {
      attempts := attempts + 1;
    }
  }

  /** The handler last registered for a job type. */
  function LastFor(registered: seq<(string, nat)>, jobType: string): Option<nat> {
    if registered == [] then None
    else
      var (t, handler) := registered[|registered| - 1];
      if t == jobType then Some(handler) else LastFor(registered[..|registered| - 1], jobType)
  }

  /** Handlers are known by numbers. */
  class Worker {
    var handlers: map<string, nat>
    var scheduled: seq<Retry>
    ghost var registered: seq<(string, nat)>

    ghost predicate Valid()
      reads this
    {
      forall t :: LastFor(registered, t) == if t in handlers then Some(handlers[t]) else None
    }

    constructor ()
      ensures Valid() && registered == [] && scheduled == []
    {
      handlers, scheduled, registered := map[], [], [];
    }

    /** A later registration for the same type replaces the earlier one. */
    method RegisterHandler(jobType: string, handler: nat)
      requires Valid()
      modifies this
      ensures Valid() && registered == old(registered) + [(jobType, handler)] && scheduled == old(scheduled)
    {
      handlers := handlers[jobType := handler];
      registered := registered + [(jobType, handler)];
      assert registered[..|registered| - 1] == old(registered);
    }

    /** Always acknowledges. `msg` is the decoded job, None if decoding failed; `fails` is what the
        handler returns if it runs, `encodes` whether the job could be encoded for a retry. */
    method HandleMessage(msg: Option<Job>, fails: bool, encodes: bool) returns (ran: Option<nat>)
      requires Valid()
      modifies this
      ensures Valid() && registered == old(registered)
      ensures msg.None? ==> ran.None? && scheduled == old(scheduled)
      ensures msg.Some? ==>
                var (executed, retry) := Delivered(handlers.Keys, msg.value, Trial(fails, encodes));
                && ran == LastFor(registered, msg.value.jobType) && ran.Some? == executed
                && scheduled == old(scheduled) + if retry.Some? then [retry.value] else []
    {
      if msg.None? {
        return None;
      }
      var job := new JobRecord(msg.value);
      job.IncrementAttempts();
      if job.jobType !in handlers {
        return None;
      }
      ran := Some(handlers[job.jobType]);
      if fails && job.CanRetry() {
        RetryJob(job, encodes);
      }
    }

    method RetryJob(job: JobRecord, encodes: bool)
      modifies this`scheduled
      ensures scheduled == old(scheduled) + if encodes then [Retry(job.View(), DelayNs(job.attempts))] else []
    {
      var delay := DelayNs(job.attempts);
      if !encodes {
        return;
      }
      scheduled := scheduled + [Retry(job.View(), delay)];
    }
  }
}
