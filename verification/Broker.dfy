/** The broker of server-sent events: which channel every call reaches, when channels are closed, and
    what a reader gets out of its bounded channel. Every broker method is one atomic step. */
module Broker {
  import opened Options
  import opened Sequences

  datatype Event = Event(id: string, event: string, data: string, retry: int)

  // ---------------------------------------------------------------- one bounded channel

  /** A non-blocking send, or a receive by the reader (which waits while there is nothing). */
  datatype Op = Offer(event: Event) | Receive

  datatype Queue = Queue(buffer: seq<Event>, received: seq<Event>)

  function Handled(capacity: nat, q: Queue, op: Op): Queue {
    match op
    case Offer(e) => if |q.buffer| < capacity then q.(buffer := q.buffer + [e]) else q
    case Receive => if q.buffer == [] then q else Queue(q.buffer[1..], q.received + [q.buffer[0]])
  }

  function Replay(capacity: nat, ops: seq<Op>): Queue {
    if ops == [] then Queue([], []) else Handled(capacity, Replay(capacity, ops[..|ops| - 1]), ops[|ops| - 1])
  }

  lemma {:induction false} ReplaySnoc(capacity: nat, ops: seq<Op>, op: Op)
    ensures Replay(capacity, ops + [op]) == Handled(capacity, Replay(capacity, ops), op)
  {
    assert (ops + [op])[..|ops|] == ops;
  }

  /** The positions of the sends that found room. */
  function KeptAt(capacity: nat, ops: seq<Op>): seq<nat> {
    if ops == [] then []
    else
      var n := |ops| - 1;
      KeptAt(capacity, ops[..n]) + if ops[n].Offer? && |Replay(capacity, ops[..n]).buffer| < capacity then [n] else []
  }

  /** The events sent at some positions. */
  ghost predicate EventsAt(ops: seq<Op>, at: seq<nat>, events: seq<Event>) {
    |at| == |events| && forall i :: 0 <= i < |at| ==> at[i] < |ops| && ops[at[i]] == Offer(events[i])
  }

  ghost predicate Ascending(at: seq<nat>) {
    forall i, j :: 0 <= i < j < |at| ==> at[i] < at[j]
  }

  /** Received and still buffered, in this order, are exactly the events that found room. */
  lemma {:induction false} QueueKeepsWhatFits(capacity: nat, ops: seq<Op>)
    ensures var q := Replay(capacity, ops);
            EventsAt(ops, KeptAt(capacity, ops), q.received + q.buffer) && |q.buffer| <= capacity
    ensures Ascending(KeptAt(capacity, ops))
  {
    if ops == [] {
    } else {
      var n := |ops| - 1;
      var init, q := ops[..n], Replay(capacity, ops[..n]);
      QueueKeepsWhatFits(capacity, init);
      assert ops == init + [ops[n]];
      EventsAtMore(init, ops[n], KeptAt(capacity, init), q.received + q.buffer);
      if ops[n].Offer? && |q.buffer| < capacity {
        Regroup(q.received, q.buffer, [ops[n].event]);
      } else if ops[n].Receive? && q.buffer != [] {
        Regroup(q.received, [q.buffer[0]], q.buffer[1..]);
        assert [q.buffer[0]] + q.buffer[1..] == q.buffer;
      }
    }
  }

  /** One more operation leaves what was sent before, and adds itself if it is a send. */
  lemma EventsAtMore(ops: seq<Op>, op: Op, at: seq<nat>, events: seq<Event>)
    requires EventsAt(ops, at, events) && Ascending(at)
    ensures EventsAt(ops + [op], at, events)
    ensures op.Offer? ==> EventsAt(ops + [op], at + [|ops|], events + [op.event]) && Ascending(at + [|ops|])
  {
  }

  lemma {:induction false} KeptAtExactly(capacity: nat, ops: seq<Op>, p: nat)
    requires p < |ops|
    ensures p in KeptAt(capacity, ops) <==> ops[p].Offer? && |Replay(capacity, ops[..p]).buffer| < capacity
  {
    var n := |ops| - 1;
    if p < n {
      KeptAtExactly(capacity, ops[..n], p);
      assert ops[..n][..p] == ops[..p];
    } else {
      KeptBelow(capacity, ops[..n]);
    }
  }

  lemma {:induction false} KeptBelow(capacity: nat, ops: seq<Op>)
    ensures forall p :: p in KeptAt(capacity, ops) ==> p < |ops|
  {
    if ops == [] {
    } else {
      KeptBelow(capacity, ops[..|ops| - 1]);
    }
  }

  /** Delivery is lossy but in order: what the reader has got are the first of the sends that found
      room, in the order sent; a send is missing exactly if the buffer was full at that moment. */
  lemma {:induction false} DeliveryIsLossyFifo(capacity: nat, ops: seq<Op>)
    ensures var (q, kept) := (Replay(capacity, ops), KeptAt(capacity, ops));
            && Ascending(kept) && |q.received| <= |kept|
            && EventsAt(ops, kept[..|q.received|], q.received)
            && forall p :: 0 <= p < |ops| && ops[p].Offer? ==>
                 (p !in kept <==> |Replay(capacity, ops[..p]).buffer| == capacity)
  {
    var q, kept := Replay(capacity, ops), KeptAt(capacity, ops);
    QueueKeepsWhatFits(capacity, ops);
    forall i | 0 <= i < |q.received| ensures ops[kept[i]] == Offer(q.received[i]) {
      assert (q.received + q.buffer)[i] == q.received[i];
    }
    forall p | 0 <= p < |ops| && ops[p].Offer?
      ensures p !in kept <==> |Replay(capacity, ops[..p]).buffer| == capacity
    {
      KeptAtExactly(capacity, ops, p);
      QueueKeepsWhatFits(capacity, ops[..p]);
    }
  }

  function Receives(k: nat): seq<Op> {
    seq(k, _ => Receive)
  }

  /** A reader that goes on reading gets everything that was kept, in order. */
  lemma {:induction false} ReaderCatchesUp(capacity: nat, ops: seq<Op>, k: nat)
    requires k <= |Replay(capacity, ops).buffer|
    ensures var q := Replay(capacity, ops);
            Replay(capacity, ops + Receives(k)) == Queue(q.buffer[k..], q.received + q.buffer[..k])
  {
    var q := Replay(capacity, ops);
    if k == 0 {
      assert ops + Receives(k) == ops;
    } else {
      ReaderCatchesUp(capacity, ops, k - 1);
      assert ops + Receives(k) == ops + Receives(k - 1) + [Receive];
      ReplaySnoc(capacity, ops + Receives(k - 1), Receive);
      assert q.buffer[..k - 1] + [q.buffer[k - 1]] == q.buffer[..k];
      Regroup(q.received, q.buffer[..k - 1], [q.buffer[k - 1]]);
    }
  }

  // ---------------------------------------------------------------- broker calls

  datatype Client = Client(chan: nat, topics: set<string>)

  datatype Channel = Channel(ops: seq<Op>, closed: bool)

  /** All channels ever made, by number, and the registered clients. Closing a closed channel or
      sending on one panics. */
  datatype State = State(clients: map<string, Client>, channels: seq<Channel>, panicked: bool)

  const INITIAL := State(map[], [], false)

  datatype Call =
    | Subscribe(id: string, topics: set<string>)
    | Unsubscribe(id: string)
    | Broadcast(event: Event)
    | BroadcastToTopic(topic: string, event: Event)
    | SendTo(id: string, event: Event)
    | Close
    | Read(chan: nat)   // the reader of a channel takes its next event

  predicate Selects(call: Call, id: string, topics: set<string>) {
    match call
    case Broadcast(_) => true
    case BroadcastToTopic(topic, _) => topic in topics || topics == {}
    case SendTo(to, _) => to == id
    case _ => false
  }

  function Targets(clients: map<string, Client>, call: Call): set<nat> {
    set id | id in clients && Selects(call, id, clients[id].topics) :: clients[id].chan
  }

  function ChannelsOf(clients: map<string, Client>): set<nat> {
    set id | id in clients :: clients[id].chan
  }

  function AnyClosed(channels: seq<Channel>, which: set<nat>): bool {
    exists n :: 0 <= n < |channels| && n in which && channels[n].closed
  }

  function Sent(s: State, which: set<nat>, e: Event): State {
    s.(channels := seq(|s.channels|, n requires 0 <= n < |s.channels| =>
                         if n in which then s.channels[n].(ops := s.channels[n].ops + [Offer(e)]) else s.channels[n]),
       panicked := s.panicked || AnyClosed(s.channels, which))
  }

  function Shut(s: State, which: set<nat>): State {
    s.(channels := seq(|s.channels|, n requires 0 <= n < |s.channels| =>
                         if n in which then s.channels[n].(closed := true) else s.channels[n]),
       panicked := s.panicked || AnyClosed(s.channels, which))
  }

  function Step(s: State, call: Call): State {
    match call
    case Subscribe(id, topics) =>
      var s1 := if id in s.clients then Shut(s, {s.clients[id].chan}) else s;
      s1.(clients := s.clients[id := Client(|s.channels|, topics)], channels := s1.channels + [Channel([], false)])
    case Unsubscribe(id) =>
      if id in s.clients then Shut(s, {s.clients[id].chan}).(clients := s.clients - {id}) else s
    case Close => Shut(s, ChannelsOf(s.clients)).(clients := map[])
    case Read(n) =>
      if n >= |s.channels| then s
      else s.(channels := s.channels[n := s.channels[n].(ops := s.channels[n].ops + [Receive])])
    case Broadcast(e) => Sent(s, Targets(s.clients, call), e)
    case BroadcastToTopic(_, e) => Sent(s, Targets(s.clients, call), e)
    case SendTo(_, e) => Sent(s, Targets(s.clients, call), e)
  }

  function Run(s: State, calls: seq<Call>): State
    decreases |calls|
  {
    if calls == [] then s else Run(Step(s, calls[0]), calls[1..])
  }

  // ---------------------------------------------------------------- lifecycle

  ghost predicate Inv(s: State) {
    && !s.panicked
    && (forall id :: id in s.clients ==> s.clients[id].chan < |s.channels| && !s.channels[s.clients[id].chan].closed)
    && (forall a, b :: a in s.clients && b in s.clients && s.clients[a].chan == s.clients[b].chan ==> a == b)
    && (forall n :: 0 <= n < |s.channels| && n !in ChannelsOf(s.clients) ==> s.channels[n].closed)
  }

  lemma ResubscribeReplaces(s: State, id: string, topics: set<string>)
    ensures Step(Step(s, Unsubscribe(id)), Subscribe(id, topics)) == Step(s, Subscribe(id, topics))
  {
    assert (s.clients - {id})[id := Client(|s.channels|, topics)] == s.clients[id := Client(|s.channels|, topics)];
  }

  /** A new client on a new channel. */
  function Appended(s: State, id: string, topics: set<string>): State {
    s.(clients := s.clients[id := Client(|s.channels|, topics)], channels := s.channels + [Channel([], false)])
  }

  lemma AppendedKeepsInv(s: State, id: string, topics: set<string>)
    requires Inv(s) && id !in s.clients
    ensures Inv(Appended(s, id, topics))
  {
    var s' := Appended(s, id, topics);
    forall n | 0 <= n < |s'.channels| ensures n in ChannelsOf(s'.clients) || s'.channels[n].closed {
      if n == |s.channels| {
        assert s'.clients[id].chan == n;
      } else if a :| a in s.clients && s.clients[a].chan == n {
        assert s'.clients[a].chan == n;
      } else {
        assert n !in ChannelsOf(s.clients);
      }
    }
  }

  lemma SubscribeAppends(s: State, id: string, topics: set<string>)
    requires id !in s.clients
    ensures Step(s, Subscribe(id, topics)) == Appended(s, id, topics)
  {
  }

  lemma UnsubscribedIsGone(s: State, id: string)
    ensures id !in Step(s, Unsubscribe(id)).clients
  {
  }

  lemma SubscribeKeepsInv(s: State, id: string, topics: set<string>)
    requires Inv(s)
    ensures Inv(Step(s, Subscribe(id, topics)))
  {
    var s1 := Step(s, Unsubscribe(id));
    UnsubscribeKeepsInv(s, id);
    UnsubscribedIsGone(s, id);
    AppendedKeepsInv(s1, id, topics);
    SubscribeAppends(s1, id, topics);
    ResubscribeReplaces(s, id, topics);
  }

  lemma UnsubscribeKeepsInv(s: State, id: string)
    requires Inv(s)
    ensures Inv(Step(s, Unsubscribe(id)))
  {
    var s' := Step(s, Unsubscribe(id));
    forall n | 0 <= n < |s'.channels| ensures n in ChannelsOf(s'.clients) || s'.channels[n].closed {
      if a :| a in s.clients && s.clients[a].chan == n {
        if a != id { assert s'.clients[a].chan == n; }
      } else {
        assert n !in ChannelsOf(s.clients);
      }
    }
  }

  lemma CloseKeepsInv(s: State)
    requires Inv(s)
    ensures Inv(Step(s, Close))
  {
  }

  lemma ReadKeepsInv(s: State, n: nat)
    requires Inv(s)
    ensures Inv(Step(s, Read(n)))
  {
  }

  lemma SentKeepsInv(s: State, which: set<nat>, e: Event)
    requires Inv(s) && which <= ChannelsOf(s.clients)
    ensures Inv(Sent(s, which, e))
  {
  }

  lemma StepKeepsInv(s: State, call: Call)
    requires Inv(s)
    ensures Inv(Step(s, call))
  {
    match call
    case Subscribe(id, topics) => SubscribeKeepsInv(s, id, topics);
    case Unsubscribe(id) => UnsubscribeKeepsInv(s, id);
    case Close => CloseKeepsInv(s);
    case Read(n) => ReadKeepsInv(s, n);
    case Broadcast(e) => SentKeepsInv(s, Targets(s.clients, call), e);
    case BroadcastToTopic(_, e) => SentKeepsInv(s, Targets(s.clients, call), e);
    case SendTo(_, e) => SentKeepsInv(s, Targets(s.clients, call), e);
  }

  lemma {:induction false} RunKeepsInv(s: State, calls: seq<Call>)
    requires Inv(s)
    ensures Inv(Run(s, calls))
    decreases |calls|
  {
    if calls == [] {
    } else {
      StepKeepsInv(s, calls[0]);
      RunKeepsInv(Step(s, calls[0]), calls[1..]);
    }
  }

  /** Over every run no channel is closed twice or sent to after its close, and the open channels are
      exactly those of the registered clients. */
  lemma {:induction false} ChannelLifecycle(calls: seq<Call>)
    ensures var s := Run(INITIAL, calls);
            && !s.panicked
            && forall n :: 0 <= n < |s.channels| ==> (s.channels[n].closed <==> n !in ChannelsOf(s.clients))
  {
    RunKeepsInv(INITIAL, calls);
  }

  // ---------------------------------------------------------------- addressing

  function Offers(ops: seq<Op>): seq<Event> {
    if ops == [] then []
    else Offers(ops[..|ops| - 1]) + if ops[|ops| - 1].Offer? then [ops[|ops| - 1].event] else []
  }

  /** Ends the subscription that client `id` holds. */
  predicate EndsSubscription(call: Call, id: string) {
    call.Close? || (call.Subscribe? && call.id == id) || (call.Unsubscribe? && call.id == id)
  }

  /** The events addressed to a client with these topics, up to the end of its subscription. */
  function Addressed(calls: seq<Call>, id: string, topics: set<string>): seq<Event>
    decreases |calls|
  {
    if calls == [] || EndsSubscription(calls[0], id) then []
    else FirstAddressed(calls[0], id, topics) + Addressed(calls[1..], id, topics)
  }

  lemma {:induction false} OffersSnoc(ops: seq<Op>, op: Op)
    ensures Offers(ops + [op]) == Offers(ops) + if op.Offer? then [op.event] else []
  {
    assert (ops + [op])[..|ops|] == ops;
  }

  function FirstAddressed(call: Call, id: string, topics: set<string>): seq<Event> {
    if Selects(call, id, topics) then [call.event] else []
  }

  /** The events sent on channel `n` so far. */
  function SentOn(s: State, n: nat): seq<Event> {
    if n < |s.channels| then Offers(s.channels[n].ops) else []
  }

  /** Client `id` is registered with these topics on channel `n`. */
  ghost predicate Registered(s: State, id: string, n: nat, topics: set<string>) {
    id in s.clients && s.clients[id] == Client(n, topics)
  }

  predicate IsSend(call: Call) {
    call.Broadcast? || call.BroadcastToTopic? || call.SendTo?
  }

  lemma ChannelAfterSend(s: State, call: Call, id: string, n: nat, topics: set<string>)
    requires Inv(s) && Registered(s, id, n, topics) && IsSend(call)
    ensures SentOn(Step(s, call), n) == SentOn(s, n) + FirstAddressed(call, id, topics)
  {
    TargetedIfSelected(s, call, id, n, topics);
    SentOnAfterSent(s, Targets(s.clients, call), call.event, n);
  }

  lemma TargetedIfSelected(s: State, call: Call, id: string, n: nat, topics: set<string>)
    requires Inv(s) && Registered(s, id, n, topics)
    ensures n in Targets(s.clients, call) <==> Selects(call, id, topics)
  {
  }

  lemma SentOnAfterSent(s: State, which: set<nat>, e: Event, n: nat)
    requires n < |s.channels|
    ensures SentOn(Sent(s, which, e), n) == SentOn(s, n) + if n in which then [e] else []
  {
    OffersSnoc(s.channels[n].ops, Offer(e));
  }

  lemma ChannelAfterRead(s: State, read: nat, n: nat)
    requires n < |s.channels|
    ensures SentOn(Step(s, Read(read)), n) == SentOn(s, n)
  {
    OffersSnoc(s.channels[n].ops, Receive);
  }

  lemma ChannelAfterStep(s: State, call: Call, id: string, n: nat, topics: set<string>)
    requires Inv(s) && Registered(s, id, n, topics) && !EndsSubscription(call, id)
    ensures Registered(Step(s, call), id, n, topics)
    ensures SentOn(Step(s, call), n) == SentOn(s, n) + FirstAddressed(call, id, topics)
  {
    if IsSend(call) {
      ChannelAfterSend(s, call, id, n, topics);
    } else if call.Read? {
      ChannelAfterRead(s, call.chan, n);
    }
  }

  /** What a call sends to a registered client: a broadcast reaches everybody, a broadcast to a topic those
      subscribed to it and those without topics, a direct send the client named. */
  lemma CallReachesExactly(s: State, call: Call, id: string, n: nat, topics: set<string>)
    requires Inv(s) && Registered(s, id, n, topics) && !EndsSubscription(call, id)
    ensures SentOn(Step(s, call), n) == SentOn(s, n) +
            match call
            case Broadcast(e) => [e]
            case BroadcastToTopic(topic, e) => (if topics == {} || topic in topics then [e] else [])
            case SendTo(to, e) => (if to == id then [e] else [])
            case _ => []
  {
    ChannelAfterStep(s, call, id, n, topics);
  }

  /** Who is registered, and how, after a call. */
  lemma RegisteredAfter(s: State, call: Call, id: string, n: nat, topics: set<string>)
    ensures Registered(Step(s, call), id, n, topics) <==>
            match call
            case Subscribe(who, wanted) =>
              if who == id then n == |s.channels| && topics == wanted else Registered(s, id, n, topics)
            case Unsubscribe(who) => who != id && Registered(s, id, n, topics)
            case Close => false
            case _ => Registered(s, id, n, topics)
  {
  }

  lemma ClosedChannelUntouched(s: State, call: Call, n: nat)
    requires Inv(s) && n < |s.channels| && s.channels[n].closed
    ensures n < |Step(s, call).channels| && Step(s, call).channels[n].closed && SentOn(Step(s, call), n) == SentOn(s, n)
  {
    if call.Read? { OffersSnoc(s.channels[n].ops, Receive); }
  }

  lemma {:induction false} ClosedChannelUntouchedForever(s: State, calls: seq<Call>, n: nat)
    requires Inv(s) && n < |s.channels| && s.channels[n].closed
    ensures SentOn(Run(s, calls), n) == SentOn(s, n)
    decreases |calls|
  {
    if calls == [] {
    } else {
      ClosedChannelUntouched(s, calls[0], n);
      StepKeepsInv(s, calls[0]);
      ClosedChannelUntouchedForever(Step(s, calls[0]), calls[1..], n);
    }
  }

  lemma EndingCloses(s: State, call: Call, id: string, n: nat, topics: set<string>)
    requires Inv(s) && Registered(s, id, n, topics) && EndsSubscription(call, id)
    ensures n < |Step(s, call).channels| && Step(s, call).channels[n].closed && SentOn(Step(s, call), n) == SentOn(s, n)
  {
  }

  /** The sends on a client's channel are exactly the events addressed to it while subscribed. */
  lemma {:induction false} ChannelGetsWhatIsAddressed(s: State, calls: seq<Call>, id: string, n: nat,
                                                  topics: set<string>)
    requires Inv(s) && Registered(s, id, n, topics)
    ensures SentOn(Run(s, calls), n) == SentOn(s, n) + Addressed(calls, id, topics)
    decreases |calls|
  {
    if calls == [] {
    } else {
      var call, s1 := calls[0], Step(s, calls[0]);
      StepKeepsInv(s, call);
      if EndsSubscription(call, id) {
        EndingCloses(s, call, id, n, topics);
        ClosedChannelUntouchedForever(s1, calls[1..], n);
      } else {
        ChannelAfterStep(s, call, id, n, topics);
        ChannelGetsWhatIsAddressed(s1, calls[1..], id, n, topics);
        Regroup(SentOn(s, n), FirstAddressed(call, id, topics), Addressed(calls[1..], id, topics));
      }
    }
  }

  /** From its subscription on, a client's channel is sent precisely what is addressed to it. */
  lemma {:induction false} SubscriberIsSentWhatIsAddressed(before: seq<Call>, id: string, topics: set<string>,
                                                  after: seq<Call>)
    ensures var s := Step(Run(INITIAL, before), Subscribe(id, topics));
            SentOn(Run(s, after), s.clients[id].chan) == Addressed(after, id, topics)
  {
    RunKeepsInv(INITIAL, before);
    StepKeepsInv(Run(INITIAL, before), Subscribe(id, topics));
    var s := Step(Run(INITIAL, before), Subscribe(id, topics));
    ChannelGetsWhatIsAddressed(s, after, id, s.clients[id].chan, topics);
  }

  /** `a` comes from `b` by leaving out elements. */
  ghost predicate Subsequence(a: seq<Event>, b: seq<Event>)
    decreases |b|
  {
    a == [] ||
    (b != [] &&
     ((a[|a| - 1] == b[|b| - 1] && Subsequence(a[..|a| - 1], b[..|b| - 1])) || Subsequence(a, b[..|b| - 1])))
  }

  lemma {:induction false} SubsequenceSnoc(a: seq<Event>, b: seq<Event>, e: Event)
    requires Subsequence(a, b)
    ensures Subsequence(a, b + [e]) && Subsequence(a + [e], b + [e])
  {
    assert (b + [e])[..|b|] == b && (a + [e])[..|a|] == a;
  }

  lemma {:induction false} SubsequenceInit(a: seq<Event>, b: seq<Event>)
    requires a != [] && Subsequence(a, b)
    ensures Subsequence(a[..|a| - 1], b)
    decreases |b|
  {
    var init := b[..|b| - 1];
    assert b == init + [b[|b| - 1]];
    if a[|a| - 1] == b[|b| - 1] && Subsequence(a[..|a| - 1], init) {
      SubsequenceSnoc(a[..|a| - 1], init, b[|b| - 1]);
    } else {
      SubsequenceInit(a, init);
      SubsequenceSnoc(a[..|a| - 1], init, b[|b| - 1]);
    }
  }

  lemma {:induction false} SubsequencePrefix(a: seq<Event>, rest: seq<Event>, b: seq<Event>)
    requires Subsequence(a + rest, b)
    ensures Subsequence(a, b)
    decreases |rest|
  {
    if rest == [] {
      assert a + rest == a;
    } else {
      SubsequenceInit(a + rest, b);
      assert (a + rest)[..|a + rest| - 1] == a + rest[..|rest| - 1];
      SubsequencePrefix(a, rest[..|rest| - 1], b);
    }
  }

  lemma {:induction false} HandledIsSubsequence(capacity: nat, q: Queue, op: Op, offers: seq<Event>)
    requires Subsequence(q.received + q.buffer, offers)
    ensures var (r, more) := (Handled(capacity, q, op), offers + if op.Offer? then [op.event] else []);
            Subsequence(r.received + r.buffer, more)
  {
    var all := q.received + q.buffer;
    match op
    case Offer(e) =>
      SubsequenceSnoc(all, offers, e);
      assert q.received + (q.buffer + [e]) == all + [e];
    case Receive =>
      assert offers + [] == offers;
      if q.buffer != [] { assert (q.received + [q.buffer[0]]) + q.buffer[1..] == all; }
  }

  lemma {:induction false} QueueIsSubsequence(capacity: nat, ops: seq<Op>)
    ensures var q := Replay(capacity, ops); Subsequence(q.received + q.buffer, Offers(ops))
  {
    if ops == [] {
    } else {
      var init, op := ops[..|ops| - 1], ops[|ops| - 1];
      QueueIsSubsequence(capacity, init);
      HandledIsSubsequence(capacity, Replay(capacity, init), op, Offers(init));
    }
  }

  /** Nothing is lost while no more is sent than the buffer holds, even if nobody reads. */
  lemma {:induction false} NothingLostWithinCapacity(capacity: nat, ops: seq<Op>)
    requires |Offers(ops)| <= capacity
    ensures var q := Replay(capacity, ops); q.received + q.buffer == Offers(ops)
  {
    if ops == [] {
    } else {
      var init, op := ops[..|ops| - 1], ops[|ops| - 1];
      NothingLostWithinCapacity(capacity, init);
      var q := Replay(capacity, init);
      match op
      case Offer(e) => Regroup(q.received, q.buffer, [e]);
      case Receive =>
        if q.buffer != [] {
          Regroup(q.received, [q.buffer[0]], q.buffer[1..]);
          assert [q.buffer[0]] + q.buffer[1..] == q.buffer;
        }
    }
  }

  lemma {:induction false} ChannelsOnlyGrow(s: State, calls: seq<Call>)
    ensures |s.channels| <= |Run(s, calls).channels|
    decreases |calls|
  {
    if calls == [] {
    } else {
      ChannelsOnlyGrow(Step(s, calls[0]), calls[1..]);
    }
  }

  /** In every run a subscriber has received, in order, events addressed to it since it subscribed. */
  lemma {:induction false} SubscriberReceivesInOrder(before: seq<Call>, id: string, topics: set<string>,
                                                  after: seq<Call>, capacity: nat)
    ensures var s := Step(Run(INITIAL, before), Subscribe(id, topics));
            var n := s.clients[id].chan;
            && n < |Run(s, after).channels|
            && Subsequence(Replay(capacity, Run(s, after).channels[n].ops).received, Addressed(after, id, topics))
  {
    var s := Step(Run(INITIAL, before), Subscribe(id, topics));
    var n := s.clients[id].chan;
    ChannelsOnlyGrow(s, after);
    SubscriberIsSentWhatIsAddressed(before, id, topics, after);
    var ops := Run(s, after).channels[n].ops;
    QueueIsSubsequence(capacity, ops);
    SubsequencePrefix(Replay(capacity, ops).received, Replay(capacity, ops).buffer, Addressed(after, id, topics));
  }

  /** A subscriber addressed by no more events than its buffer holds has received them all or still can. */
  lemma {:induction false} SubscriberMissesNothing(before: seq<Call>, id: string, topics: set<string>,
                                                   after: seq<Call>, capacity: nat)
    requires |Addressed(after, id, topics)| <= capacity
    ensures var s := Step(Run(INITIAL, before), Subscribe(id, topics));
            var n := s.clients[id].chan;
            && n < |Run(s, after).channels|
            && var q := Replay(capacity, Run(s, after).channels[n].ops);
               q.received + q.buffer == Addressed(after, id, topics)
  {
    var s := Step(Run(INITIAL, before), Subscribe(id, topics));
    var n := s.clients[id].chan;
    ChannelsOnlyGrow(s, after);
    SubscriberIsSentWhatIsAddressed(before, id, topics, after);
    NothingLostWithinCapacity(capacity, Run(s, after).channels[n].ops);
  }

  // ---------------------------------------------------------------- loops over the clients

  /** Sending to the targets one by one, in any order, is sending to all of them. */
  lemma SentOneByOne(s: State, which: set<nat>, n: nat, e: Event)
    requires n !in which
    ensures Sent(Sent(s, which, e), {n}, e) == Sent(s, which + {n}, e)
  {
    assert Sent(Sent(s, which, e), {n}, e).channels == Sent(s, which + {n}, e).channels;
  }

  /** The targets among the clients already visited. */
  function TargetsVisited(clients: map<string, Client>, call: Call, todo: set<string>): set<nat> {
    set id | id in clients && id !in todo && Selects(call, id, clients[id].topics) :: clients[id].chan
  }

  lemma VisitOne(s: State, call: Call, todo: set<string>, id: string)
    requires Inv(s) && id in todo && id in s.clients
    ensures s.clients[id].chan !in TargetsVisited(s.clients, call, todo)
    ensures TargetsVisited(s.clients, call, todo - {id})
         == TargetsVisited(s.clients, call, todo)
             + if Selects(call, id, s.clients[id].topics) then {s.clients[id].chan} else {}
  {
  }

  lemma VisitedAll(clients: map<string, Client>, call: Call)
    ensures TargetsVisited(clients, call, {}) == Targets(clients, call)
    ensures TargetsVisited(clients, call, clients.Keys) == {}
  {
  }

  lemma SentToNone(s: State, e: Event)
    ensures Sent(s, {}, e) == s
  {
    assert Sent(s, {}, e).channels == s.channels;
  }

  lemma NobodyVisited(s: State, call: Call)
    requires call.Broadcast? || call.BroadcastToTopic?
    ensures Sent(s, TargetsVisited(s.clients, call, s.clients.Keys), call.event) == s
  {
    VisitedAll(s.clients, call);
    SentToNone(s, call.event);
  }

  lemma EverybodyVisited(s: State, call: Call)
    requires call.Broadcast? || call.BroadcastToTopic?
    ensures Sent(s, TargetsVisited(s.clients, call, {}), call.event) == Step(s, call)
  {
    VisitedAll(s.clients, call);
  }

  /** The state when, of the clients of `s`, only those in `todo` have not been closed and deleted. */
  function Remaining(s: State, todo: set<string>): State {
    var kept := map id | id in s.clients && id in todo :: s.clients[id];
    Shut(s, set id | id in s.clients && id !in todo :: s.clients[id].chan).(clients := kept)
  }

  lemma RemovedOneByOne(s: State, todo: set<string>, id: string)
    requires Inv(s) && id in s.clients && id in todo
    ensures Step(Remaining(s, todo), Unsubscribe(id)) == Remaining(s, todo - {id})
  {
    var a, b := Step(Remaining(s, todo), Unsubscribe(id)), Remaining(s, todo - {id});
    assert a.clients == b.clients;
    assert a.channels == b.channels;
  }

  lemma RemovedAll(s: State)
    ensures Remaining(s, s.clients.Keys) == s && Remaining(s, {}) == Step(s, Close)
  {
    assert Remaining(s, {}).clients == Step(s, Close).clients;
    assert (set id | id in s.clients && id !in {} :: s.clients[id].chan) == ChannelsOf(s.clients);
    assert Remaining(s, s.clients.Keys).channels == s.channels;
    assert Remaining(s, s.clients.Keys).clients == s.clients;
  }

  function WithRead(s: State, n: nat): State
    requires n < |s.channels|
  {
    s.(channels := s.channels[n := s.channels[n].(ops := s.channels[n].ops + [Receive])])
  }

  lemma ReadStep(s: State, n: nat)
    requires n < |s.channels|
    ensures Step(s, Read(n)) == WithRead(s, n)
  {
  }

  // ---------------------------------------------------------------- the broker object

  /** A buffered Go channel. */
  class EventChannel {
    const number: nat
    const capacity: nat
    var buffer: seq<Event>
    var closed: bool
    ghost var ops: seq<Op>

    ghost predicate Valid()
      reads this
    {
      buffer == Replay(capacity, ops).buffer
    }

    constructor (number: nat, capacity: nat)
      ensures Valid() && this.number == number && this.capacity == capacity && !closed && ops == []
    {
      this.number, this.capacity := number, capacity;
      buffer, closed, ops := [], false, [];
    }

    ghost function View(): Channel
      reads this
    {
      Channel(ops, closed)
    }

    /** A select with a send case and an empty default. */
    method Offer(e: Event)
      requires Valid() && !closed
      modifies this
      ensures Valid() && View() == Channel(old(ops) + [Op.Offer(e)], false)
    {
      if |buffer| < capacity {
        buffer := buffer + [e];
      }
      ReplaySnoc(capacity, ops, Op.Offer(e));
      ops := ops + [Op.Offer(e)];
    }

    method Receive() returns (e: Option<Event>)
      requires Valid()
      modifies this
      ensures Valid() && View() == Channel(old(ops) + [Op.Receive], old(closed))
      ensures e == if old(buffer) == [] then None else Some(old(buffer)[0])
    {
      e := None;
      if buffer != [] {
        e := Some(buffer[0]);
        buffer := buffer[1..];
      }
      ReplaySnoc(capacity, ops, Op.Receive);
      ops := ops + [Op.Receive];
    }

    method Close()
      requires Valid() && !closed
      modifies this
      ensures Valid() && View() == Channel(old(ops), true)
    {
      closed := true;
    }
  }

  datatype ClientInfo = ClientInfo(channel: EventChannel, topics: set<string>)

  class SseBroker {
    const bufferSize: nat
    var clients: map<string, ClientInfo>
    var made: nat
    ghost var channels: seq<EventChannel>   // all channels made so far, by number
    ghost var state: State

    ghost predicate Valid()
      reads this, channels
    {
      && Inv(state) && made == |channels| == |state.channels| && clients.Keys == state.clients.Keys
      && (forall n :: 0 <= n < |channels| ==>
            && channels[n].number == n && channels[n].capacity == bufferSize && channels[n].Valid()
            && channels[n].View() == state.channels[n])
      && (forall id :: id in clients ==>
            && clients[id].topics == state.clients[id].topics
            && clients[id].channel == channels[state.clients[id].chan])
    }

    constructor (bufferSize: int)
      ensures Valid() && state == INITIAL && channels == []
      ensures this.bufferSize == if bufferSize > 0 then bufferSize else 100
    {
      this.bufferSize := if bufferSize <= 0 then 100 else bufferSize;
      clients, made, channels, state := map[], 0, [], INITIAL;
    }

    method Unsubscribe(id: string)
      requires Valid()
      modifies this, channels
      ensures Valid() && channels == old(channels) && clients.Keys == old(clients.Keys) - {id}
      ensures state == Step(old(state), Call.Unsubscribe(id))
    {
      if id in clients {
        StepKeepsInv(state, Call.Unsubscribe(id));
        clients[id].channel.Close();
        clients := clients - {id};
        state := Step(state, Call.Unsubscribe(id));
      }
    }

    /** A prior channel of the same client is closed and its entry replaced. */
    method Subscribe(id: string, topics: seq<string>) returns (ch: EventChannel)
      requires Valid()
      modifies this, channels
      ensures Valid() && fresh(ch) && channels == old(channels) + [ch]
      ensures state == Step(old(state), Call.Subscribe(id, set t | t in topics))
    {
      ResubscribeReplaces(state, id, set t | t in topics);
      Unsubscribe(id);
      var topicSet := {};
      for k := 0 to |topics|
        invariant topicSet == set t | t in topics[..k]
      {
        topicSet := topicSet + {topics[k]};
      }
      assert topics[..|topics|] == topics;
      ch := Register(id, topicSet);
    }

    method Register(id: string, topics: set<string>) returns (ch: EventChannel)
      requires Valid() && id !in clients
      modifies this
      ensures Valid() && fresh(ch) && channels == old(channels) + [ch]
      ensures state == Step(old(state), Call.Subscribe(id, topics))
    {
      StepKeepsInv(state, Call.Subscribe(id, topics));
      ch := new EventChannel(made, bufferSize);
      clients := clients[id := ClientInfo(ch, topics)];
      channels, made := channels + [ch], made + 1;
      state := Appended(state, id, topics);
      RegisteredIsValid(id);
    }

    /** One more client, on one more channel, with all other channels as they were. */
    twostate lemma RegisteredIsValid(id: string)
      requires old(Valid()) && id !in old(clients) && id in clients
      requires channels == old(channels) + [clients[id].channel] && made == old(made) + 1
      requires forall n :: 0 <= n < |old(channels)| ==> unchanged(old(channels)[n])
      requires var ch := clients[id].channel;
               ch.Valid() && ch.number == old(made) && ch.capacity == bufferSize && ch.View() == Channel([], false)
      requires clients == old(clients)[id := clients[id]]
      requires state == Appended(old(state), id, clients[id].topics) && Inv(state)
      ensures Valid()
    {
    }

    /** The reader of a channel takes its next event. */
    method ReadNext(ch: EventChannel) returns (e: Option<Event>)
      requires Valid() && ch in channels
      modifies this`state, ch
      ensures Valid() && state == Step(old(state), Read(ch.number))
      ensures e == if old(ch.buffer) == [] then None else Some(old(ch.buffer)[0])
    {
      ReadKeepsInv(state, ch.number);
      e := ch.Receive();
      ReadStep(state, ch.number);
      state := WithRead(state, ch.number);
      ReadIsValid(ch);
    }

    /** One receive, with all other channels as they were. */
    twostate lemma ReadIsValid(ch: EventChannel)
      requires old(Valid()) && ch in channels && unchanged(`channels) && unchanged(`clients) && unchanged(`made)
      requires forall n :: 0 <= n < |channels| && n != ch.number ==> unchanged(channels[n])
      requires ch.Valid() && ch.View() == Channel(old(ch.ops) + [Op.Receive], old(ch.closed))
      requires ch.number < |old(state).channels| && state == WithRead(old(state), ch.number) && Inv(state)
      ensures Valid()
    {
    }

    method OfferTo(id: string, e: Event)
      requires Valid() && id in clients
      modifies this`state, channels
      ensures Valid() && state == Sent(old(state), {old(state).clients[id].chan}, e)
    {
      ghost var which := {state.clients[id].chan};
      SentKeepsInv(state, which, e);
      clients[id].channel.Offer(e);
      state := Sent(state, which, e);
    }

    method SendTo(id: string, e: Event)
      requires Valid()
      modifies this`state, channels
      ensures Valid() && state == Step(old(state), Call.SendTo(id, e))
    {
      ghost var call := Call.SendTo(id, e);
      if id in clients {
        assert Targets(state.clients, call) == {state.clients[id].chan};
        OfferTo(id, e);
      } else {
        assert Targets(state.clients, call) == {};
        SentToNone(state, e);
      }
    }

    method Broadcast(e: Event)
      requires Valid()
      modifies this`state, channels
      ensures Valid() && state == Step(old(state), Call.Broadcast(e))
    {
      SendSelected(Call.Broadcast(e));
    }

    method BroadcastToTopic(topic: string, e: Event)
      requires Valid()
      modifies this`state, channels
      ensures Valid() && state == Step(old(state), Call.BroadcastToTopic(topic, e))
    {
      SendSelected(Call.BroadcastToTopic(topic, e));
    }

    /** The loop over the clients, in whatever order the map yields them. */
    method SendSelected(call: Call)
      requires Valid() && (call.Broadcast? || call.BroadcastToTopic?)
      modifies this`state, channels
      ensures Valid() && state == Step(old(state), call)
    {
      var todo := clients.Keys;
      ghost var s := state;
      NobodyVisited(s, call);
      while todo != {}
        invariant Valid() && todo <= clients.Keys
        invariant state == Sent(s, TargetsVisited(s.clients, call, todo), call.event)
        decreases todo
      {
        var id :| id in todo;
        Visit(call, id, todo, s);
        todo := todo - {id};
      }
      EverybodyVisited(s, call);
    }

    method Visit(call: Call, id: string, ghost todo: set<string>, ghost s: State)
      requires Valid() && Inv(s) && (call.Broadcast? || call.BroadcastToTopic?) && id in todo && id in clients
      requires state == Sent(s, TargetsVisited(s.clients, call, todo), call.event)
      modifies this`state, channels
      ensures Valid() && state == Sent(s, TargetsVisited(s.clients, call, todo - {id}), call.event)
    {
      VisitOne(s, call, todo, id);
      if Selects(call, id, clients[id].topics) {
        SentOneByOne(s, TargetsVisited(s.clients, call, todo), s.clients[id].chan, call.event);
        OfferTo(id, call.event);
      } else {
        assert TargetsVisited(s.clients, call, todo) + {} == TargetsVisited(s.clients, call, todo);
      }
    }

    method Close()
      requires Valid()
      modifies this, channels
      ensures Valid() && channels == old(channels) && state == Step(old(state), Call.Close)
    {
      var todo := clients.Keys;
      ghost var s := state;
      RemovedAll(s);
      while todo != {}
        invariant Valid() && channels == old(channels) && clients.Keys == todo
        invariant todo <= s.clients.Keys && state == Remaining(s, todo)
        decreases todo
      {
        var id :| id in todo;
        CloseOne(id, todo, s);
        todo := todo - {id};
      }
    }

    method CloseOne(id: string, ghost todo: set<string>, ghost s: State)
      requires Valid() && Inv(s) && id in clients && id in todo && id in s.clients && state == Remaining(s, todo)
      modifies this, channels
      ensures Valid() && channels == old(channels) && clients.Keys == old(clients.Keys) - {id}
      ensures state == Remaining(s, todo - {id})
    {
      RemovedOneByOne(s, todo, id);
      Unsubscribe(id);
    }
  }
}
