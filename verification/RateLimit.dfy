/** The sliding-window limit as a specification over complete histories of accepted requests, and the
    two backends that keep only part of them. Times are integer nanoseconds. */
module SlidingWindow {
  import opened Sequences

  /** The requests of `h` later than `cutoff`, in order. */
  function Recent(h: seq<int>, cutoff: int): (r: seq<int>)
    ensures |r| <= |h|
  {
    if h == [] then []
    else
      var init, last := h[..|h| - 1], h[|h| - 1];
      Recent(init, cutoff) + if last > cutoff then [last] else []
  }

  /** How many of `h` lie in the half-open interval (lo, hi]. */
  function CountIn(h: seq<int>, lo: int, hi: int): nat {
    if h == [] then 0
    else CountIn(h[..|h| - 1], lo, hi) + if lo < h[|h| - 1] <= hi then 1 else 0
  }

  ghost predicate NoLaterThan(h: seq<int>, t: int) {
    forall i :: 0 <= i < |h| ==> h[i] <= t
  }

  /** What `max` and `window` of one limiter are. */
  datatype Limit = Limit(max: int, window: nat)

  datatype Reply = Reply(allowed: bool, remaining: int)

  type Histories = map<string, seq<int>>

  function History(h: Histories, key: string): seq<int> {
    if key in h then h[key] else []
  }

  /** The specification: admit while fewer than `max` were admitted in the last `window`. */
  function Admit(limit: Limit, h: Histories, key: string, now: int): (Histories, Reply) {
    var count := |Recent(History(h, key), now - limit.window)|;
    if count >= limit.max then (h, Reply(false, 0))
    else (h[key := History(h, key) + [now]], Reply(true, limit.max - count - 1))
  }

  /** A request; a run of the in-memory janitor; Redis dropping a key whose time to live is over. */
  datatype Event = Request(key: string, now: int) | Sweep(now: int) | Evict(key: string, now: int)

  /** No event happens before `clock`, nor before its predecessor. */
  predicate Clocked(clock: int, events: seq<Event>)
    decreases |events|
  {
    events == [] || (clock <= events[0].now && Clocked(events[0].now, events[1..]))
  }

  function SpecStep(limit: Limit, h: Histories, e: Event): Histories {
    if e.Request? then Admit(limit, h, e.key, e.now).0 else h
  }

  function SpecRun(limit: Limit, h: Histories, events: seq<Event>): Histories
    decreases |events|
  {
    if events == [] then h else SpecRun(limit, SpecStep(limit, h, events[0]), events[1..])
  }

  /** The reply to an event, if it is a request. */
  function SpecReply(limit: Limit, h: Histories, e: Event): seq<Reply> {
    if e.Request? then [Admit(limit, h, e.key, e.now).1] else []
  }

  function SpecReplies(limit: Limit, h: Histories, events: seq<Event>): seq<Reply>
    decreases |events|
  {
    if events == [] then []
    else SpecReply(limit, h, events[0]) + SpecReplies(limit, SpecStep(limit, h, events[0]), events[1..])
  }

  /** The times at which requests on `key` were allowed, given the replies of a backend. */
  function AllowedTimes(events: seq<Event>, replies: seq<Reply>, key: string): seq<int>
    decreases |events|
  {
    if events == [] || replies == [] then []
    else if !events[0].Request? then AllowedTimes(events[1..], replies, key)
    else
      (if events[0].key == key && replies[0].allowed then [events[0].now] else [])
      + AllowedTimes(events[1..], replies[1..], key)
  }

  // ---------------------------------------------------------------- filtering

  lemma {:induction false} RecentSnoc(h: seq<int>, x: int, cutoff: int)
    ensures Recent(h + [x], cutoff) == Recent(h, cutoff) + if x > cutoff then [x] else []
  {
    assert (h + [x])[..|h|] == h;
  }

  lemma {:induction false} RecentMembers(h: seq<int>, cutoff: int, x: int)
    ensures x in Recent(h, cutoff) <==> x in h && x > cutoff
  {
    if h == [] {
    } else {
      RecentMembers(h[..|h| - 1], cutoff, x);
      assert h == h[..|h| - 1] + [h[|h| - 1]];
    }
  }

  lemma {:induction false} RecentTwice(h: seq<int>, earlier: int, later: int)
    requires earlier <= later
    ensures Recent(Recent(h, earlier), later) == Recent(h, later)
    ensures |Recent(h, later)| <= |Recent(h, earlier)|
  {
    if h == [] {
    } else {
      var init, last := h[..|h| - 1], h[|h| - 1];
      RecentTwice(init, earlier, later);
      assert Recent(init, earlier) + [] == Recent(init, earlier);
      RecentSnoc(Recent(init, earlier), last, later);
    }
  }

  lemma {:induction false} RecentOfOld(h: seq<int>, cutoff: int)
    requires NoLaterThan(h, cutoff)
    ensures Recent(h, cutoff) == []
  {
    if h == [] {
    } else {
      RecentOfOld(h[..|h| - 1], cutoff);
    }
  }

  lemma {:induction false} CountIsRecent(h: seq<int>, lo: int, hi: int)
    requires NoLaterThan(h, hi)
    ensures CountIn(h, lo, hi) == |Recent(h, lo)|
  {
    if h == [] {
    } else {
      CountIsRecent(h[..|h| - 1], lo, hi);
    }
  }

  // ---------------------------------------------------------------- pruned histories

  /** For windows ending at `clock` or later, `times` holds all of `history` that matters. */
  ghost predicate InStep(limit: Limit, history: seq<int>, times: seq<int>, clock: int) {
    && NoLaterThan(history, clock)
    && Recent(times, clock - limit.window) == Recent(history, clock - limit.window)
  }

  lemma InStepLater(limit: Limit, history: seq<int>, times: seq<int>, clock: int, later: int)
    requires InStep(limit, history, times, clock) && clock <= later
    ensures InStep(limit, history, times, later)
  {
    RecentTwice(times, clock - limit.window, later - limit.window);
    RecentTwice(history, clock - limit.window, later - limit.window);
  }

  lemma PrunedInStep(limit: Limit, history: seq<int>, times: seq<int>, now: int)
    requires InStep(limit, history, times, now)
    ensures InStep(limit, history, Recent(times, now - limit.window), now)
  {
    RecentTwice(times, now - limit.window, now - limit.window);
  }

  lemma RecordedInStep(limit: Limit, history: seq<int>, times: seq<int>, now: int)
    requires InStep(limit, history, times, now)
    ensures InStep(limit, history + [now], times + [now], now)
  {
    RecentSnoc(times, now, now - limit.window);
    RecentSnoc(history, now, now - limit.window);
    NoLaterSnoc(history, now);
  }

  lemma NoLaterSnoc(h: seq<int>, now: int)
    requires NoLaterThan(h, now)
    ensures NoLaterThan(h + [now], now)
  {
  }

  // ---------------------------------------------------------------- the rate bound

  ghost predicate RateBounded(limit: Limit, h: seq<int>) {
    forall t :: Load(limit, h, t) <= Ceiling(limit)
  }

  /** The number of requests in the window that ends at `t`. */
  function Load(limit: Limit, h: seq<int>, t: int): nat {
    CountIn(h, t - limit.window, t)
  }

  function Ceiling(limit: Limit): nat {
    if limit.max < 0 then 0 else limit.max
  }

  lemma {:induction false} AdmitKeepsRate(limit: Limit, h: seq<int>, now: int)
    requires RateBounded(limit, h) && NoLaterThan(h, now)
    requires |Recent(h, now - limit.window)| < limit.max
    ensures RateBounded(limit, h + [now])
  {
    var longer := h + [now];
    assert longer[..|h|] == h;
    forall t ensures Load(limit, longer, t) <= limit.max {
      assert Load(limit, h, t) <= limit.max;
      if now <= t {
        CountIsRecent(h, t - limit.window, t);
        RecentTwice(h, now - limit.window, t - limit.window);
      }
    }
  }

  ghost predicate UpTo(h: Histories, clock: int) {
    forall key :: key in h ==> NoLaterThan(h[key], clock)
  }

  lemma {:induction false} SpecRunKeepsRate(limit: Limit, h: Histories, clock: int, events: seq<Event>, key: string)
    requires Clocked(clock, events) && UpTo(h, clock) && RateBounded(limit, History(h, key))
    ensures RateBounded(limit, History(SpecRun(limit, h, events), key))
    decreases |events|
  {
    if events == [] {
    } else {
      var e := events[0];
      if e.Request? && e.key == key && |Recent(History(h, key), e.now - limit.window)| < limit.max {
        AdmitKeepsRate(limit, History(h, key), e.now);
      }
      SpecRunKeepsRate(limit, SpecStep(limit, h, e), e.now, events[1..], key);
    }
  }

  /** The final history is the initial one followed by the times the replies allowed. */
  lemma {:induction false} HistoryIsAllowedTimes(limit: Limit, h: Histories, events: seq<Event>, key: string)
    ensures History(SpecRun(limit, h, events), key)
         == History(h, key) + AllowedTimes(events, SpecReplies(limit, h, events), key)
    decreases |events|
  {
    if events == [] {
    } else {
      var e := events[0];
      var rest := SpecReplies(limit, SpecStep(limit, h, e), events[1..]);
      HistoryIsAllowedTimes(limit, SpecStep(limit, h, e), events[1..], key);
      HistoryStep(limit, h, e, key);
      AllowedTimesStep(events, SpecReply(limit, h, e), rest, key);
      Regroup(History(h, key), FirstAllowed(e, SpecReply(limit, h, e), key), AllowedTimes(events[1..], rest, key));
    }
  }

  lemma HistoryStep(limit: Limit, h: Histories, e: Event, key: string)
    ensures History(SpecStep(limit, h, e), key) == History(h, key) + FirstAllowed(e, SpecReply(limit, h, e), key)
  {
  }

  /** The time of the first event, if it is a request on `key` that was allowed. */
  function FirstAllowed(e: Event, first: seq<Reply>, key: string): seq<int> {
    if e.Request? && e.key == key && first != [] && first[0].allowed then [e.now] else []
  }

  lemma {:induction false} AllowedTimesStep(events: seq<Event>, first: seq<Reply>, rest: seq<Reply>, key: string)
    requires events != [] && |first| == if events[0].Request? then 1 else 0
    ensures AllowedTimes(events, first + rest, key)
         == FirstAllowed(events[0], first, key) + AllowedTimes(events[1..], rest, key)
  {
    if events[0].Request? {
      assert (first + rest)[1..] == rest;
    } else {
      assert first + rest == rest;
      if rest == [] { NoRepliesNoTimes(events[1..], key); }
    }
  }

  lemma {:induction false} NoRepliesNoTimes(events: seq<Event>, key: string)
    ensures AllowedTimes(events, [], key) == []
  {
  }

  lemma {:induction false} ClockedTail(clock: int, past: seq<Event>, e: Event)
    requires past != [] && Clocked(clock, past + [e])
    ensures clock <= past[0].now && Clocked(past[0].now, past[1..] + [e])
  {
    assert (past + [e])[1..] == past[1..] + [e];
  }

  /** What a limiter that has let through requests at `times` owes to a request at `now`. */
  function Owed(limit: Limit, times: seq<int>, now: int): Reply {
    var load := Load(limit, times, now);
    if load < limit.max then Reply(true, limit.max - load - 1) else Reply(false, 0)
  }

  lemma OwedByAdmit(limit: Limit, h: Histories, key: string, now: int)
    requires NoLaterThan(History(h, key), now)
    ensures Admit(limit, h, key, now).1 == Owed(limit, History(h, key), now)
  {
    CountIsRecent(History(h, key), now - limit.window, now);
  }

  lemma {:induction false} LastReply(limit: Limit, h: Histories, clock: int, past: seq<Event>, key: string, now: int)
    requires Clocked(clock, past + [Request(key, now)]) && UpTo(h, clock)
    ensures SpecReplies(limit, h, past + [Request(key, now)])
         == SpecReplies(limit, h, past) + [Owed(limit, History(SpecRun(limit, h, past), key), now)]
    decreases |past|
  {
    var all := past + [Request(key, now)];
    if past == [] {
      assert all[1..] == [];
      OwedByAdmit(limit, h, key, now);
    } else {
      var next := SpecStep(limit, h, past[0]);
      assert all[1..] == past[1..] + [Request(key, now)];
      ClockedTail(clock, past, Request(key, now));
      LastReply(limit, next, past[0].now, past[1..], key, now);
      Regroup(SpecReply(limit, h, past[0]), SpecReplies(limit, next, past[1..]),
              [Owed(limit, History(SpecRun(limit, next, past[1..]), key), now)]);
    }
  }

  /** In every clocked run a request is allowed exactly if fewer than `max` were allowed on its key in the
      window that ends with it, and the remaining count is what is then left of `max`. */
  lemma {:induction false} SpecAnswersExactly(limit: Limit, clock: int, past: seq<Event>, key: string, now: int)
    requires Clocked(clock, past + [Request(key, now)])
    ensures var replies := SpecReplies(limit, map[], past);
            SpecReplies(limit, map[], past + [Request(key, now)])
            == replies + [Owed(limit, AllowedTimes(past, replies, key), now)]
  {
    LastReply(limit, map[], clock, past, key, now);
    HistoryIsAllowedTimes(limit, map[], past, key);
    assert [] + AllowedTimes(past, SpecReplies(limit, map[], past), key)
        == AllowedTimes(past, SpecReplies(limit, map[], past), key);
  }

  /** Any backend that answers like the specification respects the bound at every instant. */
  lemma {:induction false} AllowedRateIsBounded(limit: Limit, clock: int, events: seq<Event>, key: string, t: int)
    requires Clocked(clock, events)
    ensures Load(limit, AllowedTimes(events, SpecReplies(limit, map[], events), key), t) <= Ceiling(limit)
  {
    HistoryIsAllowedTimes(limit, map[], events, key);
    SpecRunKeepsRate(limit, map[], clock, events, key);
    var times := AllowedTimes(events, SpecReplies(limit, map[], events), key);
    assert History(SpecRun(limit, map[], events), key) == times;
  }
}

/** The in-memory backend: per key a pruned list of timestamps, and a janitor that forgets idle keys. */
module MemoryLimiter {
  import opened Options
  import opened SlidingWindow

  datatype Window = Window(times: seq<int>, expiresAt: int)

  type Windows = map<string, Window>

  function Times(m: Windows, key: string): seq<int> {
    if key in m then m[key].times else []
  }

  /** One window after a request: pruned, its expiry pushed on, and `now` recorded if admitted. */
  function Recorded(limit: Limit, times: seq<int>, now: int): (Window, Reply) {
    var valid := Recent(times, now - limit.window);
    if |valid| >= limit.max then (Window(valid, now + limit.window), Reply(false, 0))
    else (Window(valid + [now], now + limit.window), Reply(true, limit.max - |valid| - 1))
  }

  function Allowed(limit: Limit, m: Windows, key: string, now: int): (Windows, Reply) {
    var (w, reply) := Recorded(limit, Times(m, key), now);
    (m[key := w], reply)
  }

  lemma EmptyWindowIsNone(limit: Limit, m: Windows, key: string, now: int)
    requires key !in m
    ensures Allowed(limit, m[key := Window([], 0)], key, now) == Allowed(limit, m, key, now)
  {
    var w := Recorded(limit, [], now).0;
    assert m[key := Window([], 0)][key := w] == m[key := w];
  }

  function Swept(m: Windows, now: int): Windows {
    map key | key in m && now <= m[key].expiresAt :: m[key]
  }

  function Step(limit: Limit, m: Windows, e: Event): Windows {
    match e
    case Request(key, now) => Allowed(limit, m, key, now).0
    case Sweep(now) => Swept(m, now)
    case Evict(_, _) => m
  }

  function ReplyTo(limit: Limit, m: Windows, e: Event): seq<Reply> {
    if e.Request? then [Allowed(limit, m, e.key, e.now).1] else []
  }

  function Replies(limit: Limit, m: Windows, events: seq<Event>): seq<Reply>
    decreases |events|
  {
    if events == [] then []
    else ReplyTo(limit, m, events[0]) + Replies(limit, Step(limit, m, events[0]), events[1..])
  }

  // ---------------------------------------------------------------- refinement

  /** The backend remembers enough of the key, and its expiry lies a window after all of it. */
  ghost predicate Tracks(limit: Limit, h: Histories, m: Windows, clock: int, key: string) {
    && InStep(limit, History(h, key), Times(m, key), clock)
    && (key in m ==> NoLaterThan(History(h, key), m[key].expiresAt - limit.window))
  }

  lemma TimePasses(limit: Limit, h: Histories, m: Windows, clock: int, later: int, key: string)
    requires Tracks(limit, h, m, clock, key) && clock <= later
    ensures Tracks(limit, h, m, later, key)
  {
    InStepLater(limit, History(h, key), Times(m, key), clock, later);
  }

  lemma AskedStaysTracked(limit: Limit, h: Histories, m: Windows, now: int, key: string)
    requires Tracks(limit, h, m, now, key)
    ensures Tracks(limit, Admit(limit, h, key, now).0, Allowed(limit, m, key, now).0, now, key)
  {
    var valid := Recent(Times(m, key), now - limit.window);
    var m' := Allowed(limit, m, key, now).0;
    PrunedInStep(limit, History(h, key), Times(m, key), now);
    if |valid| >= limit.max {
      assert m'[key] == Window(valid, now + limit.window);
    } else {
      RecordedInStep(limit, History(h, key), valid, now);
      assert m'[key] == Window(valid + [now], now + limit.window);
    }
  }

  lemma RequestKeepsTracking(limit: Limit, h: Histories, m: Windows, now: int, asked: string, key: string)
    requires Tracks(limit, h, m, now, key)
    ensures Tracks(limit, Admit(limit, h, asked, now).0, Allowed(limit, m, asked, now).0, now, key)
  {
    if key == asked { AskedStaysTracked(limit, h, m, now, key); }
  }

  /** What the janitor drops had left every window already. */
  lemma SweepKeepsTracking(limit: Limit, h: Histories, m: Windows, now: int, key: string)
    requires Tracks(limit, h, m, now, key)
    ensures Tracks(limit, h, Swept(m, now), now, key)
  {
    if key in m && now > m[key].expiresAt {
      RecentOfOld(History(h, key), now - limit.window);
    }
  }

  ghost predicate TracksAll(limit: Limit, h: Histories, m: Windows, clock: int) {
    forall key :: Tracks(limit, h, m, clock, key)
  }

  lemma StepKeepsTracking(limit: Limit, h: Histories, m: Windows, clock: int, e: Event)
    requires TracksAll(limit, h, m, clock) && clock <= e.now
    ensures TracksAll(limit, SpecStep(limit, h, e), Step(limit, m, e), e.now)
  {
    forall key ensures Tracks(limit, SpecStep(limit, h, e), Step(limit, m, e), e.now, key) {
      TimePasses(limit, h, m, clock, e.now, key);
      match e
      case Request(asked, now) => RequestKeepsTracking(limit, h, m, now, asked, key);
      case Sweep(now) => SweepKeepsTracking(limit, h, m, now, key);
      case Evict(_, _) =>
    }
  }

  lemma SameReply(limit: Limit, h: Histories, m: Windows, clock: int, e: Event)
    requires TracksAll(limit, h, m, clock) && clock <= e.now
    ensures ReplyTo(limit, m, e) == SpecReply(limit, h, e)
  {
    if e.Request? { TimePasses(limit, h, m, clock, e.now, e.key); }
  }

  /** The in-memory backend answers every clocked run like the specification, sweeps anywhere. */
  lemma {:induction false} MemoryRefinesSpec(limit: Limit, h: Histories, m: Windows, clock: int, events: seq<Event>)
    requires Clocked(clock, events) && TracksAll(limit, h, m, clock)
    ensures Replies(limit, m, events) == SpecReplies(limit, h, events)
    decreases |events|
  {
    if events == [] {
    } else {
      var e := events[0];
      SameReply(limit, h, m, clock, e);
      StepKeepsTracking(limit, h, m, clock, e);
      MemoryRefinesSpec(limit, SpecStep(limit, h, e), Step(limit, m, e), e.now, events[1..]);
    }
  }

  /** For every key, run and instant, the window ending there holds at most `max` allowed requests. */
  lemma {:induction false} MemoryRateIsBounded(limit: Limit, clock: int, events: seq<Event>, key: string, t: int)
    requires Clocked(clock, events)
    ensures Load(limit, AllowedTimes(events, Replies(limit, map[], events), key), t) <= Ceiling(limit)
  {
    MemoryRefinesSpec(limit, map[], map[], clock, events);
    AllowedRateIsBounded(limit, clock, events, key, t);
  }

  lemma {:induction false} ClockedPrefix(clock: int, past: seq<Event>, e: Event)
    requires Clocked(clock, past + [e])
    ensures Clocked(clock, past)
    decreases |past|
  {
    if past == [] {
    } else {
      ClockedTail(clock, past, e);
      ClockedPrefix(past[0].now, past[1..], e);
    }
  }

  /** The in-memory backend allows exactly what the limit lets it: neither more nor less. */
  lemma {:induction false} MemoryAnswersExactly(limit: Limit, clock: int, past: seq<Event>, key: string, now: int)
    requires Clocked(clock, past + [Request(key, now)])
    ensures var replies := Replies(limit, map[], past);
            Replies(limit, map[], past + [Request(key, now)])
            == replies + [Owed(limit, AllowedTimes(past, replies, key), now)]
  {
    ClockedPrefix(clock, past, Request(key, now));
    MemoryRefinesSpec(limit, map[], map[], clock, past);
    MemoryRefinesSpec(limit, map[], map[], clock, past + [Request(key, now)]);
    SpecAnswersExactly(limit, clock, past, key, now);
  }

  // ---------------------------------------------------------------- the janitor

  function After(limit: Limit, m: Windows, events: seq<Event>): Windows
    decreases |events|
  {
    if events == [] then m else After(limit, Step(limit, m, events[0]), events[1..])
  }

  /** When `key` was last asked about, allowed or not; `last` from before. */
  function LastAsked(events: seq<Event>, key: string, last: Option<int>): Option<int>
    decreases |events|
  {
    if events == [] then last else LastAsked(events[1..], key, Asked(events[0], key, last))
  }

  function Asked(e: Event, key: string, last: Option<int>): Option<int> {
    if e.Request? && e.key == key then Some(e.now) else last
  }

  /** A key that is held expires a window after it was last asked about; one that is not was idle. */
  ghost predicate HeldSince(limit: Limit, m: Windows, clock: int, key: string, last: Option<int>) {
    if key in m then last == Some(m[key].expiresAt - limit.window)
    else last.None? || last.value + limit.window < clock
  }

  lemma StepKeepsHeld(limit: Limit, m: Windows, clock: int, e: Event, key: string, last: Option<int>)
    requires HeldSince(limit, m, clock, key, last) && clock <= e.now
    ensures HeldSince(limit, Step(limit, m, e), e.now, key, Asked(e, key, last))
  {
  }

  lemma {:induction false} SweepKeepsRecent(limit: Limit, m: Windows, clock: int, events: seq<Event>, key: string,
                                            last: Option<int>, now: int)
    requires HeldSince(limit, m, clock, key, last) && Clocked(clock, events + [Sweep(now)])
    ensures var asked := LastAsked(events, key, last);
            key in After(limit, m, events + [Sweep(now)]) <==> asked.Some? && now <= asked.value + limit.window
    decreases |events|
  {
    var all := events + [Sweep(now)];
    StepKeepsHeld(limit, m, clock, all[0], key, last);
    if events == [] {
      assert all[1..] == [];
    } else {
      assert all[1..] == events[1..] + [Sweep(now)];
      SweepKeepsRecent(limit, Step(limit, m, all[0]), all[0].now, events[1..], key, Asked(all[0], key, last), now);
    }
  }

  /** After a run of the janitor exactly the keys asked about within the last window are still held. */
  lemma {:induction false} JanitorForgetsIdleKeys(limit: Limit, clock: int, events: seq<Event>, key: string, now: int)
    requires Clocked(clock, events + [Sweep(now)])
    ensures var asked := LastAsked(events, key, None);
            key in After(limit, map[], events + [Sweep(now)]) <==> asked.Some? && now - asked.value <= limit.window
  {
    SweepKeepsRecent(limit, map[], clock, events, key, None, now);
  }

  // ---------------------------------------------------------------- the mutable backend

  lemma NothingToSweep(m: Windows, now: int)
    requires forall key :: key in m ==> now <= m[key].expiresAt
    ensures Swept(m, now) == m
  {
  }

  lemma SweptBefore(m: Windows, key: string, now: int)
    requires key in m && now > m[key].expiresAt
    ensures Swept(m - {key}, now) == Swept(m, now)
  {
  }

  lemma {:induction false} RecentOfPrefix(s: seq<int>, i: nat, cutoff: int)
    requires i < |s|
    ensures Recent(s[..i + 1], cutoff) == Recent(s[..i], cutoff) + if s[i] > cutoff then [s[i]] else []
  {
    assert s[..i + 1] == s[..i] + [s[i]];
    RecentSnoc(s[..i], s[i], cutoff);
  }

  /** Keeps the elements after the cutoff, moved to the front of the same array. */
  method Compact(a: array<int>, n: nat, cutoff: int) returns (kept: nat)
    requires n <= a.Length
    modifies a
    ensures kept <= n && a[..kept] == Recent(old(a[..n]), cutoff)
  {
    ghost var s := a[..n];
    kept := 0;
    for i := 0 to n
      invariant kept <= i
      invariant a[..kept] == Recent(s[..i], cutoff)
      invariant forall j :: i <= j < n ==> a[j] == s[j]
    {
      RecentOfPrefix(s, i, cutoff);
      var ts := a[i];
      if ts > cutoff {
        a[kept] := ts;
        kept := kept + 1;
      }
    }
    assert s[..n] == s;
  }

  class SlidingWindowState {
    var buffer: array<int>
    var len: nat
    var expiresAt: int

    ghost predicate Valid()
      reads this
    {
      len <= buffer.Length
    }

    ghost function View(): Window
      requires Valid()
      reads this, buffer
    {
      Window(buffer[..len], expiresAt)
    }

    ghost predicate Shows(w: Window)
      reads this, buffer
    {
      Valid() && View() == w
    }

    constructor ()
      ensures Valid() && View() == Window([], 0) && fresh(buffer)
    {
      buffer := new int[0];
      len := 0;
      expiresAt := 0;
    }

    method Prune(cutoff: int)
      requires Valid()
      modifies this`len, buffer
      ensures Valid() && View() == Window(Recent(old(View().times), cutoff), expiresAt)
    {
      len := Compact(buffer, len, cutoff);
    }

    /** Writes behind the last element, into a larger array when this one is full. */
    method Append(now: int)
      requires Valid()
      modifies this`len, this`buffer, buffer
      ensures Valid() && View() == Window(old(View().times) + [now], expiresAt)
      ensures buffer == old(buffer) || fresh(buffer)
    {
      if len == buffer.Length {
        var larger := new int[2 * len + 1];
        forall i | 0 <= i < len { larger[i] := buffer[i]; }
        buffer := larger;
        assert buffer[..len] == old(buffer[..len]);
      }
      buffer[len] := now;
      len := len + 1;
    }

    method Record(limit: Limit, now: int) returns (reply: Reply)
      requires Valid()
      modifies this, buffer
      ensures Shows(Recorded(limit, old(View().times), now).0) && (buffer == old(buffer) || fresh(buffer))
      ensures reply == Recorded(limit, old(View().times), now).1
    {
      Prune(now - limit.window);
      expiresAt := now + limit.window;
      var count := len;
      if count >= limit.max {
        return Reply(false, 0);
      }
      Append(now);
      return Reply(true, limit.max - count - 1);
    }
  }

  class MemoryBackend {
    var windows: map<string, SlidingWindowState>
    ghost var view: Windows

    /** Each key has its own window and its own array. */
    ghost predicate Separate()
      reads this, windows.Values
    {
      forall a, b :: a in windows && b in windows && a != b ==>
        windows[a] != windows[b] && windows[a].buffer != windows[b].buffer
    }

    ghost function Buffers(): set<array<int>>
      reads this, windows.Values
    {
      set key | key in windows :: windows[key].buffer
    }

    ghost predicate Valid()
      reads this, windows.Values, Buffers()
    {
      && Separate() && windows.Keys == view.Keys
      && forall key :: key in windows ==> windows[key].Shows(view[key])
    }

    constructor ()
      ensures Valid() && view == map[]
    {
      windows, view := map[], map[];
    }

    method Allow(limit: Limit, key: string, now: int) returns (reply: Reply)
      requires Valid()
      modifies this, windows.Values, Buffers()
      ensures Valid()
      ensures (view, reply) == Allowed(limit, old(view), key, now)
    {
      if key !in windows {
        EmptyWindowIsNone(limit, view, key, now);
        Create(key);
      }
      reply := Record(limit, key, now);
    }

    /** Adds an empty window for the key. */
    method Create(key: string)
      requires Valid() && key !in windows
      modifies this
      ensures Valid() && key in windows && windows == old(windows)[key := windows[key]]
      ensures fresh(windows[key]) && fresh(windows[key].buffer)
      ensures view == old(view)[key := Window([], 0)]
    {
      var sw := new SlidingWindowState();
      windows, view := windows[key := sw], view[key := Window([], 0)];
    }

    method Record(limit: Limit, key: string, now: int) returns (reply: Reply)
      requires Valid() && key in windows
      modifies this`view, windows[key], windows[key].buffer
      ensures Valid()
      ensures view == old(view)[key := Recorded(limit, old(view[key].times), now).0]
      ensures reply == Recorded(limit, old(view[key].times), now).1
    {
      var sw := windows[key];
      ghost var w := view[key];
      assert sw.Shows(w);
      reply := sw.Record(limit, now);
      view := view[key := Recorded(limit, w.times, now).0];
      OthersAreLeftAlone(key);
    }

    /** What happens to the window of one key leaves the others as they were. */
    twostate lemma OthersAreLeftAlone(key: string)
      requires old(Valid()) && windows == old(windows) && key in windows
      requires forall k :: k in windows && k != key ==> unchanged(windows[k]) && unchanged(windows[k].buffer)
      requires windows[key].buffer == old(windows[key].buffer) || fresh(windows[key].buffer)
      requires view.Keys == old(view).Keys && forall k :: k in view && k != key ==> view[k] == old(view)[k]
      requires windows[key].Shows(view[key])
      ensures Valid()
    {
    }

    /** One tick of the janitor. */
    method Cleanup(now: int)
      requires Valid()
      modifies this
      ensures Valid() && view == Swept(old(view), now)
    {
      var todo := windows.Keys;
      while todo != {}
        invariant Valid() && todo <= windows.Keys
        invariant Swept(view, now) == Swept(old(view), now)
        invariant forall key :: key in view && key !in todo ==> now <= view[key].expiresAt
        decreases todo
      {
        var key :| key in todo;
        todo := todo - {key};
        if now > windows[key].expiresAt {
          SweptBefore(view, key, now);
          Drop(key);
        }
      }
      NothingToSweep(view, now);
    }

    method Drop(key: string)
      requires Valid() && key in windows
      modifies this
      ensures Valid() && windows == old(windows) - {key} && view == old(view) - {key}
    {
      windows, view := windows - {key}, view - {key};
    }
  }
}

/** The Redis backend: the sorted-set script, whose members are the request times themselves. */
module RedisLimiter {
  import opened Options
  import opened SlidingWindow
  import MemoryLimiter

  const MILLI: int := 1_000_000
  const SECOND: int := 1_000_000_000

  /** Members in ascending order of score, and the instant at which Redis may drop the key. */
  datatype ZSet = ZSet(members: seq<int>, deadline: int)

  type ZSets = map<string, ZSet>

  function Members(z: ZSets, key: string): seq<int> {
    if key in z then z[key].members else []
  }

  function CeilDiv(a: int, b: int): int
    requires b > 0
  {
    (a + b - 1) / b
  }

  /** ZADD of a member equal to its score: a member that is there already is not added again. */
  function Added(members: seq<int>, x: int): seq<int> {
    if members == [] then [x]
    else
      var init, last := members[..|members| - 1], members[|members| - 1];
      if last < x then members + [x]
      else if last == x then members
      else Added(init, x) + [last]
  }

  function Slot(z: ZSets, key: string): Option<ZSet> {
    if key in z then Some(z[key]) else None
  }

  function WithSlot(z: ZSets, key: string, slot: Option<ZSet>): ZSets {
    if slot.Some? then z[key := slot.value] else z - {key}
  }

  function RetrySeconds(limit: Limit, members: seq<int>, now: int): int {
    var retry := CeilDiv(if members != [] then members[0] + limit.window - now else 0, SECOND);
    if retry < 1 then 1 else retry
  }

  /** PEXPIRE takes whole milliseconds, rounded up. */
  function TimeToLive(limit: Limit): (ttl: int)
    ensures limit.window <= ttl < limit.window + MILLI
  {
    CeilDiv(limit.window, MILLI) * MILLI
  }

  /** The script after ZREMRANGEBYSCORE has left `valid` of the key's members: what the key holds in
      the end, the reply, and the seconds to wait after a refusal. Redis removes a sorted set that has
      become empty, and the removal of members leaves the key's deadline alone. */
  function Scripted(limit: Limit, valid: seq<int>, deadline: int, now: int): (Option<ZSet>, Reply, int) {
    if |valid| >= limit.max then
      (if valid == [] then None else Some(ZSet(valid, deadline)), Reply(false, 0), RetrySeconds(limit, valid, now))
    else
      (Some(ZSet(Added(valid, now), now + TimeToLive(limit))), Reply(true, limit.max - |valid| - 1), 0)
  }

  function Deadline(z: ZSets, key: string): int {
    if key in z then z[key].deadline else 0
  }

  function Script(limit: Limit, z: ZSets, key: string, now: int): (ZSets, Reply, int) {
    var valid := Recent(Members(z, key), now - limit.window);
    var (slot, reply, retry) := Scripted(limit, valid, Deadline(z, key), now);
    (WithSlot(z, key, slot), reply, retry)
  }

  function Evicted(z: ZSets, key: string, now: int): ZSets {
    if key in z && now >= z[key].deadline then z - {key} else z
  }

  function Step(limit: Limit, z: ZSets, e: Event): ZSets {
    match e
    case Request(key, now) => Script(limit, z, key, now).0
    case Sweep(_) => z
    case Evict(key, now) => Evicted(z, key, now)
  }

  function Run(limit: Limit, z: ZSets, events: seq<Event>): ZSets
    decreases |events|
  {
    if events == [] then z else Run(limit, Step(limit, z, events[0]), events[1..])
  }

  function ReplyTo(limit: Limit, z: ZSets, e: Event): seq<Reply> {
    if e.Request? then [Script(limit, z, e.key, e.now).1] else []
  }

  function Replies(limit: Limit, z: ZSets, events: seq<Event>): seq<Reply>
    decreases |events|
  {
    if events == [] then []
    else ReplyTo(limit, z, events[0]) + Replies(limit, Step(limit, z, events[0]), events[1..])
  }

  /** The key of an allowed request stays for the window that begins with it and for less than a
      millisecond more; a refusal keeps or removes it as it was. */
  lemma KeyLivesForWindow(limit: Limit, z: ZSets, key: string, now: int, t: int)
    ensures var (after, reply, _) := Script(limit, z, key, now);
            && (reply.allowed && t < now + limit.window ==> key in Evicted(after, key, t))
            && (reply.allowed && t >= now + limit.window + MILLI ==> key !in Evicted(after, key, t))
            && (!reply.allowed && key in Evicted(after, key, t) ==> key in Evicted(z, key, t))
  {
  }

  // ---------------------------------------------------------------- refinement

  ghost predicate SlotTracks(limit: Limit, history: seq<int>, slot: Option<ZSet>, clock: int) {
    match slot
    case None => InStep(limit, history, [], clock)
    case Some(zset) =>
      && InStep(limit, history, zset.members, clock) && NoLaterThan(zset.members, clock)
      && NoLaterThan(history, zset.deadline - limit.window)
  }

  ghost predicate Tracks(limit: Limit, h: Histories, z: ZSets, clock: int, key: string) {
    SlotTracks(limit, History(h, key), Slot(z, key), clock)
  }

  lemma TimePasses(limit: Limit, h: Histories, z: ZSets, clock: int, later: int, key: string)
    requires Tracks(limit, h, z, clock, key) && clock <= later
    ensures Tracks(limit, h, z, later, key)
  {
    InStepLater(limit, History(h, key), Members(z, key), clock, later);
  }

  lemma {:induction false} RecentNoLater(h: seq<int>, cutoff: int, t: int)
    requires NoLaterThan(h, t)
    ensures NoLaterThan(Recent(h, cutoff), t)
  {
    if h == [] {
    } else {
      RecentNoLater(h[..|h| - 1], cutoff, t);
    }
  }

  lemma SameReply(limit: Limit, h: Histories, z: ZSets, key: string, now: int)
    requires Tracks(limit, h, z, now, key)
    ensures Script(limit, z, key, now).1 == Admit(limit, h, key, now).1
  {
  }

  /** The youngest of the members is `now` itself. */
  predicate Holds(members: seq<int>, now: int) {
    |members| > 0 && members[|members| - 1] == now
  }

  predicate Uncounted(limit: Limit, valid: seq<int>, now: int) {
    |valid| < limit.max && Holds(valid, now)
  }

  /** A request that is allowed although the sorted set holds a member of the same time, so that ZADD
      does not add another. */
  predicate Tied(limit: Limit, z: ZSets, key: string, now: int) {
    Uncounted(limit, Recent(Members(z, key), now - limit.window), now)
  }

  lemma {:induction false} AdmittedStaysTracked(limit: Limit, history: seq<int>, valid: seq<int>, now: int)
    requires InStep(limit, history, valid, now) && NoLaterThan(valid, now) && !Holds(valid, now)
    ensures SlotTracks(limit, history + [now], Some(ZSet(Added(valid, now), now + TimeToLive(limit))), now)
  {
    AddedAtEnd(valid, now);
    RecordedInStep(limit, history, valid, now);
  }

  lemma {:induction false} AddedAtEnd(valid: seq<int>, now: int)
    requires valid == [] || valid[|valid| - 1] < now
    ensures Added(valid, now) == valid + [now]
  {
  }

  lemma DeniedStaysTracked(limit: Limit, history: seq<int>, valid: seq<int>, deadline: int, now: int)
    requires InStep(limit, history, valid, now) && NoLaterThan(valid, now)
    requires valid != [] ==> NoLaterThan(history, deadline - limit.window)
    ensures SlotTracks(limit, history, if valid == [] then None else Some(ZSet(valid, deadline)), now)
  {
  }

  function MembersOf(slot: Option<ZSet>): seq<int> {
    if slot.Some? then slot.value.members else []
  }

  /** The history after a request of which the sorted set counts `valid` before it. */
  function Grown(limit: Limit, history: seq<int>, valid: seq<int>, now: int): seq<int> {
    if |valid| >= limit.max then history else history + [now]
  }

  lemma {:induction false} AskedSlotStaysTracked(limit: Limit, history: seq<int>, slot: Option<ZSet>, valid: seq<int>,
                                                 deadline: int, now: int)
    requires SlotTracks(limit, history, slot, now) && !Uncounted(limit, valid, now)
    requires valid == Recent(MembersOf(slot), now - limit.window) && (slot.Some? ==> deadline == slot.value.deadline)
    ensures SlotTracks(limit, Grown(limit, history, valid, now), Scripted(limit, valid, deadline, now).0, now)
  {
    PrunedInStep(limit, history, MembersOf(slot), now);
    RecentNoLater(MembersOf(slot), now - limit.window, now);
    if |valid| >= limit.max {
      DeniedStaysTracked(limit, history, valid, deadline, now);
    } else {
      AdmittedStaysTracked(limit, history, valid, now);
    }
  }

  lemma TracksBySlot(limit: Limit, h: Histories, z: ZSets, clock: int, key: string, history: seq<int>,
                     slot: Option<ZSet>)
    requires History(h, key) == history && Slot(z, key) == slot && SlotTracks(limit, history, slot, clock)
    ensures Tracks(limit, h, z, clock, key)
  {
  }

  lemma AskedStaysTracked(limit: Limit, h: Histories, z: ZSets, key: string, now: int)
    requires Tracks(limit, h, z, now, key) && !Tied(limit, z, key, now)
    ensures Tracks(limit, Admit(limit, h, key, now).0, Script(limit, z, key, now).0, now, key)
  {
    var history, slot := History(h, key), Slot(z, key);
    var valid, deadline := Recent(Members(z, key), now - limit.window), Deadline(z, key);
    AskedSlotStaysTracked(limit, history, slot, valid, deadline, now);
    TrackedHistoryAfter(limit, h, z, key, now);
    SlotAfter(limit, z, key, now);
    TracksBySlot(limit, Admit(limit, h, key, now).0, Script(limit, z, key, now).0, now, key,
                 Grown(limit, history, valid, now), Scripted(limit, valid, deadline, now).0);
  }

  lemma {:induction false} HistoryAfter(limit: Limit, h: Histories, key: string, now: int)
    ensures History(Admit(limit, h, key, now).0, key)
         == Grown(limit, History(h, key), Recent(History(h, key), now - limit.window), now)
  {
  }

  lemma {:induction false} TrackedHistoryAfter(limit: Limit, h: Histories, z: ZSets, key: string, now: int)
    requires Tracks(limit, h, z, now, key)
    ensures History(Admit(limit, h, key, now).0, key)
         == Grown(limit, History(h, key), Recent(Members(z, key), now - limit.window), now)
  {
    HistoryAfter(limit, h, key, now);
  }

  lemma {:induction false} SlotAfter(limit: Limit, z: ZSets, key: string, now: int)
    ensures Slot(Script(limit, z, key, now).0, key)
         == Scripted(limit, Recent(Members(z, key), now - limit.window), Deadline(z, key), now).0
  {
  }

  lemma OtherStaysTracked(limit: Limit, h: Histories, z: ZSets, asked: string, now: int, key: string)
    requires Tracks(limit, h, z, now, key) && key != asked
    ensures Tracks(limit, Admit(limit, h, asked, now).0, Script(limit, z, asked, now).0, now, key)
  {
    TracksBySlot(limit, Admit(limit, h, asked, now).0, Script(limit, z, asked, now).0, now, key,
                 History(h, key), Slot(z, key));
  }

  /** What an expired key held had left every window already. */
  lemma EvictionKeepsTracking(limit: Limit, h: Histories, z: ZSets, evicted: string, now: int, key: string)
    requires Tracks(limit, h, z, now, key)
    ensures Tracks(limit, h, Evicted(z, evicted, now), now, key)
  {
    if key == evicted && key in z && now >= z[key].deadline { RecentOfOld(History(h, key), now - limit.window); }
  }

  function LastTime(clock: int, events: seq<Event>): int {
    if events == [] then clock else events[|events| - 1].now
  }

  predicate TiedOn(limit: Limit, z: ZSets, e: Event, key: string) {
    e.Request? && e.key == key && Tied(limit, z, key, e.now)
  }

  /** No request on `key` is tied during the run. */
  predicate UntiedOn(limit: Limit, z: ZSets, events: seq<Event>, key: string)
    decreases |events|
  {
    events == [] ||
    (!TiedOn(limit, z, events[0], key) && UntiedOn(limit, Step(limit, z, events[0]), events[1..], key))
  }

  lemma StepKeepsTracking(limit: Limit, h: Histories, z: ZSets, clock: int, e: Event, key: string)
    requires Tracks(limit, h, z, clock, key) && clock <= e.now && !TiedOn(limit, z, e, key)
    ensures Tracks(limit, SpecStep(limit, h, e), Step(limit, z, e), e.now, key)
  {
    TimePasses(limit, h, z, clock, e.now, key);
    match e
    case Request(asked, now) =>
      if asked == key { AskedStaysTracked(limit, h, z, key, now); }
      else { OtherStaysTracked(limit, h, z, asked, now, key); }
    case Sweep(_) =>
    case Evict(evicted, now) => EvictionKeepsTracking(limit, h, z, evicted, now, key);
  }

  lemma SameReplyTo(limit: Limit, h: Histories, z: ZSets, clock: int, e: Event)
    requires clock <= e.now && (e.Request? ==> Tracks(limit, h, z, clock, e.key))
    ensures ReplyTo(limit, z, e) == SpecReply(limit, h, e)
  {
    if e.Request? {
      TimePasses(limit, h, z, clock, e.now, e.key);
      SameReply(limit, h, z, e.key, e.now);
    }
  }

  // ---------------------------------------------------------------- exactly when the answers are right

  /** Whatever comes next on `key` gets the answer the specification gives. */
  ghost predicate Answers(limit: Limit, h: Histories, z: ZSets, clock: int, key: string) {
    forall now :: clock <= now ==> Script(limit, z, key, now).1 == Admit(limit, h, key, now).1
  }

  /** At every moment of the run, whatever would come next on `key` gets the specified answer. */
  ghost predicate AlwaysAnswers(limit: Limit, h: Histories, z: ZSets, clock: int, events: seq<Event>, key: string)
    decreases |events|
  {
    && Answers(limit, h, z, clock, key)
    && (events == [] ||
        AlwaysAnswers(limit, SpecStep(limit, h, events[0]), Step(limit, z, events[0]), events[0].now, events[1..], key))
  }

  lemma TrackedAnswers(limit: Limit, h: Histories, z: ZSets, clock: int, key: string)
    requires Tracks(limit, h, z, clock, key)
    ensures Answers(limit, h, z, clock, key)
  {
    forall now | clock <= now ensures Script(limit, z, key, now).1 == Admit(limit, h, key, now).1 {
      TimePasses(limit, h, z, clock, now, key);
      SameReply(limit, h, z, key, now);
    }
  }

  /** ZADD of the youngest member changes nothing. */
  lemma {:induction false} AddedAgain(valid: seq<int>, now: int)
    requires Holds(valid, now)
    ensures Added(valid, now) == valid
  {
  }

  lemma ScriptedTied(limit: Limit, valid: seq<int>, deadline: int, now: int)
    requires Uncounted(limit, valid, now)
    ensures MembersOf(Scripted(limit, valid, deadline, now).0) == valid
  {
    AddedAgain(valid, now);
  }

  lemma MembersBySlot(z: ZSets, key: string)
    ensures Members(z, key) == MembersOf(Slot(z, key))
  {
  }

  lemma {:induction false} TiedSlot(limit: Limit, z: ZSets, key: string, now: int)
    requires Tied(limit, z, key, now)
    ensures Members(Script(limit, z, key, now).0, key) == Recent(Members(z, key), now - limit.window)
  {
    SlotAfter(limit, z, key, now);
    ScriptedTied(limit, Recent(Members(z, key), now - limit.window), Deadline(z, key), now);
    MembersBySlot(Script(limit, z, key, now).0, key);
  }

  lemma {:induction false} HeldIsRecent(members: seq<int>, cutoff: int, now: int)
    requires Holds(Recent(members, cutoff), now)
    ensures now > cutoff
  {
    RecentMembers(members, cutoff, now);
  }

  lemma {:induction false} SameCount(limit: Limit, h: Histories, z: ZSets, key: string, now: int)
    requires Tracks(limit, h, z, now, key)
    ensures Recent(Members(z, key), now - limit.window) == Recent(History(h, key), now - limit.window)
  {
    MembersBySlot(z, key);
  }

  lemma TiedWithinWindow(limit: Limit, z: ZSets, key: string, now: int)
    requires Tied(limit, z, key, now)
    ensures limit.window > 0
  {
    HeldIsRecent(Members(z, key), now - limit.window, now);
  }

  lemma TiedGrows(limit: Limit, h: Histories, z: ZSets, key: string, now: int)
    requires Tracks(limit, h, z, now, key) && Tied(limit, z, key, now)
    ensures History(Admit(limit, h, key, now).0, key) == History(h, key) + [now]
  {
    TrackedHistoryAfter(limit, h, z, key, now);
  }

  /** How many requests the sorted set, or the history, counts at `now`. */
  function SetCount(limit: Limit, z: ZSets, key: string, now: int): nat {
    |Recent(Members(z, key), now - limit.window)|
  }

  function HistoryCount(limit: Limit, h: Histories, key: string, now: int): nat {
    |Recent(History(h, key), now - limit.window)|
  }

  lemma CountsDiffer(limit: Limit, h: Histories, z: ZSets, key: string, now: int, n: nat)
    requires SetCount(limit, z, key, now) == n < limit.max && HistoryCount(limit, h, key, now) == n + 1
    ensures Script(limit, z, key, now).1 != Admit(limit, h, key, now).1
  {
  }

  lemma TiedSetCount(limit: Limit, z: ZSets, key: string, now: int, z': ZSets)
    requires Tied(limit, z, key, now) && z' == Script(limit, z, key, now).0
    ensures SetCount(limit, z', key, now) == SetCount(limit, z, key, now)
  {
    TiedSlot(limit, z, key, now);
    RecentTwice(Members(z, key), now - limit.window, now - limit.window);
  }

  lemma TiedIsBelow(limit: Limit, z: ZSets, key: string, now: int)
    requires Tied(limit, z, key, now)
    ensures SetCount(limit, z, key, now) < limit.max
  {
  }

  lemma TiedHistoryCount(limit: Limit, h: Histories, z: ZSets, key: string, now: int, h': Histories)
    requires Tracks(limit, h, z, now, key) && Tied(limit, z, key, now) && h' == Admit(limit, h, key, now).0
    ensures HistoryCount(limit, h', key, now) == SetCount(limit, z, key, now) + 1
  {
    TiedWithinWindow(limit, z, key, now);
    TiedGrows(limit, h, z, key, now);
    SameCount(limit, h, z, key, now);
    RecentSnoc(History(h, key), now, now - limit.window);
  }

  /** After a tied request the sorted set counts one request less than there were, so that another
      request at the same instant is answered wrongly. */
  lemma TieIsNoticed(limit: Limit, h: Histories, z: ZSets, key: string, now: int)
    requires Tracks(limit, h, z, now, key) && Tied(limit, z, key, now)
    ensures Script(limit, Script(limit, z, key, now).0, key, now).1
         != Admit(limit, Admit(limit, h, key, now).0, key, now).1
  {
    var h', z' := Admit(limit, h, key, now).0, Script(limit, z, key, now).0;
    TiedIsBelow(limit, z, key, now);
    TiedSetCount(limit, z, key, now, z');
    TiedHistoryCount(limit, h, z, key, now, h');
    CountsDiffer(limit, h', z', key, now, SetCount(limit, z, key, now));
  }

  /** The exact condition for the answers on a key, over any run under a clock that never goes back:
      they are right at every moment if and only if no allowed request on that key is tied. */
  lemma {:induction false} AnswersExactlyUnlessTied(limit: Limit, h: Histories, z: ZSets, clock: int,
                                                    events: seq<Event>, key: string)
    requires Clocked(clock, events) && Tracks(limit, h, z, clock, key)
    ensures AlwaysAnswers(limit, h, z, clock, events, key) <==> UntiedOn(limit, z, events, key)
    decreases |events|
  {
    TrackedAnswers(limit, h, z, clock, key);
    if events == [] {
    } else if TiedOn(limit, z, events[0], key) {
      TimePasses(limit, h, z, clock, events[0].now, key);
      TieIsNoticed(limit, h, z, key, events[0].now);
      assert !Answers(limit, SpecStep(limit, h, events[0]), Step(limit, z, events[0]), events[0].now, key);
    } else {
      StepKeepsTracking(limit, h, z, clock, events[0], key);
      AnswersExactlyUnlessTied(limit, SpecStep(limit, h, events[0]), Step(limit, z, events[0]), events[0].now,
                               events[1..], key);
    }
  }

  /** From empty stores. */
  lemma {:induction false} RedisIsExactlyUnlessTied(limit: Limit, clock: int, events: seq<Event>, key: string)
    requires Clocked(clock, events)
    ensures AlwaysAnswers(limit, map[], map[], clock, events, key) <==> UntiedOn(limit, map[], events, key)
  {
    AnswersExactlyUnlessTied(limit, map[], map[], clock, events, key);
  }

  /** Without ties on a key, the same requests on it are allowed as by the specification, whatever
      happens on other keys and whenever Redis drops keys whose time to live is over. */
  lemma {:induction false} SameTimesAllowed(limit: Limit, h: Histories, z: ZSets, clock: int, events: seq<Event>,
                                            key: string)
    requires Clocked(clock, events) && Tracks(limit, h, z, clock, key) && UntiedOn(limit, z, events, key)
    ensures AllowedTimes(events, Replies(limit, z, events), key)
        == AllowedTimes(events, SpecReplies(limit, h, events), key)
    ensures Tracks(limit, SpecRun(limit, h, events), Run(limit, z, events), LastTime(clock, events), key)
    decreases |events|
  {
    if events == [] {
    } else {
      var e := events[0];
      var h', z' := SpecStep(limit, h, e), Step(limit, z, e);
      StepKeepsTracking(limit, h, z, clock, e, key);
      assert LastTime(e.now, events[1..]) == LastTime(clock, events);
      SameTimesAllowed(limit, h', z', e.now, events[1..], key);
      if e.Request? && e.key == key { SameReplyTo(limit, h, z, clock, e); }
      AllowedTimesStep(events, ReplyTo(limit, z, e), Replies(limit, z', events[1..]), key);
      AllowedTimesStep(events, SpecReply(limit, h, e), SpecReplies(limit, h', events[1..]), key);
    }
  }

  ghost predicate TracksAll(limit: Limit, h: Histories, z: ZSets, clock: int) {
    forall key :: Tracks(limit, h, z, clock, key)
  }

  ghost predicate Untied(limit: Limit, z: ZSets, events: seq<Event>) {
    forall key :: UntiedOn(limit, z, events, key)
  }

  /** Without ties on any key, all replies are those of the specification. */
  lemma {:induction false} RedisRefinesSpec(limit: Limit, h: Histories, z: ZSets, clock: int, events: seq<Event>)
    requires Clocked(clock, events) && TracksAll(limit, h, z, clock) && Untied(limit, z, events)
    ensures Replies(limit, z, events) == SpecReplies(limit, h, events)
    decreases |events|
  {
    if events == [] {
    } else {
      var e := events[0];
      SameReplyTo(limit, h, z, clock, e);
      forall key ensures Tracks(limit, SpecStep(limit, h, e), Step(limit, z, e), e.now, key) {
        assert UntiedOn(limit, z, events, key) && Tracks(limit, h, z, clock, key);
        StepKeepsTracking(limit, h, z, clock, e, key);
      }
      assert forall key :: UntiedOn(limit, z, events, key) ==> UntiedOn(limit, Step(limit, z, e), events[1..], key);
      RedisRefinesSpec(limit, SpecStep(limit, h, e), Step(limit, z, e), e.now, events[1..]);
    }
  }

  /** The two backends give the same answers to the same requests, sweeps and evictions anywhere. */
  lemma {:induction false} BackendsAgree(limit: Limit, clock: int, events: seq<Event>)
    requires Clocked(clock, events) && Untied(limit, map[], events)
    ensures Replies(limit, map[], events) == MemoryLimiter.Replies(limit, map[], events)
  {
    RedisRefinesSpec(limit, map[], map[], clock, events);
    MemoryLimiter.MemoryRefinesSpec(limit, map[], map[], clock, events);
  }

  lemma {:induction false} RedisRateIsBounded(limit: Limit, clock: int, events: seq<Event>, key: string, t: int)
    requires Clocked(clock, events) && UntiedOn(limit, map[], events, key)
    ensures Load(limit, AllowedTimes(events, Replies(limit, map[], events), key), t) <= Ceiling(limit)
  {
    SameTimesAllowed(limit, map[], map[], clock, events, key);
    AllowedRateIsBounded(limit, clock, events, key, t);
  }

  /** Requests at one and the same instant pass the script beyond the limit. */
  lemma TiedRequestsExceedTheRate()
    ensures var e := Request("k", 5);
            var limit := Limit(2, 10);
            Load(limit, AllowedTimes([e, e, e], Replies(limit, map[], [e, e, e]), "k"), 5) == 3 > Ceiling(limit)
  {
    var e := Request("k", 5);
    var limit := Limit(2, 10);
    var z := map["k" := ZSet([5], 5 + TimeToLive(limit))];
    assert Script(limit, map[], "k", 5) == (z, Reply(true, 1), 0);
    assert Recent([5], -5) == [5];
    assert Added([5], 5) == [5] && z["k" := z["k"]] == z;
    assert Script(limit, z, "k", 5) == (z, Reply(true, 0), 0);
    assert [e, e, e][1..] == [e, e] && [e, e][1..] == [e];
    var ok := Reply(true, 0);
    assert Replies(limit, z, [e]) == [ok];
    assert Replies(limit, z, [e, e]) == [ok, ok];
    var replies := Replies(limit, map[], [e, e, e]);
    assert replies == [Reply(true, 1), ok, ok];
    assert replies[1..] == [ok, ok] && [ok, ok][1..] == [ok];
    assert AllowedTimes([e], [ok], "k") == [5];
    assert AllowedTimes([e, e], [ok, ok], "k") == [5, 5];
    assert AllowedTimes([e, e, e], replies, "k") == [5, 5, 5];
    assert [5, 5, 5][..2] == [5, 5] && [5, 5][..1] == [5];
    assert CountIn([5], -5, 5) == 1 && CountIn([5, 5], -5, 5) == 2;
  }

  // ---------------------------------------------------------------- retry-after

  lemma {:induction false} AllRecent(h: seq<int>, cutoff: int)
    requires forall i :: 0 <= i < |h| ==> h[i] > cutoff
    ensures Recent(h, cutoff) == h
  {
    if h == [] {
    } else {
      AllRecent(h[..|h| - 1], cutoff);
    }
  }

  lemma {:induction false} OldHeadIsDropped(h: seq<int>, cutoff: int)
    requires h != [] && h[0] <= cutoff
    ensures |Recent(h, cutoff)| < |h|
  {
    if |h| == 1 {
    } else {
      OldHeadIsDropped(h[..|h| - 1], cutoff);
    }
  }

  /** A key with as many recent requests as the limit allows, the first of them the oldest. */
  ghost predicate Full(limit: Limit, history: seq<int>, now: int) {
    var valid := Recent(history, now - limit.window);
    limit.max >= 1 && |valid| == limit.max && (forall i :: 0 <= i < |valid| ==> valid[0] <= valid[i])
  }

  /** The wait a refused caller was told, or, if it is more than one second, one second less. */
  predicate RetryOrOneLess(wait: int, told: int) {
    wait == told || (wait == told - 1 && told > 1)
  }

  /** The wait told to a refused caller is the shortest whole number of seconds that helps. */
  lemma RetryIsExact(limit: Limit, history: seq<int>, now: int, wait: int, later: int)
    requires Full(limit, history, now) && later == now + wait * SECOND
    requires RetryOrOneLess(wait, RetrySeconds(limit, Recent(history, now - limit.window), now))
    ensures |Recent(history, later - limit.window)| < limit.max
       <==> wait == RetrySeconds(limit, Recent(history, now - limit.window), now)
  {
    var cutoff := now - limit.window;
    var valid := Recent(history, cutoff);
    RecentMembers(history, cutoff, valid[0]);
    OldestLeavesAfter(limit, valid, now, wait);
    SlotFreesWithOldest(history, cutoff, later - limit.window);
  }

  /** The count drops exactly when the oldest counted request drops out. */
  lemma {:induction false} SlotFreesWithOldest(history: seq<int>, cutoff: int, later: int)
    requires cutoff <= later && Recent(history, cutoff) != []
    requires var valid := Recent(history, cutoff); forall i :: 0 <= i < |valid| ==> valid[0] <= valid[i]
    ensures |Recent(history, later)| < |Recent(history, cutoff)| <==> Recent(history, cutoff)[0] <= later
    ensures |Recent(history, later)| <= |Recent(history, cutoff)|
  {
    var valid := Recent(history, cutoff);
    RecentTwice(history, cutoff, later);
    if valid[0] <= later { OldHeadIsDropped(valid, later); } else { AllRecent(valid, later); }
  }

  lemma OldestLeavesAfter(limit: Limit, valid: seq<int>, now: int, wait: int)
    requires valid != [] && valid[0] > now - limit.window
    requires RetryOrOneLess(wait, RetrySeconds(limit, valid, now))
    ensures wait >= 1 && (valid[0] <= now - limit.window + wait * SECOND <==> wait == RetrySeconds(limit, valid, now))
  {
    CeilDivBounds(valid[0] + limit.window - now);
  }

  lemma CeilDivBounds(a: int)
    ensures (CeilDiv(a, SECOND) - 1) * SECOND < a <= CeilDiv(a, SECOND) * SECOND
  {
  }

  ghost predicate Ascending(h: seq<int>) {
    forall i, j :: 0 <= i < j < |h| ==> h[i] <= h[j]
  }

  lemma {:induction false} RecentAscending(h: seq<int>, cutoff: int)
    requires Ascending(h)
    ensures Ascending(Recent(h, cutoff))
  {
    if h == [] {
    } else {
      var init, last := h[..|h| - 1], h[|h| - 1];
      RecentAscending(init, cutoff);
      RecentNoLater(init, cutoff, last);
    }
  }

  /** What holds of a key's sorted set whatever requests came, tied or not. */
  ghost predicate Formed(limit: Limit, slot: Option<ZSet>, clock: int) {
    slot.Some? ==>
      && Ascending(slot.value.members) && NoLaterThan(slot.value.members, clock)
      && NoLaterThan(slot.value.members, slot.value.deadline - limit.window)
      && |slot.value.members| <= Ceiling(limit)
  }

  lemma {:induction false} AddedFormed(limit: Limit, valid: seq<int>, now: int)
    requires Ascending(valid) && NoLaterThan(valid, now) && |valid| < limit.max
    ensures Formed(limit, Some(ZSet(Added(valid, now), now + TimeToLive(limit))), now)
  {
    if Holds(valid, now) {
      assert Added(valid, now) == valid;
    } else {
      AddedAtEnd(valid, now);
      AscendingSnoc(valid, now);
      NoLaterSnoc(valid, now);
    }
  }

  lemma AscendingSnoc(h: seq<int>, now: int)
    requires Ascending(h) && NoLaterThan(h, now)
    ensures Ascending(h + [now])
  {
  }

  lemma {:induction false} ScriptedFormed(limit: Limit, slot: Option<ZSet>, valid: seq<int>, deadline: int, now: int)
    requires Formed(limit, slot, now)
    requires slot.None? ==> valid == []
    requires slot.Some? ==> valid == Recent(slot.value.members, now - limit.window) && deadline == slot.value.deadline
    ensures Formed(limit, Scripted(limit, valid, deadline, now).0, now)
  {
    if slot.Some? {
      RecentAscending(slot.value.members, now - limit.window);
      RecentNoLater(slot.value.members, now - limit.window, now);
      RecentNoLater(slot.value.members, now - limit.window, deadline - limit.window);
    }
    if |valid| < limit.max { AddedFormed(limit, valid, now); }
  }

  lemma StepFormed(limit: Limit, z: ZSets, clock: int, e: Event, key: string)
    requires Formed(limit, Slot(z, key), clock) && clock <= e.now
    ensures Formed(limit, Slot(Step(limit, z, e), key), e.now)
  {
    if e.Request? && e.key == key {
      SlotAfter(limit, z, key, e.now);
      ScriptedFormed(limit, Slot(z, key), Recent(Members(z, key), e.now - limit.window), Deadline(z, key), e.now);
    }
  }

  lemma {:induction false} RunFormed(limit: Limit, z: ZSets, clock: int, events: seq<Event>, key: string)
    requires Clocked(clock, events) && Formed(limit, Slot(z, key), clock)
    ensures Formed(limit, Slot(Run(limit, z, events), key), LastTime(clock, events))
    decreases |events|
  {
    if events == [] {
    } else {
      StepFormed(limit, z, clock, events[0], key);
      assert LastTime(events[0].now, events[1..]) == LastTime(clock, events);
      RunFormed(limit, Step(limit, z, events[0]), events[0].now, events[1..], key);
    }
  }

  // ---------------------------------------------------------------- ties in terms of requests

  /** No time follows an equal one, `last` being the one before. */
  predicate NoRepeat(last: Option<int>, times: seq<int>)
    decreases |times|
  {
    times == [] || (last != Some(times[0]) && NoRepeat(Some(times[0]), times[1..]))
  }

  /** The youngest member is of this instant exactly if a request was last allowed at it. */
  ghost predicate Remembers(limit: Limit, z: ZSets, clock: int, key: string, last: Option<int>) {
    && Formed(limit, Slot(z, key), clock) && (last.Some? ==> last.value <= clock)
    && (Holds(Members(z, key), clock) <==> last == Some(clock))
  }

  lemma {:induction false} YoungestIsRecent(members: seq<int>, cutoff: int, now: int)
    requires cutoff < now && Ascending(members) && NoLaterThan(members, now)
    ensures Holds(Recent(members, cutoff), now) <==> Holds(members, now)
  {
    if Holds(members, now) {
      assert members == members[..|members| - 1] + [now];
      RecentSnoc(members[..|members| - 1], now, cutoff);
    } else {
      RecentMembers(members, cutoff, now);
    }
  }

  lemma RemembersLater(limit: Limit, z: ZSets, clock: int, later: int, key: string, last: Option<int>)
    requires Remembers(limit, z, clock, key, last) && clock <= later
    ensures Remembers(limit, z, later, key, last)
  {
  }

  /** The time of the last allowed request on `key` after one more event. */
  function LastAllowed(limit: Limit, z: ZSets, e: Event, key: string, last: Option<int>): Option<int> {
    var first := FirstAllowed(e, ReplyTo(limit, z, e), key);
    if first == [] then last else Some(first[0])
  }

  lemma {:induction false} ScriptedHolds(limit: Limit, members: seq<int>, deadline: int, now: int)
    requires limit.window > 0 && Ascending(members) && NoLaterThan(members, now)
    ensures var (slot, reply, _) := Scripted(limit, Recent(members, now - limit.window), deadline, now);
            Holds(MembersOf(slot), now) <==> reply.allowed || Holds(members, now)
  {
    var valid := Recent(members, now - limit.window);
    YoungestIsRecent(members, now - limit.window, now);
    RecentNoLater(members, now - limit.window, now);
    if |valid| < limit.max && !Holds(valid, now) { AddedAtEnd(valid, now); }
  }

  lemma AskedRemembers(limit: Limit, z: ZSets, key: string, now: int, last: Option<int>)
    requires limit.window > 0 && Remembers(limit, z, now, key, last)
    ensures var z' := Script(limit, z, key, now).0;
            Holds(Members(z', key), now) <==> Script(limit, z, key, now).1.allowed || last == Some(now)
  {
    ScriptedHolds(limit, Members(z, key), Deadline(z, key), now);
    SlotAfter(limit, z, key, now);
    MembersBySlot(Script(limit, z, key, now).0, key);
  }

  lemma EvictedRemembers(limit: Limit, z: ZSets, evicted: string, now: int, key: string, last: Option<int>)
    requires limit.window > 0 && Remembers(limit, z, now, key, last)
    ensures Holds(Members(Evicted(z, evicted, now), key), now) <==> last == Some(now)
  {
  }

  lemma StepRemembers(limit: Limit, z: ZSets, clock: int, e: Event, key: string, last: Option<int>)
    requires limit.window > 0 && Remembers(limit, z, clock, key, last) && clock <= e.now
    ensures Remembers(limit, Step(limit, z, e), e.now, key, LastAllowed(limit, z, e, key, last))
  {
    RemembersLater(limit, z, clock, e.now, key, last);
    StepFormed(limit, z, clock, e, key);
    if e.Request? && e.key == key { AskedRemembers(limit, z, key, e.now, last); }
    if e.Evict? { EvictedRemembers(limit, z, e.key, e.now, key, last); }
  }

  lemma TiedIsRepeat(limit: Limit, z: ZSets, clock: int, e: Event, key: string, last: Option<int>)
    requires limit.window > 0 && Remembers(limit, z, clock, key, last) && clock <= e.now
    ensures TiedOn(limit, z, e, key) <==> last.Some? && FirstAllowed(e, ReplyTo(limit, z, e), key) == [last.value]
  {
    RemembersLater(limit, z, clock, e.now, key, last);
    YoungestIsRecent(Members(z, key), e.now - limit.window, e.now);
  }

  lemma {:induction false} UntiedIffNoRepeat(limit: Limit, z: ZSets, clock: int, events: seq<Event>, key: string,
                                             last: Option<int>)
    requires limit.window > 0 && Remembers(limit, z, clock, key, last) && Clocked(clock, events)
    ensures UntiedOn(limit, z, events, key) <==> NoRepeat(last, AllowedTimes(events, Replies(limit, z, events), key))
    decreases |events|
  {
    if events == [] {
    } else {
      var e, z' := events[0], Step(limit, z, events[0]);
      var rest := AllowedTimes(events[1..], Replies(limit, z', events[1..]), key);
      AllowedTimesStep(events, ReplyTo(limit, z, e), Replies(limit, z', events[1..]), key);
      TiedIsRepeat(limit, z, clock, e, key, last);
      StepRemembers(limit, z, clock, e, key, last);
      UntiedIffNoRepeat(limit, z', e.now, events[1..], key, LastAllowed(limit, z, e, key, last));
      NoRepeatStep(last, FirstAllowed(e, ReplyTo(limit, z, e), key), rest);
    }
  }

  lemma {:induction false} NoRepeatStep(last: Option<int>, first: seq<int>, rest: seq<int>)
    requires |first| <= 1
    ensures NoRepeat(last, first + rest) <==>
            if first == [] then NoRepeat(last, rest) else last != Some(first[0]) && NoRepeat(Some(first[0]), rest)
  {
    if first == [] {
      assert first + rest == rest;
    } else {
      assert (first + rest)[1..] == rest;
    }
  }

  lemma {:induction false} NoWindowNoTies(limit: Limit, z: ZSets, events: seq<Event>, key: string)
    requires limit.window == 0
    ensures UntiedOn(limit, z, events, key)
    decreases |events|
  {
    if events == [] {
    } else {
      if TiedOn(limit, z, events[0], key) { TiedWithinWindow(limit, z, key, events[0].now); }
      NoWindowNoTies(limit, Step(limit, z, events[0]), events[1..], key);
    }
  }

  /** The exact condition in terms of what callers see: the answers on a key are right at every moment if
      and only if no two requests on it are allowed at the same instant one after the other. */
  lemma {:induction false} RedisIsExactlyWithoutRepeats(limit: Limit, clock: int, events: seq<Event>, key: string)
    requires Clocked(clock, events)
    ensures AlwaysAnswers(limit, map[], map[], clock, events, key) <==>
            limit.window == 0 || NoRepeat(None, AllowedTimes(events, Replies(limit, map[], events), key))
  {
    RedisIsExactlyUnlessTied(limit, clock, events, key);
    if limit.window == 0 {
      NoWindowNoTies(limit, map[], events, key);
    } else {
      UntiedIffNoRepeat(limit, map[], clock, events, key, None);
    }
  }

  /** Every request on `key` is made strictly later than the one before it, which was at `last`. */
  predicate StrictOn(last: Option<int>, events: seq<Event>, key: string)
    decreases |events|
  {
    if events == [] then true
    else if events[0].Request? && events[0].key == key then
      (last.None? || last.value < events[0].now) && StrictOn(Some(events[0].now), events[1..], key)
    else StrictOn(last, events[1..], key)
  }

  /** The members of a key are no later than the last request on it. */
  ghost predicate KnownBy(slot: Option<ZSet>, last: Option<int>) {
    slot.Some? ==> last.Some? && NoLaterThan(slot.value.members, last.value)
  }

  lemma {:induction false} AskedKnownBy(limit: Limit, z: ZSets, key: string, now: int, last: Option<int>)
    requires KnownBy(Slot(z, key), last) && (last.None? || last.value < now)
    ensures !Tied(limit, z, key, now) && KnownBy(Slot(Script(limit, z, key, now).0, key), Some(now))
  {
    var valid := Recent(Members(z, key), now - limit.window);
    RecentKnownBy(Slot(z, key), last, now - limit.window);
    MembersBySlot(z, key);
    ScriptedKnownBy(limit, valid, Deadline(z, key), now, last);
    SlotAfter(limit, z, key, now);
  }

  lemma {:induction false} RecentKnownBy(slot: Option<ZSet>, last: Option<int>, cutoff: int)
    requires KnownBy(slot, last)
    ensures var valid := Recent(MembersOf(slot), cutoff); valid != [] ==> last.Some? && NoLaterThan(valid, last.value)
  {
    if slot.Some? { RecentNoLater(slot.value.members, cutoff, last.value); }
  }

  lemma {:induction false} ScriptedKnownBy(limit: Limit, valid: seq<int>, deadline: int, now: int, last: Option<int>)
    requires valid != [] ==> last.Some? && last.value < now && NoLaterThan(valid, last.value)
    ensures !Uncounted(limit, valid, now) && KnownBy(Scripted(limit, valid, deadline, now).0, Some(now))
  {
    AddedAtEnd(valid, now);
  }

  lemma {:induction false} StrictRequestsAreUntied(limit: Limit, z: ZSets, events: seq<Event>, key: string,
                                                   last: Option<int>)
    requires StrictOn(last, events, key) && KnownBy(Slot(z, key), last)
    ensures UntiedOn(limit, z, events, key)
    decreases |events|
  {
    if events == [] {
    } else {
      var e := events[0];
      if e.Request? && e.key == key {
        AskedKnownBy(limit, z, key, e.now, last);
        StrictRequestsAreUntied(limit, Step(limit, z, e), events[1..], key, Some(e.now));
      } else {
        StrictRequestsAreUntied(limit, Step(limit, z, e), events[1..], key, last);
      }
    }
  }

  /** Both backends give the same answers when the requests on each key are made at different times. */
  lemma {:induction false} BackendsAgreeOnStrictRequests(limit: Limit, clock: int, events: seq<Event>)
    requires Clocked(clock, events) && forall key :: StrictOn(None, events, key)
    ensures Replies(limit, map[], events) == MemoryLimiter.Replies(limit, map[], events)
  {
    forall key ensures UntiedOn(limit, map[], events, key) {
      StrictRequestsAreUntied(limit, map[], events, key, None);
    }
    BackendsAgree(limit, clock, events);
  }

  lemma {:induction false} FormedIsFull(limit: Limit, members: seq<int>, now: int)
    requires Ascending(members) && |members| <= Ceiling(limit) && limit.max >= 1
    requires |Recent(members, now - limit.window)| >= limit.max
    ensures Full(limit, members, now)
  {
    RecentAscending(members, now - limit.window);
  }

  /** At a refusal in any run the sorted set holds exactly the limit, its first member being the oldest. */
  lemma {:induction false} FullAtRefusal(limit: Limit, clock: int, past: seq<Event>, key: string, now: int)
    requires Clocked(clock, past) && LastTime(clock, past) <= now && limit.max >= 1
    requires !Script(limit, Run(limit, map[], past), key, now).1.allowed
    ensures Full(limit, Members(Run(limit, map[], past), key), now)
    ensures Formed(limit, Slot(Run(limit, map[], past), key), LastTime(clock, past))
  {
    RunFormed(limit, map[], clock, past, key);
    FormedIsFull(limit, Members(Run(limit, map[], past), key), now);
  }

  lemma TiedIsAllowed(limit: Limit, z: ZSets, e: Event, key: string)
    requires TiedOn(limit, z, e, key)
    ensures FirstAllowed(e, ReplyTo(limit, z, e), key) == [e.now]
  {
  }

  lemma {:induction false} NothingAllowedNothingTied(limit: Limit, z: ZSets, events: seq<Event>, key: string)
    requires AllowedTimes(events, Replies(limit, z, events), key) == []
    ensures UntiedOn(limit, z, events, key)
    decreases |events|
  {
    if events == [] {
    } else {
      var rest := Replies(limit, Step(limit, z, events[0]), events[1..]);
      AllowedTimesStep(events, ReplyTo(limit, z, events[0]), rest, key);
      if TiedOn(limit, z, events[0], key) { TiedIsAllowed(limit, z, events[0], key); }
      NothingAllowedNothingTied(limit, Step(limit, z, events[0]), events[1..], key);
    }
  }

  /** A sorted set tracks its own members taken as a history. */
  lemma SetTracksItself(limit: Limit, z: ZSets, key: string, clock: int)
    requires Formed(limit, Slot(z, key), clock)
    ensures Tracks(limit, map[key := Members(z, key)], z, clock, key)
  {
  }

  lemma RefusalTracksItself(limit: Limit, z: ZSets, clock: int, key: string, now: int)
    requires Formed(limit, Slot(z, key), clock) && clock <= now && !Script(limit, z, key, now).1.allowed
    ensures Tracks(limit, map[key := Members(z, key)], Script(limit, z, key, now).0, now, key)
  {
    var h := map[key := Members(z, key)];
    SetTracksItself(limit, z, key, clock);
    TimePasses(limit, h, z, clock, now, key);
    SameReply(limit, h, z, key, now);
    StepKeepsTracking(limit, h, z, clock, Request(key, now), key);
  }

  lemma {:induction false} HistoryStandsStill(limit: Limit, h: Histories, z: ZSets, now: int, key: string,
                                              meanwhile: seq<Event>)
    requires Tracks(limit, h, z, now, key) && Clocked(now, meanwhile)
    requires AllowedTimes(meanwhile, Replies(limit, z, meanwhile), key) == []
    ensures var h' := SpecRun(limit, h, meanwhile);
            && History(h', key) == History(h, key)
            && Tracks(limit, h', Run(limit, z, meanwhile), LastTime(now, meanwhile), key)
  {
    NothingAllowedNothingTied(limit, z, meanwhile, key);
    SameTimesAllowed(limit, h, z, now, meanwhile, key);
    HistoryIsAllowedTimes(limit, h, meanwhile, key);
  }

  /** From a refusal on, while nothing is allowed on the key, the answers on it depend on the members at
      the refusal only. */
  lemma {:induction false} SetStandsStill(limit: Limit, z: ZSets, clock: int, key: string, now: int,
                                          meanwhile: seq<Event>, later: int)
    requires Formed(limit, Slot(z, key), clock) && clock <= now && !Script(limit, z, key, now).1.allowed
    requires Clocked(now, meanwhile) && LastTime(now, meanwhile) <= later
    requires AllowedTimes(meanwhile, Replies(limit, Script(limit, z, key, now).0, meanwhile), key) == []
    ensures Script(limit, Run(limit, Script(limit, z, key, now).0, meanwhile), key, later).1.allowed
       <==> |Recent(Members(z, key), later - limit.window)| < limit.max
  {
    var h, z' := map[key := Members(z, key)], Script(limit, z, key, now).0;
    RefusalTracksItself(limit, z, clock, key, now);
    HistoryStandsStill(limit, h, z', now, key, meanwhile);
    AnswerFromHistory(limit, SpecRun(limit, h, meanwhile), Run(limit, z', meanwhile), LastTime(now, meanwhile),
                      key, later);
  }

  lemma {:induction false} AnswerFromHistory(limit: Limit, h: Histories, z: ZSets, clock: int, key: string, later: int)
    requires Tracks(limit, h, z, clock, key) && clock <= later
    ensures Script(limit, z, key, later).1.allowed <==> |Recent(History(h, key), later - limit.window)| < limit.max
  {
    TimePasses(limit, h, z, clock, later, key);
    SameReply(limit, h, z, key, later);
  }

  /** After a refusal that says to wait `r` seconds, and with no request on that key allowed meanwhile
      (others, sweeps and evictions as they come), a request `r` seconds later is allowed, and for
      `r` above one a request `r - 1` seconds later is not. Ties make no difference. */
  lemma {:induction false} RetryAfterIsExact(limit: Limit, clock: int, past: seq<Event>, key: string, now: int,
                          meanwhile: seq<Event>, wait: int, later: int)
    requires Clocked(clock, past) && LastTime(clock, past) <= now && limit.max >= 1
    requires var refused := Script(limit, Run(limit, map[], past), key, now);
             && !refused.1.allowed && RetryOrOneLess(wait, refused.2)
             && Clocked(now, meanwhile)
             && AllowedTimes(meanwhile, Replies(limit, refused.0, meanwhile), key) == []
    requires later == now + wait * SECOND && LastTime(now, meanwhile) <= later
    ensures var refused := Script(limit, Run(limit, map[], past), key, now);
            var answer := Script(limit, Run(limit, refused.0, meanwhile), key, later).1;
            answer.allowed <==> wait == refused.2
  {
    FullAtRefusal(limit, clock, past, key, now);
    RetryFromFull(limit, Run(limit, map[], past), LastTime(clock, past), key, now, meanwhile, wait, later);
  }

  lemma {:induction false} RetryFromFull(limit: Limit, z: ZSets, clock: int, key: string, now: int,
                                         meanwhile: seq<Event>, wait: int, later: int)
    requires Full(limit, Members(z, key), now) && Formed(limit, Slot(z, key), clock) && clock <= now
    requires !Script(limit, z, key, now).1.allowed && later == now + wait * SECOND
    requires RetryOrOneLess(wait, Script(limit, z, key, now).2)
    requires Clocked(now, meanwhile) && LastTime(now, meanwhile) <= later
    requires AllowedTimes(meanwhile, Replies(limit, Script(limit, z, key, now).0, meanwhile), key) == []
    ensures Script(limit, Run(limit, Script(limit, z, key, now).0, meanwhile), key, later).1.allowed
       <==> wait == Script(limit, z, key, now).2
  {
    FreeAfterWait(limit, z, key, now, wait, later);
    SetStandsStill(limit, z, clock, key, now, meanwhile, later);
  }

  lemma FreeAfterWait(limit: Limit, z: ZSets, key: string, now: int, wait: int, later: int)
    requires Full(limit, Members(z, key), now) && !Script(limit, z, key, now).1.allowed && later == now + wait * SECOND
    requires RetryOrOneLess(wait, Script(limit, z, key, now).2)
    ensures |Recent(Members(z, key), later - limit.window)| < limit.max <==> wait == Script(limit, z, key, now).2
  {
    RefusalWait(limit, z, key, now);
    RetryIsExact(limit, Members(z, key), now, wait, later);
  }

  lemma {:induction false} RefusalWait(limit: Limit, z: ZSets, key: string, now: int)
    requires !Script(limit, z, key, now).1.allowed
    ensures Script(limit, z, key, now).2 == RetrySeconds(limit, Recent(Members(z, key), now - limit.window), now)
  {
  }

  // ---------------------------------------------------------------- the script, command by command

  lemma LastSlotCounts(z: ZSets, key: string, first: Option<ZSet>, last: Option<ZSet>)
    ensures WithSlot(WithSlot(z, key, first), key, last) == WithSlot(z, key, last)
    ensures Slot(WithSlot(z, key, first), key) == first
  {
  }

  class RedisCache {
    var zsets: ZSets

    constructor ()
      ensures zsets == map[]
    {
      zsets := map[];
    }

    /** ZREMRANGEBYSCORE key -inf cutoff */
    method RemoveUpTo(key: string, cutoff: int)
      modifies this
      ensures var valid := Recent(Members(old(zsets), key), cutoff);
              var slot := if valid == [] then None else Some(ZSet(valid, Deadline(old(zsets), key)));
              zsets == WithSlot(old(zsets), key, slot)
    {
      var valid := Recent(Members(zsets, key), cutoff);
      if valid == [] {
        zsets := zsets - {key};
      } else {
        zsets := zsets[key := ZSet(valid, Deadline(zsets, key))];
      }
    }

    /** When the oldest entry frees a slot, in whole seconds and at least one. */
    method RetryAfter(limit: Limit, members: seq<int>, now: int) returns (retrySec: int)
      ensures retrySec == RetrySeconds(limit, members, now)
    {
      var retryNs := 0;
      if members != [] {
        retryNs := members[0] + limit.window - now;
      }
      retrySec := CeilDiv(retryNs, SECOND);
      if retrySec < 1 {
        retrySec := 1;
      }
    }

    /** ZADD key now now; PEXPIRE key window */
    method AddNow(limit: Limit, key: string, now: int)
      modifies this
      ensures var zset := ZSet(Added(Members(old(zsets), key), now), now + TimeToLive(limit));
              zsets == WithSlot(old(zsets), key, Some(zset))
    {
      zsets := zsets[key := ZSet(Added(Members(zsets, key), now), now + TimeToLive(limit))];
    }

    method SlidingWindowAllow(limit: Limit, key: string, now: int) returns (reply: Reply, retryAfter: int)
      modifies this
      ensures (zsets, reply, retryAfter) == Script(limit, old(zsets), key, now)
    {
      var cutoff := now - limit.window;
      RemoveUpTo(key, cutoff);
      ghost var pruned := Slot(zsets, key);
      var members := Members(zsets, key);
      var count := |members|;
      if count >= limit.max {
        retryAfter := RetryAfter(limit, members, now);
        return Reply(false, 0), retryAfter;
      }
      AddNow(limit, key, now);
      LastSlotCounts(old(zsets), key, pruned, Slot(zsets, key));
      return Reply(true, limit.max - count - 1), 0;
    }
  }
}
