/** Refresh tokens behind two cache keys. Login, Refresh, Logout, RevokeAllForUser and ChangePassword
    run concurrently; every cache operation is one step, may fail, and any key may expire at any time.
    A token is identified with its SHA-256 hex digest. */
module RefreshTokens {
  import opened Options

  type User = string
  type Token = string

  datatype Key = Lookup(token: Token) | Index(user: User, token: Token)

  // ---------------------------------------------------------------- key text

  predicate ColonFree(s: string) {
    ':' !in s
  }

  function Rendered(k: Key): string {
    match k
    case Lookup(t) => "refresh:tok:" + t
    case Index(u, t) => "refresh:user:" + u + ":" + t
  }

  /** The prefix whose keys RevokeAllForUser deletes. */
  function ScanPrefix(u: User): string {
    "refresh:user:" + u + ":"
  }

  // SCAN's MATCH option: glob patterns with `*`, `?`, bracketed choices and backslash escapes.

  /** The rest of a bracketed choice: whether `c` is among the characters, and the pattern behind it. */
  function Choices(p: string, c: char): (r: (bool, string))
    ensures |r.1| <= |p|
  {
    if p == "" then (false, "")
    else if p[0] == '\\' && |p| >= 2 then var r := Choices(p[2..], c); (p[1] == c || r.0, r.1)
    else if p[0] == ']' then (false, p[1..])
    else if |p| >= 3 && p[1] == '-' then
      var r := Choices(p[3..], c);
      (p[0] <= c <= p[2] || p[2] <= c <= p[0] || r.0, r.1)
    else var r := Choices(p[1..], c); (p[0] == c || r.0, r.1)
  }

  function Choice(p: string, c: char): (r: (bool, string))
    ensures |r.1| <= |p|
  {
    if p != "" && p[0] == '^' then var r := Choices(p[1..], c); (!r.0, r.1) else Choices(p, c)
  }

  predicate Glob(p: string, s: string)
    decreases |p|, |s|
  {
    if p == "" then s == ""
    else if p[0] == '*' then Glob(p[1..], s) || (s != "" && Glob(p, s[1..]))
    else if s == "" then false
    else if p[0] == '?' then Glob(p[1..], s[1..])
    else if p[0] == '[' then var r := Choice(p[1..], s[0]); r.0 && Glob(r.1, s[1..])
    else if p[0] == '\\' && |p| >= 2 then p[1] == s[0] && Glob(p[2..], s[1..])
    else p[0] == s[0] && Glob(p[1..], s[1..])
  }

  /** No character that a pattern treats specially. */
  predicate Plain(s: string) {
    '*' !in s && '?' !in s && '[' !in s && '\\' !in s
  }

  lemma {:induction false} StarMatchesAll(s: string)
    ensures Glob("*", s)
  {
    if s == "" {
      assert Glob("*"[1..], s);
    } else {
      StarMatchesAll(s[1..]);
    }
  }

  /** A plain text and a star match exactly what begins with the text. */
  lemma {:induction false} PlainPatternIsPrefix(text: string, s: string)
    requires Plain(text)
    ensures Glob(text + "*", s) <==> text <= s
  {
    if text == "" {
      assert text + "*" == "*";
      StarMatchesAll(s);
    } else if s == "" {
    } else {
      assert (text + "*")[1..] == text[1..] + "*";
      PlainPatternIsPrefix(text[1..], s[1..]);
      assert text <= s <==> text[0] == s[0] && text[1..] <= s[1..];
    }
  }

  /** What a scan for `u` returns. */
  predicate Matches(u: User, k: Key) {
    Glob(ScanPrefix(u) + "*", Rendered(k))
  }

  lemma StripCommonPrefix(p: string, a: string, b: string)
    ensures p + a <= p + b <==> a <= b
  {
    assert (p + a)[|p|..] == a && (p + b)[|p|..] == b;
    if p + a <= p + b { assert forall i :: 0 <= i < |a| ==> a[i] == (p + a)[|p| + i] == (p + b)[|p| + i] == b[i]; }
  }

  /** Which keys a scan for `u` returns: those of `u` itself, and those of any user whose id
      continues `u` after a colon. */
  lemma ScanIsExact(u: User, k: Key)
    requires Plain(u) && ColonFree(k.token)
    ensures Matches(u, k) <==> k.Index? && (k.user == u || u + ":" <= k.user)
  {
    PlainPatternIsPrefix(ScanPrefix(u), Rendered(k));
    match k
    case Lookup(t) =>
      assert ScanPrefix(u)[8] == 'u' && Rendered(k)[8] == 't';
    case Index(v, t) =>
      var p := "refresh:user:";
      assert ScanPrefix(u) == p + (u + ":") && Rendered(k) == p + (v + ":" + t);
      StripCommonPrefix(p, u + ":", v + ":" + t);
      OwnerFromPrefix(u, v, t);
  }

  lemma OwnerFromPrefix(u: User, v: User, t: Token)
    requires ColonFree(t)
    ensures u + ":" <= v + ":" + t <==> v == u || u + ":" <= v
  {
    var a, b := u + ":", v + ":" + t;
    if a <= b {
      assert b[|u|] == a[|u|] == ':';
      assert forall i :: |v| < i < |b| ==> b[i] == t[i - |v| - 1] != ':';
      if |u| == |v| {
        assert u == b[..|u|] == v;
      } else {
        assert forall i :: 0 <= i < |a| ==> a[i] == b[i] == v[i];
      }
    }
    if u + ":" <= v { assert v <= b; }
  }

  lemma ColonInside(u: User, v: User)
    requires u + ":" <= v
    ensures !ColonFree(v)
  {
    assert v[|u|] == (u + ":")[|u|];
  }

  lemma OwnScanOnly(u: User, k: Key)
    requires Plain(u) && ColonFree(k.token) && (k.Index? ==> ColonFree(k.user))
    ensures Matches(u, k) <==> k.Index? && k.user == u
  {
    ScanIsExact(u, k);
    if k.Index? && u + ":" <= k.user { ColonInside(u, k.user); }
  }

  // ---------------------------------------------------------------- the scan loop

  /** One round of DeleteByPrefix: the keys SCAN returned, and whether SCAN or DEL failed. */
  datatype Round = Round(keys: set<Key>, scanFails: bool, delFails: bool)

  /** DeleteByPrefix on a store that nobody else touches: what is left, and whether it succeeded. */
  function Purged(store: map<Key, string>, rounds: seq<Round>): (map<Key, string>, bool)
    decreases |rounds|
  {
    if rounds == [] then (store, true)
    else if rounds[0].scanFails || (rounds[0].keys != {} && rounds[0].delFails) then (store, false)
    else Purged(store - rounds[0].keys, rounds[1..])
  }

  predicate Returned(rounds: seq<Round>, k: Key) {
    exists i :: 0 <= i < |rounds| && k in rounds[i].keys
  }

  lemma {:induction false} PurgedKeeps(store: map<Key, string>, rounds: seq<Round>, k: Key)
    ensures k in Purged(store, rounds).0 ==> k in store && Purged(store, rounds).0[k] == store[k]
    ensures Purged(store, rounds).1 ==> (k in Purged(store, rounds).0 <==> k in store && !Returned(rounds, k))
    ensures k in store && !Returned(rounds, k) ==> k in Purged(store, rounds).0
    decreases |rounds|
  {
    if rounds == [] {
    } else {
      PurgedKeeps(store - rounds[0].keys, rounds[1..], k);
      assert Returned(rounds, k) <==> k in rounds[0].keys || Returned(rounds[1..], k) by {
        if Returned(rounds[1..], k) {
          var i :| 0 <= i < |rounds[1..]| && k in rounds[1..][i].keys;
          assert k in rounds[i + 1].keys;
        }
      }
    }
  }

  /** If SCAN returned every matching key of the store and only matching ones, a successful
      DeleteByPrefix for `u` removes exactly the index keys of `u`, and a failed one no other key. */
  lemma {:induction false} PurgeIsExact(store: map<Key, string>, rounds: seq<Round>, u: User, k: Key)
    requires forall x :: Returned(rounds, x) ==> Matches(u, x)
    requires forall x :: x in store && Matches(u, x) ==> Returned(rounds, x)
    requires Plain(u) && ColonFree(k.token) && (k.Index? ==> ColonFree(k.user))
    ensures Purged(store, rounds).1 ==> (k in Purged(store, rounds).0 <==> k in store && !(k.Index? && k.user == u))
    ensures k in store && !(k.Index? && k.user == u) ==> k in Purged(store, rounds).0
    ensures k in Purged(store, rounds).0 ==> k in store && Purged(store, rounds).0[k] == store[k]
  {
    PurgedKeeps(store, rounds, k);
    OwnScanOnly(u, k);
  }

  predicate Stops(round: Round) {
    round.scanFails || (round.keys != {} && round.delFails)
  }

  /** DeleteByPrefix takes the rounds up to the first that fails, and succeeds if there is none. */
  lemma {:induction false} PurgeStopsAtFailure(store: map<Key, string>, rounds: seq<Round>, n: nat, k: Key)
    requires n <= |rounds| && (forall i :: 0 <= i < n ==> !Stops(rounds[i]))
    requires n < |rounds| ==> Stops(rounds[n])
    ensures Purged(store, rounds).1 <==> n == |rounds|
    ensures k in Purged(store, rounds).0 <==> k in store && !Returned(rounds[..n], k)
    decreases n
  {
    if n == 0 {
    } else {
      assert !Stops(rounds[0]);
      PurgeStopsAtFailure(store - rounds[0].keys, rounds[1..], n - 1, k);
      var first, later := rounds[..n], rounds[1..][..n - 1];
      assert later == first[1..];
      assert Returned(first, k) <==> k in rounds[0].keys || Returned(later, k) by {
        if Returned(later, k) {
          var i :| 0 <= i < |later| && k in later[i].keys;
          assert k in first[i + 1].keys;
        }
      }
    }
  }

  class RedisStore {
    var store: map<Key, string>

    method DeleteByPrefix(rounds: seq<Round>) returns (ok: bool)
      modifies this
      ensures (store, ok) == Purged(old(store), rounds)
    {
      var left := rounds;
      while left != []
        invariant Purged(store, left) == Purged(old(store), rounds)
        decreases |left|
      {
        var round := left[0];
        if round.scanFails {
          return false;
        }
        assert round.keys == {} ==> store - round.keys == store;
        if round.keys != {} {
          if round.delFails {
            return false;
          }
          store := store - round.keys;
        }
        left := left[1..];
      }
      return true;
    }
  }

  // ---------------------------------------------------------------- calls

  /** What a Refresh or Logout did to the token it was given; a Login was given none, and a Logout may
      have left it alone. */
  datatype Spent = Nothing | Spent(token: Token, lookupGone: bool, indexGone: bool)

  /** Where a call is: a state named after an operation is about to perform it. */
  datatype Call =
    // issuing, by Login and at the end of Refresh
    | SettingLookup(user: User, token: Token, spent: Spent)
    | SettingIndex(user: User, token: Token, spent: Spent)
    | Undoing(user: User, token: Token, spent: Spent)
    | Issued(user: User, token: Token, spent: Spent)
    | IssueFailed(user: User, token: Token, spent: Spent)
    // Refresh
    | Reading(given: Token)
    | Checking(given: Token, user: User)
    | Loading(given: Token, user: User)
    | DroppingLookup(given: Token, user: User)
    | DroppingIndex(given: Token, user: User, lookupGone: bool)
    | Generating(user: User, spent: Spent)
    | Refused(given: Token)
    | GenerationFailed(spent: Spent)
    // Logout
    | LogoutReading(caller: User, given: Token)
    | LogoutDroppingLookup(caller: User, given: Token)
    | LogoutDroppingIndex(caller: User, given: Token, lookupGone: bool)
    | LoggedOut(caller: User, given: Token, unread: bool, spent: Spent)
    // ChangePassword and RevokeAllForUser
    | ChangingPassword(user: User, hasRevoker: bool)
    | PasswordChangedOnly(user: User)
    | RevokeReady(user: User)
    | Scanning(user: User, start: set<Key>, mark: nat, found: set<Key>)
    | Deleting(user: User, start: set<Key>, mark: nat, found: set<Key>, batch: set<Key>, last: bool)
    | Revoked(user: User)
    | RevokeFailed(user: User)

  /** `removals` logs, oldest first, the keys each removal took out of the store. */
  datatype State = State(
    store: map<Key, string>,
    removals: seq<set<Key>>,
    owner: map<Token, User>,
    calls: map<nat, Call>)

  const INITIAL := State(map[], [], map[], map[])

  datatype Outcome = Fine | Fails | Generated(minted: Token) | Batch(keys: set<Key>, done: bool)

  datatype Action =
    | StartLogin(id: nat, user: User, token: Token)
    | StartRefresh(id: nat, token: Token)
    | StartLogout(id: nat, caller: User, token: Token)
    | StartRevoke(id: nat, user: User)
    | StartChangePassword(id: nat, user: User, hasRevoker: bool)
    | Advance(id: nat, outcome: Outcome)
    | Expire(key: Key)

  function Removed(s: State, keys: set<Key>): State {
    s.(store := s.store - keys, removals := s.removals + [keys * s.store.Keys])
  }

  function Written(s: State, key: Key, value: string): State {
    s.(store := s.store[key := value])
  }

  function Dropped(s: State, key: Key, outcome: Outcome): State {
    if outcome.Fine? then Removed(s, {key}) else s
  }

  ghost predicate RemovedSince(s: State, mark: nat, k: Key) {
    exists i :: mark <= i < |s.removals| && k in s.removals[i]
  }

  /** SCAN's guarantee when it returns the final cursor: every key present from the start of the
      iteration on has been returned. */
  ghost predicate ScanComplete(s: State, start: set<Key>, mark: nat, returned: set<Key>) {
    forall k :: k in start && !RemovedSince(s, mark, k) ==> k in returned
  }

  predicate FreshToken(s: State, t: Token) {
    t !in s.owner && ColonFree(t)
  }

  ghost predicate Fits(s: State, c: Call, o: Outcome) {
    match c
    case Generating(_, _) => o.Fails? || (o.Generated? && FreshToken(s, o.minted))
    case Scanning(u, start, mark, found) =>
      || o.Fails?
      || (o.Batch? && o.keys <= s.store.Keys && (forall k :: k in o.keys ==> Matches(u, k))
          && (o.done ==> ScanComplete(s, start, mark, found + o.keys)))
    case _ => o.Fine? || o.Fails?
  }

  ghost predicate Enabled(s: State, a: Action) {
    match a
    case StartLogin(id, u, t) => id !in s.calls && ColonFree(u) && FreshToken(s, t)
    case StartRefresh(id, _) => id !in s.calls
    case StartLogout(id, _, _) => id !in s.calls
    case StartRevoke(id, u) => id !in s.calls && Plain(u)
    case StartChangePassword(id, u, _) => id !in s.calls && Plain(u)
    case Advance(id, o) => id in s.calls && Fits(s, s.calls[id], o)
    case Expire(k) => k in s.store
  }

  /** One operation of a call: the state of the cache after it and where the call then is. */
  ghost function Operated(s: State, c: Call, o: Outcome): (State, Call)
    requires Fits(s, c, o)
  {
    match c
    case SettingLookup(u, t, sp) =>
      if o.Fine? then (Written(s, Lookup(t), u), SettingIndex(u, t, sp)) else (s, IssueFailed(u, t, sp))
    case SettingIndex(u, t, sp) =>
      if o.Fine? then (Written(s, Index(u, t), "1"), Issued(u, t, sp)) else (s, Undoing(u, t, sp))
    case Undoing(u, t, sp) => (Dropped(s, Lookup(t), o), IssueFailed(u, t, sp))
    case Reading(t) =>
      (s, if o.Fine? && Lookup(t) in s.store then Checking(t, s.store[Lookup(t)]) else Refused(t))
    case Checking(t, u) => (s, if o.Fine? && Index(u, t) in s.store then Loading(t, u) else Refused(t))
    case Loading(t, u) => (s, if o.Fine? then DroppingLookup(t, u) else Refused(t))
    case DroppingLookup(t, u) => (Dropped(s, Lookup(t), o), DroppingIndex(t, u, o.Fine?))
    case DroppingIndex(t, u, gone) => (Dropped(s, Index(u, t), o), Generating(u, Spent(t, gone, o.Fine?)))
    case Generating(u, sp) =>
      if o.Generated? then (s.(owner := s.owner[o.minted := u]), SettingLookup(u, o.minted, sp))
      else (s, GenerationFailed(sp))
    case LogoutReading(caller, t) =>
      (s, if o.Fine? && Lookup(t) in s.store && s.store[Lookup(t)] == caller
          then LogoutDroppingLookup(caller, t) else LoggedOut(caller, t, o.Fails?, Nothing))
    case LogoutDroppingLookup(caller, t) => (Dropped(s, Lookup(t), o), LogoutDroppingIndex(caller, t, o.Fine?))
    case LogoutDroppingIndex(caller, t, gone) =>
      (Dropped(s, Index(caller, t), o), LoggedOut(caller, t, false, Spent(t, gone, o.Fine?)))
    case ChangingPassword(u, hasRevoker) =>
      (s, if o.Fails? then RevokeFailed(u) else if hasRevoker then RevokeReady(u) else PasswordChangedOnly(u))
    case RevokeReady(u) =>
      (s, if o.Fails? then RevokeFailed(u)
          else Scanning(u, set k | k in s.store && Matches(u, k), |s.removals|, {}))
    case Scanning(u, start, mark, found) =>
      (s, if o.Fails? then RevokeFailed(u) else Deleting(u, start, mark, found, o.keys, o.done))
    case Deleting(u, start, mark, found, batch, last) =>
      if o.Fails? then (s, RevokeFailed(u))
      else (Removed(s, batch), if last then Revoked(u) else Scanning(u, start, mark, found + batch))
    case _ => (s, c)
  }

  ghost function Do(s: State, a: Action): State
    requires Enabled(s, a)
  {
    match a
    case StartLogin(id, u, t) =>
      s.(owner := s.owner[t := u], calls := s.calls[id := SettingLookup(u, t, Nothing)])
    case StartRefresh(id, t) => s.(calls := s.calls[id := Reading(t)])
    case StartLogout(id, caller, t) => s.(calls := s.calls[id := LogoutReading(caller, t)])
    case StartRevoke(id, u) => s.(calls := s.calls[id := RevokeReady(u)])
    case StartChangePassword(id, u, r) => s.(calls := s.calls[id := ChangingPassword(u, r)])
    case Advance(id, o) =>
      var (next, c) := Operated(s, s.calls[id], o);
      next.(calls := s.calls[id := c])
    case Expire(k) => Removed(s, {k})
  }

  ghost predicate Runs(s: State, actions: seq<Action>)
    decreases |actions|
  {
    actions == [] || (Enabled(s, actions[0]) && Runs(Do(s, actions[0]), actions[1..]))
  }

  ghost function After(s: State, actions: seq<Action>): State
    requires Runs(s, actions)
    decreases |actions|
  {
    if actions == [] then s else After(Do(s, actions[0]), actions[1..])
  }

  // ---------------------------------------------------------------- tokens

  /** Refresh accepts a token exactly while both of its keys are there. */
  ghost predicate Live(s: State, t: Token) {
    t in s.owner && Lookup(t) in s.store && Index(s.owner[t], t) in s.store
  }

  ghost predicate Writing(c: Call, t: Token) {
    (c.SettingLookup? || c.SettingIndex?) && c.token == t
  }

  ghost predicate Holds(c: Call, t: Token) {
    (c.SettingLookup? || c.SettingIndex? || c.Undoing? || c.Issued? || c.IssueFailed?) && c.token == t
  }

  /** Issued to somebody, and the issuing call has made all its writes. */
  ghost predicate Settled(s: State, t: Token) {
    t in s.owner && forall id :: id in s.calls ==> !Writing(s.calls[id], t)
  }

  /** Settled with a key missing: the token can never be used again. */
  ghost predicate Dead(s: State, t: Token) {
    Settled(s, t) && (Lookup(t) !in s.store || Index(s.owner[t], t) !in s.store)
  }

  // ---------------------------------------------------------------- invariant

  ghost predicate KeyOwned(s: State, k: Key) {
    && k.token in s.owner && ColonFree(k.token)
    && match k
       case Lookup(t) => k in s.store && s.store[k] == s.owner[t]
       case Index(u, t) => u == s.owner[t]
  }

  ghost predicate StoreOwned(s: State) {
    && (forall k :: k in s.store ==> KeyOwned(s, k))
    && (forall t :: t in s.owner ==> ColonFree(s.owner[t]))
  }

  ghost predicate OneHolder(s: State) {
    forall i, j, t :: i in s.calls && j in s.calls && Holds(s.calls[i], t) && Holds(s.calls[j], t) ==> i == j
  }

  ghost predicate SpentOk(s: State, sp: Spent) {
    sp.Spent? ==>
      && Settled(s, sp.token)
      && (sp.lookupGone ==> Lookup(sp.token) !in s.store)
      && (sp.indexGone ==> Index(s.owner[sp.token], sp.token) !in s.store)
  }

  ghost predicate OwnedBy(s: State, t: Token, u: User) {
    t in s.owner && s.owner[t] == u
  }

  ghost predicate CallOk(s: State, c: Call) {
    match c
    case SettingLookup(u, t, sp) => OwnedBy(s, t, u) && ColonFree(t) && Index(u, t) !in s.store && SpentOk(s, sp)
    case SettingIndex(u, t, sp) => OwnedBy(s, t, u) && ColonFree(t) && Index(u, t) !in s.store && SpentOk(s, sp)
    case Undoing(u, t, sp) => OwnedBy(s, t, u) && Settled(s, t) && Index(u, t) !in s.store && SpentOk(s, sp)
    case Issued(u, t, sp) => OwnedBy(s, t, u) && Settled(s, t) && SpentOk(s, sp)
    case IssueFailed(u, t, sp) => OwnedBy(s, t, u) && Settled(s, t) && Index(u, t) !in s.store && SpentOk(s, sp)
    case Checking(t, u) => OwnedBy(s, t, u)
    case Loading(t, u) => OwnedBy(s, t, u) && Settled(s, t)
    case DroppingLookup(t, u) => OwnedBy(s, t, u) && Settled(s, t)
    case DroppingIndex(t, u, gone) => OwnedBy(s, t, u) && Settled(s, t) && (gone ==> Lookup(t) !in s.store)
    case Generating(u, sp) => ColonFree(u) && SpentOk(s, sp)
    case GenerationFailed(sp) => SpentOk(s, sp)
    case LogoutDroppingLookup(caller, t) => OwnedBy(s, t, caller)
    case LogoutDroppingIndex(caller, t, _) => OwnedBy(s, t, caller)
    case ChangingPassword(u, _) => Plain(u)
    case RevokeReady(u) => Plain(u)
    case Scanning(u, start, mark, found) => Plain(u) && mark <= |s.removals|
    case Deleting(u, start, mark, found, batch, last) =>
      Plain(u) && mark <= |s.removals| && forall k :: k in batch ==> k.Index? && k.user == u
    case _ => true
  }

  ghost predicate Inv(s: State) {
    StoreOwned(s) && OneHolder(s) && forall id :: id in s.calls ==> CallOk(s, s.calls[id])
  }

  // ---------------------------------------------------------------- what one step may change

  ghost predicate CacheEvolves(s: State, s': State, c: Call) {
    && (forall k :: k in s'.store ==> (k in s.store && s'.store[k] == s.store[k]) || Writing(c, k.token))
    && (forall k :: k in s.store && k !in s'.store ==> RemovedSince(s', |s.removals|, k))
    && (forall t :: t in s.owner ==> t in s'.owner && s'.owner[t] == s.owner[t])
    && s.removals <= s'.removals
  }

  /** `s'` differs from `s` by at most one write, by the writer of that token, by removals, which are
      logged, and by tokens that were unknown before. */
  ghost predicate Evolves(s: State, s': State, actor: Option<nat>) {
    && (forall k :: k in s'.store ==>
          || (k in s.store && s'.store[k] == s.store[k])
          || (actor.Some? && actor.value in s.calls && Writing(s.calls[actor.value], k.token)))
    && (forall k :: k in s.store && k !in s'.store ==> RemovedSince(s', |s.removals|, k))
    && (forall t :: t in s.owner ==> t in s'.owner && s'.owner[t] == s.owner[t])
    && s.removals <= s'.removals
    && (forall id :: id in s.calls ==> id in s'.calls && (actor != Some(id) ==> s'.calls[id] == s.calls[id]))
    && (forall id :: id in s'.calls && id !in s.calls ==> actor == Some(id))
    && (forall id, t :: id in s'.calls && Writing(s'.calls[id], t) ==>
          t !in s.owner || (id in s.calls && Writing(s.calls[id], t)))
  }

  function Actor(a: Action): Option<nat> {
    if a.Expire? then None else Some(a.id)
  }

  lemma RemovedIsLogged(s: State, keys: set<Key>)
    ensures forall k :: k in s.store && k in keys ==> RemovedSince(Removed(s, keys), |s.removals|, k)
  {
    var s' := Removed(s, keys);
    forall k | k in s.store && k in keys ensures RemovedSince(s', |s.removals|, k) {
      assert k in s'.removals[|s.removals|];
    }
  }

  /** The four things an operation can do to the cache and the token table. */
  ghost predicate OperationShape(s: State, c: Call, o: Outcome, next: State) {
    || next == s
    || (exists keys :: next == Removed(s, keys))
    || (exists k: Key, v :: Writing(c, k.token) && next == Written(s, k, v))
    || (o.Generated? && o.minted !in s.owner && c.Generating? && next == s.(owner := s.owner[o.minted := c.user]))
  }

  lemma OperatedShape(s: State, c: Call, o: Outcome)
    requires Fits(s, c, o)
    ensures OperationShape(s, c, o, Operated(s, c, o).0)
  {
    if c.SettingLookup? { assert Writing(c, Lookup(c.token).token); }
    if c.SettingIndex? { assert Writing(c, Index(c.user, c.token).token); }
  }

  lemma OperatedWrites(s: State, c: Call, o: Outcome, t: Token)
    requires Fits(s, c, o) && Writing(Operated(s, c, o).1, t)
    ensures t !in s.owner || Writing(c, t)
  {
  }

  lemma AdvanceEvolves(s: State, id: nat, o: Outcome)
    requires Enabled(s, Advance(id, o))
    ensures Evolves(s, Do(s, Advance(id, o)), Some(id))
  {
    var c := s.calls[id];
    var (next, c') := Operated(s, c, o);
    OperatedShape(s, c, o);
    if keys :| next == Removed(s, keys) { RemovedIsLogged(s, keys); }
    forall t | Writing(c', t) ensures t !in s.owner || Writing(c, t) { OperatedWrites(s, c, o, t); }
    assert CacheEvolves(s, next, c);
  }

  lemma StepEvolves(s: State, a: Action)
    requires Enabled(s, a)
    ensures Evolves(s, Do(s, a), Actor(a))
  {
    if a.Advance? { AdvanceEvolves(s, a.id, a.outcome); }
    if a.Expire? { RemovedIsLogged(s, {a.key}); }
  }

  lemma SettledStays(s: State, s': State, actor: Option<nat>, t: Token)
    requires Evolves(s, s', actor) && Settled(s, t)
    ensures Settled(s', t) && s'.owner[t] == s.owner[t]
    ensures forall k: Key :: k.token == t && k !in s.store ==> k !in s'.store
  {
  }

  lemma SpentStays(s: State, s': State, actor: Option<nat>, sp: Spent)
    requires Evolves(s, s', actor) && SpentOk(s, sp)
    ensures SpentOk(s', sp)
  {
    if sp.Spent? { SettledStays(s, s', actor, sp.token); }
  }

  lemma BystanderStays(s: State, s': State, actor: Option<nat>, id: nat)
    requires Evolves(s, s', actor) && Inv(s) && id in s.calls && actor != Some(id)
    ensures CallOk(s', s'.calls[id])
  {
    var c := s.calls[id];
    assert CallOk(s, c);
    if c.SettingLookup? || c.SettingIndex? || c.Undoing? || c.Issued? || c.IssueFailed? {
      SpentStays(s, s', actor, c.spent);
      if Settled(s, c.token) { SettledStays(s, s', actor, c.token); }
      if Index(c.user, c.token) !in s.store && Index(c.user, c.token) in s'.store {
        assert Holds(s.calls[actor.value], c.token) && Holds(s.calls[id], c.token);
      }
    }
    if c.Generating? || c.GenerationFailed? { SpentStays(s, s', actor, c.spent); }
    if c.Loading? || c.DroppingLookup? || c.DroppingIndex? { SettledStays(s, s', actor, c.given); }
  }

  // ---------------------------------------------------------------- the invariant is kept

  lemma UnknownTokenHasNoKey(s: State, k: Key)
    requires StoreOwned(s) && k.token !in s.owner
    ensures k !in s.store
  {
    assert k in s.store ==> KeyOwned(s, k);
  }

  lemma PresentIndexIsSettled(s: State, t: Token)
    requires Inv(s) && t in s.owner && Index(s.owner[t], t) in s.store
    ensures Settled(s, t)
  {
    forall id | id in s.calls ensures !Writing(s.calls[id], t) { assert CallOk(s, s.calls[id]); }
  }

  lemma AdvanceKeepsStoreOwned(s: State, id: nat, o: Outcome)
    requires Inv(s) && Enabled(s, Advance(id, o))
    ensures StoreOwned(Do(s, Advance(id, o)))
  {
    var c := s.calls[id];
    var s' := Do(s, Advance(id, o));
    assert CallOk(s, c);
    AdvanceEvolves(s, id, o);
    forall k | k in s'.store ensures KeyOwned(s', k) {
      if k in s.store { assert KeyOwned(s, k); }
    }
  }

  lemma AdvanceKeepsOneHolder(s: State, id: nat, o: Outcome)
    requires Inv(s) && Enabled(s, Advance(id, o))
    ensures OneHolder(Do(s, Advance(id, o)))
  {
    var c := s.calls[id];
    var s' := Do(s, Advance(id, o));
    assert CallOk(s, c);
    forall i, j, t | i in s'.calls && j in s'.calls && Holds(s'.calls[i], t) && Holds(s'.calls[j], t)
      ensures i == j
    {
      HolderBefore(s, id, o, i, t);
      HolderBefore(s, id, o, j, t);
    }
  }

  /** A holder after the step held before, or its token has just been minted. */
  lemma HolderBefore(s: State, id: nat, o: Outcome, i: nat, t: Token)
    requires Inv(s) && Enabled(s, Advance(id, o)) && i in s.calls && Holds(Do(s, Advance(id, o)).calls[i], t)
    ensures (Holds(s.calls[i], t) && t in s.owner) || (i == id && t !in s.owner)
  {
    assert CallOk(s, s.calls[i]);
    if i == id { OperatedHolds(s, s.calls[id], o, t); }
  }

  lemma OperatedHolds(s: State, c: Call, o: Outcome, t: Token)
    requires Fits(s, c, o) && Holds(Operated(s, c, o).1, t)
    ensures Holds(c, t) || (c.Generating? && t !in s.owner)
  {
  }

  lemma LastWriteSettles(s: State, id: nat, t: Token, s': State)
    requires Inv(s) && id in s.calls && Holds(s.calls[id], t) && t in s'.owner
    requires s'.calls.Keys == s.calls.Keys && !Writing(s'.calls[id], t)
    requires forall i :: i in s.calls && i != id ==> s'.calls[i] == s.calls[i]
    ensures Settled(s', t)
  {
    forall i | i in s'.calls ensures !Writing(s'.calls[i], t) {
      if i != id { assert Holds(s.calls[i], t) ==> i == id; }
    }
  }

  lemma IssuerStaysOk(s: State, id: nat, o: Outcome)
    requires Inv(s) && Enabled(s, Advance(id, o))
    requires var c := s.calls[id]; c.SettingLookup? || c.SettingIndex? || c.Undoing?
    ensures CallOk(Do(s, Advance(id, o)), Do(s, Advance(id, o)).calls[id])
  {
    var c := s.calls[id];
    var s' := Do(s, Advance(id, o));
    assert CallOk(s, c);
    AdvanceEvolves(s, id, o);
    SpentStays(s, s', Some(id), c.spent);
    if !Writing(s'.calls[id], c.token) { LastWriteSettles(s, id, c.token, s'); }
  }

  lemma ReaderStaysOk(s: State, id: nat, o: Outcome)
    requires Inv(s) && Enabled(s, Advance(id, o)) && s.calls[id].Reading?
    ensures CallOk(Do(s, Advance(id, o)), Do(s, Advance(id, o)).calls[id])
  {
    var t := s.calls[id].given;
    if Lookup(t) in s.store { assert KeyOwned(s, Lookup(t)); }
  }

  lemma CheckerStaysOk(s: State, id: nat, o: Outcome)
    requires Inv(s) && Enabled(s, Advance(id, o)) && s.calls[id].Checking?
    ensures CallOk(Do(s, Advance(id, o)), Do(s, Advance(id, o)).calls[id])
  {
    var t, u := s.calls[id].given, s.calls[id].user;
    assert CallOk(s, s.calls[id]);
    if Index(u, t) in s.store {
      AdvanceEvolves(s, id, o);
      PresentIndexIsSettled(s, t);
      SettledStays(s, Do(s, Advance(id, o)), Some(id), t);
    }
  }

  lemma SpenderStaysOk(s: State, id: nat, o: Outcome)
    requires Inv(s) && Enabled(s, Advance(id, o))
    requires s.calls[id].Loading? || s.calls[id].DroppingLookup? || s.calls[id].DroppingIndex?
    ensures CallOk(Do(s, Advance(id, o)), Do(s, Advance(id, o)).calls[id])
  {
    assert CallOk(s, s.calls[id]);
    AdvanceEvolves(s, id, o);
    SettledStays(s, Do(s, Advance(id, o)), Some(id), s.calls[id].given);
  }

  lemma GeneratorStaysOk(s: State, id: nat, o: Outcome)
    requires Inv(s) && Enabled(s, Advance(id, o)) && s.calls[id].Generating?
    ensures CallOk(Do(s, Advance(id, o)), Do(s, Advance(id, o)).calls[id])
  {
    var c := s.calls[id];
    assert CallOk(s, c);
    AdvanceEvolves(s, id, o);
    SpentStays(s, Do(s, Advance(id, o)), Some(id), c.spent);
    if o.Generated? { UnknownTokenHasNoKey(s, Index(c.user, o.minted)); }
  }

  lemma ScannerStaysOk(s: State, id: nat, o: Outcome)
    requires Inv(s) && Enabled(s, Advance(id, o)) && s.calls[id].Scanning?
    ensures CallOk(Do(s, Advance(id, o)), Do(s, Advance(id, o)).calls[id])
  {
    assert CallOk(s, s.calls[id]);
    if o.Batch? { BatchIsOwn(s, s.calls[id].user, o.keys); }
  }

  lemma RevokerStaysOk(s: State, id: nat, o: Outcome)
    requires Inv(s) && Enabled(s, Advance(id, o))
    requires s.calls[id].ChangingPassword? || s.calls[id].RevokeReady? || s.calls[id].Deleting?
    ensures CallOk(Do(s, Advance(id, o)), Do(s, Advance(id, o)).calls[id])
  {
    assert CallOk(s, s.calls[id]);
  }

  lemma BatchIsOwn(s: State, u: User, keys: set<Key>)
    requires StoreOwned(s) && Plain(u) && keys <= s.store.Keys && forall k :: k in keys ==> Matches(u, k)
    ensures forall k :: k in keys ==> k.Index? && k.user == u
  {
    forall k | k in keys ensures k.Index? && k.user == u {
      assert KeyOwned(s, k);
      OwnScanOnly(u, k);
    }
  }

  lemma AdvanceKeepsInv(s: State, id: nat, o: Outcome)
    requires Inv(s) && Enabled(s, Advance(id, o))
    ensures Inv(Do(s, Advance(id, o)))
  {
    var c := s.calls[id];
    var s' := Do(s, Advance(id, o));
    AdvanceEvolves(s, id, o);
    AdvanceKeepsStoreOwned(s, id, o);
    AdvanceKeepsOneHolder(s, id, o);
    forall i | i in s'.calls ensures CallOk(s', s'.calls[i]) {
      if i != id {
        BystanderStays(s, s', Some(id), i);
      } else {
        ActorStaysOk(s, id, o);
      }
    }
  }

  lemma ActorStaysOk(s: State, id: nat, o: Outcome)
    requires Inv(s) && Enabled(s, Advance(id, o))
    ensures CallOk(Do(s, Advance(id, o)), Do(s, Advance(id, o)).calls[id])
  {
    var c := s.calls[id];
    if c.SettingLookup? || c.SettingIndex? || c.Undoing? {
      IssuerStaysOk(s, id, o);
    } else if c.Reading? {
      ReaderStaysOk(s, id, o);
    } else if c.Checking? {
      CheckerStaysOk(s, id, o);
    } else if c.Loading? || c.DroppingLookup? || c.DroppingIndex? {
      SpenderStaysOk(s, id, o);
    } else if c.Generating? {
      GeneratorStaysOk(s, id, o);
    } else if c.LogoutReading? || c.LogoutDroppingLookup? || c.LogoutDroppingIndex? {
      LeaverStaysOk(s, id, o);
    } else if c.Scanning? {
      ScannerStaysOk(s, id, o);
    } else if c.ChangingPassword? || c.RevokeReady? || c.Deleting? {
      RevokerStaysOk(s, id, o);
    } else if c.Issued? || c.IssueFailed? || c.GenerationFailed? {
      FinishedStaysOk(s, id, o);
    }
  }

  lemma LeaverStaysOk(s: State, id: nat, o: Outcome)
    requires Inv(s) && Enabled(s, Advance(id, o))
    requires var c := s.calls[id]; c.LogoutReading? || c.LogoutDroppingLookup? || c.LogoutDroppingIndex?
    ensures CallOk(Do(s, Advance(id, o)), Do(s, Advance(id, o)).calls[id])
  {
    var c := s.calls[id];
    assert CallOk(s, c);
    if Lookup(c.given) in s.store { assert KeyOwned(s, Lookup(c.given)); }
  }

  lemma FinishedStaysOk(s: State, id: nat, o: Outcome)
    requires Inv(s) && Enabled(s, Advance(id, o))
    requires var c := s.calls[id]; c.Issued? || c.IssueFailed? || c.GenerationFailed?
    ensures CallOk(Do(s, Advance(id, o)), Do(s, Advance(id, o)).calls[id])
  {
    assert CallOk(s, s.calls[id]);
    assert Do(s, Advance(id, o)) == s;
  }

  lemma StartKeepsCalls(s: State, a: Action)
    requires Inv(s) && Enabled(s, a) && !a.Advance?
    ensures forall i :: i in Do(s, a).calls ==> CallOk(Do(s, a), Do(s, a).calls[i])
  {
    var s' := Do(s, a);
    StepEvolves(s, a);
    forall i | i in s'.calls ensures CallOk(s', s'.calls[i]) {
      if i in s.calls { BystanderStays(s, s', Actor(a), i); }
      else if a.StartLogin? { UnknownTokenHasNoKey(s, Index(a.user, a.token)); }
    }
  }

  lemma StartKeepsOneHolder(s: State, a: Action)
    requires Inv(s) && Enabled(s, a) && !a.Advance?
    ensures OneHolder(Do(s, a))
  {
    var s' := Do(s, a);
    forall i, j, t | i in s'.calls && j in s'.calls && Holds(s'.calls[i], t) && Holds(s'.calls[j], t)
      ensures i == j
    {
      assert i in s.calls ==> CallOk(s, s.calls[i]);
      assert j in s.calls ==> CallOk(s, s.calls[j]);
    }
  }

  lemma StartKeepsInv(s: State, a: Action)
    requires Inv(s) && Enabled(s, a) && !a.Advance?
    ensures Inv(Do(s, a))
  {
    forall k | k in Do(s, a).store ensures KeyOwned(Do(s, a), k) { assert KeyOwned(s, k); }
    StartKeepsCalls(s, a);
    StartKeepsOneHolder(s, a);
  }

  lemma StepKeepsInv(s: State, a: Action)
    requires Inv(s) && Enabled(s, a)
    ensures Inv(Do(s, a))
  {
    if a.Advance? { AdvanceKeepsInv(s, a.id, a.outcome); } else { StartKeepsInv(s, a); }
  }

  lemma {:induction false} RunKeepsInv(s: State, actions: seq<Action>)
    requires Inv(s) && Runs(s, actions)
    ensures Inv(After(s, actions))
    decreases |actions|
  {
    if actions == [] {
    } else {
      StepKeepsInv(s, actions[0]);
      RunKeepsInv(Do(s, actions[0]), actions[1..]);
    }
  }

  // ---------------------------------------------------------------- dead tokens stay refused

  lemma DeadStays(s: State, a: Action, t: Token)
    requires Enabled(s, a) && Dead(s, t)
    ensures Dead(Do(s, a), t) && Do(s, a).owner[t] == s.owner[t]
  {
    StepEvolves(s, a);
    SettledStays(s, Do(s, a), Actor(a), t);
  }

  lemma {:induction false} DeadForever(s: State, actions: seq<Action>, t: Token)
    requires Runs(s, actions) && Dead(s, t)
    ensures Dead(After(s, actions), t)
    decreases |actions|
  {
    if actions == [] {
    } else {
      DeadStays(s, actions[0], t);
      DeadForever(Do(s, actions[0]), actions[1..], t);
    }
  }

  /** A Refresh of a dead token that has not got past the check of the index key. */
  ghost predicate Doomed(s: State, q: nat, t: Token) {
    && Dead(s, t) && q in s.calls
    && match s.calls[q]
       case Reading(given) => given == t
       case Checking(given, u) => given == t && u == s.owner[t] && Index(u, t) !in s.store
       case Refused(given) => given == t
       case _ => false
  }

  lemma DoomedStays(s: State, a: Action, q: nat, t: Token)
    requires Inv(s) && Enabled(s, a) && Doomed(s, q, t)
    ensures Doomed(Do(s, a), q, t)
  {
    StepEvolves(s, a);
    DeadStays(s, a, t);
    SettledStays(s, Do(s, a), Actor(a), t);
    if Lookup(t) in s.store { assert KeyOwned(s, Lookup(t)); }
  }

  lemma {:induction false} DoomedForever(s: State, actions: seq<Action>, q: nat, t: Token)
    requires Inv(s) && Runs(s, actions) && Doomed(s, q, t)
    ensures Doomed(After(s, actions), q, t)
    decreases |actions|
  {
    if actions == [] {
    } else {
      DoomedStays(s, actions[0], q, t);
      StepKeepsInv(s, actions[0]);
      DoomedForever(Do(s, actions[0]), actions[1..], q, t);
    }
  }

  /** The call `q` never gets beyond refusing: no access token, no new refresh token. */
  ghost predicate NeverAccepted(s: State, q: nat, t: Token) {
    q in s.calls && (s.calls[q] == Reading(t) || s.calls[q].Checking? || s.calls[q] == Refused(t))
  }

  /** Once a token is dead, every Refresh of it that begins later is refused, in every continuation. */
  lemma {:induction false} DeadTokenIsRefused(s: State, wait: seq<Action>, q: nat, t: Token, rest: seq<Action>)
    requires Inv(s) && Dead(s, t) && Runs(s, wait) && Enabled(After(s, wait), StartRefresh(q, t))
    requires Runs(Do(After(s, wait), StartRefresh(q, t)), rest)
    ensures NeverAccepted(After(Do(After(s, wait), StartRefresh(q, t)), rest), q, t)
  {
    var mid := After(s, wait);
    DeadForever(s, wait, t);
    RunKeepsInv(s, wait);
    var started := Do(mid, StartRefresh(q, t));
    DeadStays(mid, StartRefresh(q, t), t);
    StepKeepsInv(mid, StartRefresh(q, t));
    DoomedForever(started, rest, q, t);
  }

  // ---------------------------------------------------------------- revocation

  /** What a revocation in progress owes to a token settled before it began: if the index key is
      still there, the scan has it to come. */
  ghost predicate Pursues(s: State, p: nat, u: User, t: Token) {
    && Settled(s, t) && s.owner[t] == u && p in s.calls
    && var k := Index(u, t);
       match s.calls[p]
       case ChangingPassword(v, hasRevoker) => v == u && hasRevoker
       case RevokeReady(v) => v == u
       case Scanning(v, start, mark, found) =>
         v == u && mark <= |s.removals| && (k in s.store ==> k in start && !RemovedSince(s, mark, k) && k !in found)
       case Deleting(v, start, mark, found, batch, last) =>
         && v == u && mark <= |s.removals|
         && (k in s.store ==> k in start && !RemovedSince(s, mark, k) && k !in found)
         && (last && k in s.store ==> k in batch)
       case Revoked(v) => v == u && k !in s.store
       case RevokeFailed(v) => true
       case _ => false
  }

  lemma KeptKeyNotRemoved(s: State, s': State, actor: Option<nat>, mark: nat, k: Key)
    requires Evolves(s, s', actor) && k in s'.store && !RemovedSince(s, mark, k)
    requires forall i :: |s.removals| <= i < |s'.removals| ==> k !in s'.removals[i]
    ensures !RemovedSince(s', mark, k)
  {
    forall i | mark <= i < |s'.removals| ensures k !in s'.removals[i] {
      if i < |s.removals| { assert s'.removals[i] == s.removals[i]; }
    }
  }

  lemma FreshRemovalsAreGone(s: State, a: Action, k: Key)
    requires Enabled(s, a) && k in Do(s, a).store
    ensures forall i :: |s.removals| <= i < |Do(s, a).removals| ==> k !in Do(s, a).removals[i]
  {
  }

  lemma OtherStepKeepsPursuit(s: State, a: Action, p: nat, u: User, t: Token)
    requires Enabled(s, a) && Pursues(s, p, u, t) && Actor(a) != Some(p)
    ensures Pursues(Do(s, a), p, u, t)
  {
    var s' := Do(s, a);
    var k := Index(u, t);
    StepEvolves(s, a);
    SettledStays(s, s', Actor(a), t);
    assert s'.calls[p] == s.calls[p];
    if k in s'.store && (s.calls[p].Scanning? || s.calls[p].Deleting?) {
      FreshRemovalsAreGone(s, a, k);
      KeptKeyNotRemoved(s, s', Actor(a), s.calls[p].mark, k);
    }
  }

  lemma OwnStepKeepsPursuit(s: State, o: Outcome, p: nat, u: User, t: Token)
    requires Inv(s) && Pursues(s, p, u, t) && Enabled(s, Advance(p, o))
    ensures Pursues(Do(s, Advance(p, o)), p, u, t)
  {
    var a := Advance(p, o);
    var s' := Do(s, a);
    var k := Index(u, t);
    AdvanceEvolves(s, p, o);
    SettledStays(s, s', Some(p), t);
    if k in s'.store {
      assert KeyOwned(s, k) && CallOk(s, s.calls[p]);
      if Plain(u) { OwnScanOnly(u, k); }
      FreshRemovalsAreGone(s, a, k);
      if s.calls[p].Scanning? || s.calls[p].Deleting? { KeptKeyNotRemoved(s, s', Some(p), s.calls[p].mark, k); }
    }
  }

  lemma {:induction false} PursuitContinues(s: State, actions: seq<Action>, p: nat, u: User, t: Token)
    requires Inv(s) && Runs(s, actions) && Pursues(s, p, u, t)
    ensures Pursues(After(s, actions), p, u, t)
    decreases |actions|
  {
    if actions == [] {
    } else {
      var a := actions[0];
      if a.Advance? && a.id == p { OwnStepKeepsPursuit(s, a.outcome, p, u, t); }
      else { OtherStepKeepsPursuit(s, a, p, u, t); }
      StepKeepsInv(s, a);
      PursuitContinues(Do(s, a), actions[1..], p, u, t);
    }
  }

  ghost predicate IssuedTo(s: State, t: Token, u: User) {
    exists id :: id in s.calls && s.calls[id].Issued? && s.calls[id].token == t && s.calls[id].user == u
  }

  ghost predicate StartsRevoking(a: Action, p: nat, u: User) {
    a == StartRevoke(p, u) || a == StartChangePassword(p, u, true)
  }

  lemma IssuedIsSettled(s: State, t: Token, u: User)
    requires Inv(s) && IssuedTo(s, t, u)
    ensures Settled(s, t) && s.owner[t] == u
  {
    var id :| id in s.calls && s.calls[id].Issued? && s.calls[id].token == t && s.calls[id].user == u;
    assert CallOk(s, s.calls[id]);
  }

  lemma PursuitBegins(s: State, begin: Action, p: nat, u: User, t: Token)
    requires Inv(s) && IssuedTo(s, t, u) && StartsRevoking(begin, p, u) && Enabled(s, begin)
    ensures Inv(Do(s, begin)) && Pursues(Do(s, begin), p, u, t)
  {
    IssuedIsSettled(s, t, u);
    StepKeepsInv(s, begin);
    StepEvolves(s, begin);
    SettledStays(s, Do(s, begin), Actor(begin), t);
  }

  /** Revocation is final. Take any run up to a state where `t` has been issued to `u`, then a
      RevokeAllForUser (or a ChangePassword with a revoker) that begins there and later reports success,
      with anything else going on meanwhile. Every Refresh of `t` that begins after that is refused,
      however the run goes on. */
  lemma {:induction false} RevocationIsFinal(before: seq<Action>, begin: Action, p: nat, u: User, t: Token,
                                             during: seq<Action>, wait: seq<Action>, q: nat, rest: seq<Action>)
    requires Runs(INITIAL, before) && IssuedTo(After(INITIAL, before), t, u)
    requires StartsRevoking(begin, p, u) && Enabled(After(INITIAL, before), begin)
    requires Runs(Do(After(INITIAL, before), begin), during)
    requires var done := After(Do(After(INITIAL, before), begin), during);
             && p in done.calls && done.calls[p] == Revoked(u)
             && Runs(done, wait) && Enabled(After(done, wait), StartRefresh(q, t))
             && Runs(Do(After(done, wait), StartRefresh(q, t)), rest)
    ensures var done := After(Do(After(INITIAL, before), begin), during);
            NeverAccepted(After(Do(After(done, wait), StartRefresh(q, t)), rest), q, t)
  {
    var s := After(INITIAL, before);
    RunKeepsInv(INITIAL, before);
    PursuitBegins(s, begin, p, u, t);
    var begun := Do(s, begin);
    PursuitContinues(begun, during, p, u, t);
    RunKeepsInv(begun, during);
    DeadTokenIsRefused(After(begun, during), wait, q, t, rest);
  }

  // ---------------------------------------------------------------- logout

  /** What a Logout by `u` has done to its own token `t`, settled before it began. */
  ghost predicate Leaves(s: State, p: nat, u: User, t: Token) {
    && Settled(s, t) && s.owner[t] == u && p in s.calls
    && match s.calls[p]
       case LogoutReading(v, given) => v == u && given == t
       case LogoutDroppingLookup(v, given) => v == u && given == t
       case LogoutDroppingIndex(v, given, gone) => v == u && given == t && (gone ==> Lookup(t) !in s.store)
       case LoggedOut(v, given, unread, sp) =>
         && v == u && given == t && SpentOk(s, sp) && (sp.Spent? ==> sp.token == t)
         && (sp.Nothing? && !unread ==> Lookup(t) !in s.store)
       case _ => false
  }

  lemma StepKeepsLeaving(s: State, a: Action, p: nat, u: User, t: Token)
    requires Inv(s) && Enabled(s, a) && Leaves(s, p, u, t)
    ensures Leaves(Do(s, a), p, u, t)
  {
    StepEvolves(s, a);
    SettledStays(s, Do(s, a), Actor(a), t);
    if Lookup(t) in s.store { assert KeyOwned(s, Lookup(t)); }
  }

  lemma {:induction false} LeavingContinues(s: State, actions: seq<Action>, p: nat, u: User, t: Token)
    requires Inv(s) && Runs(s, actions) && Leaves(s, p, u, t)
    ensures Leaves(After(s, actions), p, u, t)
    decreases |actions|
  {
    if actions == [] {
    } else {
      StepKeepsLeaving(s, actions[0], p, u, t);
      StepKeepsInv(s, actions[0]);
      LeavingContinues(Do(s, actions[0]), actions[1..], p, u, t);
    }
  }

  /** A Logout of `t` that has returned, its read not having failed nor both of its deletions. */
  ghost predicate HasLeft(c: Call, t: Token) {
    && c.LoggedOut? && c.given == t && !c.unread
    && (c.spent.Spent? ==> c.spent.lookupGone || c.spent.indexGone)
  }

  /** Logout is final. When a Logout by `u` of a token issued to `u` before it began has returned, with
      anything else going on meanwhile, every Refresh of that token that begins later is refused, unless
      the Logout could not read the lookup key or both of its deletions failed. */
  lemma {:induction false} LogoutIsFinal(before: seq<Action>, p: nat, u: User, t: Token, during: seq<Action>,
                                         wait: seq<Action>, q: nat, rest: seq<Action>)
    requires Runs(INITIAL, before) && IssuedTo(After(INITIAL, before), t, u)
    requires Enabled(After(INITIAL, before), StartLogout(p, u, t))
    requires Runs(Do(After(INITIAL, before), StartLogout(p, u, t)), during)
    requires var done := After(Do(After(INITIAL, before), StartLogout(p, u, t)), during);
             && p in done.calls && HasLeft(done.calls[p], t)
             && Runs(done, wait) && Enabled(After(done, wait), StartRefresh(q, t))
             && Runs(Do(After(done, wait), StartRefresh(q, t)), rest)
    ensures var done := After(Do(After(INITIAL, before), StartLogout(p, u, t)), during);
            NeverAccepted(After(Do(After(done, wait), StartRefresh(q, t)), rest), q, t)
  {
    var s := After(INITIAL, before);
    RunKeepsInv(INITIAL, before);
    IssuedIsSettled(s, t, u);
    StepKeepsInv(s, StartLogout(p, u, t));
    var begun := Do(s, StartLogout(p, u, t));
    LeavingContinues(begun, during, p, u, t);
    RunKeepsInv(begun, during);
    DeadTokenIsRefused(After(begun, during), wait, q, t, rest);
  }

  // ---------------------------------------------------------------- calls under way

  /** A Refresh of `t` that has not returned yet. */
  ghost predicate InFlight(c: Call, t: Token) {
    || ((c.Reading? || c.Checking? || c.Loading? || c.DroppingLookup? || c.DroppingIndex?) && c.given == t)
    || ((c.Generating? || c.SettingLookup? || c.SettingIndex?) && c.spent.Spent? && c.spent.token == t)
  }

  /** A Login for `u` that is writing its keys. */
  ghost predicate LoggingIn(c: Call, u: User) {
    (c.SettingLookup? || c.SettingIndex?) && c.spent.Nothing? && c.user == u
  }

  ghost predicate PastCheck(c: Call) {
    c.Loading? || c.DroppingLookup? || c.DroppingIndex? || c.Generating? || c.SettingLookup? || c.SettingIndex?
  }

  ghost predicate IssuedLive(s: State, q: nat, t: Token) {
    q in s.calls && s.calls[q].Issued? && s.calls[q].token == t && Live(s, t)
  }

  ghost predicate HasIssued(s: State, q: nat) {
    q in s.calls && s.calls[q].Issued? && Live(s, s.calls[q].token)
  }

  /** Some continuation lets the call issue a token that is live. */
  ghost predicate CanIssue(s: State, q: nat) {
    exists rest :: Runs(s, rest) && HasIssued(After(s, rest), q)
  }

  /** Past the check of the index key, and the lookup key of the new token, once written, still there. */
  ghost predicate Able(s: State, c: Call) {
    PastCheck(c) && (c.SettingIndex? ==> Lookup(c.token) in s.store)
  }

  lemma CanIssueBefore(s: State, q: nat, o: Outcome)
    requires Enabled(s, Advance(q, o)) && CanIssue(Do(s, Advance(q, o)), q)
    ensures CanIssue(s, q)
  {
    var s' := Do(s, Advance(q, o));
    var rest :| Runs(s', rest) && HasIssued(After(s', rest), q);
    Prepend(s, Advance(q, o), rest);
  }

  lemma IndexWriterCanIssue(s: State, q: nat)
    requires Inv(s) && q in s.calls && s.calls[q].SettingIndex? && Lookup(s.calls[q].token) in s.store
    ensures CanIssue(s, q)
  {
    assert CallOk(s, s.calls[q]);
    Prepend(s, Advance(q, Fine), []);
    assert HasIssued(Do(s, Advance(q, Fine)), q);
  }

  lemma LookupWriterCanIssue(s: State, q: nat)
    requires Inv(s) && q in s.calls && s.calls[q].SettingLookup?
    ensures CanIssue(s, q)
  {
    assert CallOk(s, s.calls[q]);
    StepKeepsInv(s, Advance(q, Fine));
    IndexWriterCanIssue(Do(s, Advance(q, Fine)), q);
    CanIssueBefore(s, q, Fine);
  }

  lemma GeneratorCanIssue(s: State, q: nat, t': Token)
    requires Inv(s) && q in s.calls && s.calls[q].Generating? && FreshToken(s, t')
    ensures CanIssue(s, q)
  {
    StepKeepsInv(s, Advance(q, Generated(t')));
    LookupWriterCanIssue(Do(s, Advance(q, Generated(t'))), q);
    CanIssueBefore(s, q, Generated(t'));
  }

  lemma SpenderCanIssue(s: State, q: nat, t': Token)
    requires Inv(s) && q in s.calls && FreshToken(s, t')
    requires s.calls[q].Loading? || s.calls[q].DroppingLookup? || s.calls[q].DroppingIndex?
    ensures CanIssue(s, q)
    decreases if s.calls[q].Loading? then 2 else if s.calls[q].DroppingLookup? then 1 else 0
  {
    var s' := Do(s, Advance(q, Fine));
    StepKeepsInv(s, Advance(q, Fine));
    if s.calls[q].DroppingIndex? { GeneratorCanIssue(s', q, t'); } else { SpenderCanIssue(s', q, t'); }
    CanIssueBefore(s, q, Fine);
  }

  lemma AbleCanIssue(s: State, q: nat, t': Token)
    requires Inv(s) && q in s.calls && Able(s, s.calls[q]) && FreshToken(s, t')
    ensures CanIssue(s, q)
  {
    if s.calls[q].SettingIndex? {
      IndexWriterCanIssue(s, q);
    } else if s.calls[q].SettingLookup? {
      LookupWriterCanIssue(s, q);
    } else if s.calls[q].Generating? {
      GeneratorCanIssue(s, q, t');
    } else {
      SpenderCanIssue(s, q, t');
    }
  }

  /** The call has written the lookup key of `t`, which has gone since. */
  ghost predicate LookupLost(s: State, q: nat, t: Token) {
    && Lookup(t) !in s.store && q in s.calls && Holds(s.calls[q], t) && !s.calls[q].SettingLookup?
  }

  lemma LookupLostStays(s: State, a: Action, q: nat, t: Token)
    requires Inv(s) && Enabled(s, a) && LookupLost(s, q, t)
    ensures LookupLost(Do(s, a), q, t)
  {
    StepEvolves(s, a);
    assert CallOk(s, s.calls[q]);
    assert forall i :: i in s.calls && Holds(s.calls[i], t) ==> i == q;
  }

  lemma {:induction false} LookupLostForever(s: State, actions: seq<Action>, q: nat, t: Token)
    requires Inv(s) && Runs(s, actions) && LookupLost(s, q, t)
    ensures LookupLost(After(s, actions), q, t)
    decreases |actions|
  {
    if actions == [] {
    } else {
      LookupLostStays(s, actions[0], q, t);
      StepKeepsInv(s, actions[0]);
      LookupLostForever(Do(s, actions[0]), actions[1..], q, t);
    }
  }

  lemma LookupLostCannotIssue(s: State, q: nat)
    requires Inv(s) && q in s.calls && s.calls[q].SettingIndex? && Lookup(s.calls[q].token) !in s.store
    ensures !CanIssue(s, q)
  {
    forall rest | Runs(s, rest) ensures !HasIssued(After(s, rest), q) {
      LookupLostForever(s, rest, q, s.calls[q].token);
    }
  }

  lemma DoomedCannotIssue(s: State, q: nat, t: Token)
    requires Inv(s) && Doomed(s, q, t)
    ensures !CanIssue(s, q)
  {
    forall rest | Runs(s, rest) ensures !HasIssued(After(s, rest), q) {
      DoomedForever(s, rest, q, t);
    }
  }

  /** Once a token is dead, a Refresh of it that has not returned yet can still issue a live token if and
      only if it is past the check of the index key, with the lookup key it may have written in place, or
      is about to check and finds the index key. */
  lemma InFlightCanIssueIff(s: State, q: nat, t: Token, t': Token)
    requires Inv(s) && Dead(s, t) && q in s.calls && InFlight(s.calls[q], t) && FreshToken(s, t')
    ensures CanIssue(s, q) <==>
            Able(s, s.calls[q]) || (s.calls[q].Checking? && Index(s.owner[t], t) in s.store)
  {
    var c := s.calls[q];
    assert CallOk(s, c);
    if Able(s, c) {
      AbleCanIssue(s, q, t');
    } else if PastCheck(c) {
      LookupLostCannotIssue(s, q);
    } else if c.Checking? && Index(s.owner[t], t) in s.store {
      StepKeepsInv(s, Advance(q, Fine));
      SpenderCanIssue(Do(s, Advance(q, Fine)), q, t');
      CanIssueBefore(s, q, Fine);
    } else {
      DoomedCannotIssue(s, q, t);
    }
  }

  /** When a revocation for `u` has succeeded, of the Refreshes of a token issued before it began and of
      the Logins for `u` that have not returned yet, exactly those past the check of the index key, with
      the lookup key they may have written in place, can still issue a live token. */
  lemma {:induction false} InFlightAcrossRevocation(before: seq<Action>, begin: Action, p: nat, u: User, t: Token,
                                                    during: seq<Action>, q: nat, t': Token)
    requires Runs(INITIAL, before) && IssuedTo(After(INITIAL, before), t, u)
    requires StartsRevoking(begin, p, u) && Enabled(After(INITIAL, before), begin)
    requires Runs(Do(After(INITIAL, before), begin), during)
    requires var done := After(Do(After(INITIAL, before), begin), during);
             && p in done.calls && done.calls[p] == Revoked(u) && FreshToken(done, t')
             && q in done.calls && (InFlight(done.calls[q], t) || LoggingIn(done.calls[q], u))
    ensures var done := After(Do(After(INITIAL, before), begin), during);
            CanIssue(done, q) <==> Able(done, done.calls[q])
  {
    var begun := Do(After(INITIAL, before), begin);
    var done := After(begun, during);
    RunKeepsInv(INITIAL, before);
    PursuitBegins(After(INITIAL, before), begin, p, u, t);
    PursuitContinues(begun, during, p, u, t);
    RunKeepsInv(begun, during);
    if InFlight(done.calls[q], t) {
      InFlightCanIssueIff(done, q, t, t');
    } else if Able(done, done.calls[q]) {
      AbleCanIssue(done, q, t');
    } else {
      LookupLostCannotIssue(done, q);
    }
  }

  // ---------------------------------------------------------------- failed issues and spent tokens

  /** A Login or Refresh that returned an error after generating a token leaves it dead, for every
      pattern of failed writes and failed clean-ups. */
  lemma {:induction false} FailedIssueLeavesNoLiveToken(run: seq<Action>, id: nat, later: seq<Action>)
    requires Runs(INITIAL, run) && id in After(INITIAL, run).calls && After(INITIAL, run).calls[id].IssueFailed?
    requires Runs(After(INITIAL, run), later)
    ensures !Live(After(After(INITIAL, run), later), After(INITIAL, run).calls[id].token)
  {
    var s := After(INITIAL, run);
    RunKeepsInv(INITIAL, run);
    assert CallOk(s, s.calls[id]);
    DeadForever(s, later, s.calls[id].token);
  }

  ghost predicate HasSpent(c: Call, t: Token) {
    && (c.Issued? || c.IssueFailed? || c.GenerationFailed?) && c.spent.Spent? && c.spent.token == t
    && (c.spent.lookupGone || c.spent.indexGone)
  }

  /** After a Refresh of `t` has returned, with at least one of its two deletions effective, no
      Refresh of `t` that begins later succeeds. */
  lemma {:induction false} SpentTokenIsRefused(run: seq<Action>, id: nat, t: Token, wait: seq<Action>, q: nat,
                                               rest: seq<Action>)
    requires Runs(INITIAL, run) && id in After(INITIAL, run).calls && HasSpent(After(INITIAL, run).calls[id], t)
    requires Runs(After(INITIAL, run), wait) && Enabled(After(After(INITIAL, run), wait), StartRefresh(q, t))
    requires Runs(Do(After(After(INITIAL, run), wait), StartRefresh(q, t)), rest)
    ensures NeverAccepted(After(Do(After(After(INITIAL, run), wait), StartRefresh(q, t)), rest), q, t)
  {
    var s := After(INITIAL, run);
    RunKeepsInv(INITIAL, run);
    assert CallOk(s, s.calls[id]);
    DeadTokenIsRefused(s, wait, q, t, rest);
  }

  // ---------------------------------------------------------------- ownership

  /** In every reachable state a lookup value and an index key name only the user the token was
      issued to. */
  lemma {:induction false} KeysNameTheOwner(run: seq<Action>, k: Key)
    requires Runs(INITIAL, run) && k in After(INITIAL, run).store
    ensures var s := After(INITIAL, run);
            && k.token in s.owner
            && (k.Lookup? ==> s.store[k] == s.owner[k.token])
            && (k.Index? ==> k.user == s.owner[k.token])
  {
    RunKeepsInv(INITIAL, run);
    assert KeyOwned(After(INITIAL, run), k);
  }

  ghost predicate ActsFor(c: Call, u: User) {
    match c
    case LogoutReading(caller, _) => caller == u
    case LogoutDroppingLookup(caller, _) => caller == u
    case LogoutDroppingIndex(caller, _, _) => caller == u
    case ChangingPassword(v, _) => v == u
    case RevokeReady(v) => v == u
    case Scanning(v, _, _, _) => v == u
    case Deleting(v, _, _, _, _, _) => v == u
    case _ => false
  }

  /** Logout by `u` and revocation for `u` leave the tokens of everybody else as they were, and
      revocation removes no lookup key. */
  lemma {:induction false} OthersAreUntouched(run: seq<Action>, id: nat, o: Outcome, u: User, t: Token)
    requires Runs(INITIAL, run) && Enabled(After(INITIAL, run), Advance(id, o))
    requires ActsFor(After(INITIAL, run).calls[id], u) && t in After(INITIAL, run).owner
    ensures var (s, s') := (After(INITIAL, run), Do(After(INITIAL, run), Advance(id, o)));
            && (s.owner[t] != u ==> (Live(s', t) <==> Live(s, t)))
            && (s.calls[id].Deleting? ==> (Lookup(t) in s'.store <==> Lookup(t) in s.store))
  {
    var s := After(INITIAL, run);
    RunKeepsInv(INITIAL, run);
    assert CallOk(s, s.calls[id]);
  }

  // ---------------------------------------------------------------- conservation

  ghost function LiveTokens(s: State, u: User): set<Token> {
    set t | t in s.owner && s.owner[t] == u && Live(s, t)
  }

  lemma {:induction false} Prepend(s: State, a: Action, rest: seq<Action>)
    requires Enabled(s, a) && Runs(Do(s, a), rest)
    ensures Runs(s, [a] + rest) && After(s, [a] + rest) == After(Do(s, a), rest)
  {
    assert ([a] + rest)[1..] == rest;
  }

  lemma {:induction false} Join(s: State, first: seq<Action>, second: seq<Action>)
    requires Runs(s, first) && Runs(After(s, first), second)
    ensures Runs(s, first + second) && After(s, first + second) == After(After(s, first), second)
    decreases |first|
  {
    if first == [] {
      assert first + second == second;
    } else {
      Join(Do(s, first[0]), first[1..], second);
      Prepend(s, first[0], first[1..] + second);
      assert first + second == [first[0]] + (first[1..] + second);
    }
  }

  function By(q: nat, outcomes: seq<Outcome>): seq<Action> {
    if outcomes == [] then [] else [Advance(q, outcomes[0])] + By(q, outcomes[1..])
  }

  lemma {:induction false} ByCons(q: nat, o: Outcome, rest: seq<Outcome>)
    ensures By(q, [o] + rest) == [Advance(q, o)] + By(q, rest)
  {
    assert ([o] + rest)[1..] == rest;
  }

  lemma {:induction false} TwoOps(s: State, q: nat, o1: Outcome, o2: Outcome)
    requires Enabled(s, Advance(q, o1)) && Enabled(Do(s, Advance(q, o1)), Advance(q, o2))
    ensures Runs(s, By(q, [o1, o2])) && After(s, By(q, [o1, o2])) == Do(Do(s, Advance(q, o1)), Advance(q, o2))
  {
    var s1 := Do(s, Advance(q, o1));
    Prepend(s1, Advance(q, o2), []);
    Prepend(s, Advance(q, o1), [Advance(q, o2)]);
    ByCons(q, o2, []);
    ByCons(q, o1, [o2]);
    assert [o1] + [o2] == [o1, o2];
  }

  lemma {:induction false} ThreeOps(s: State, q: nat, o1: Outcome, o2: Outcome, o3: Outcome)
    requires Enabled(s, Advance(q, o1)) && Enabled(Do(s, Advance(q, o1)), Advance(q, o2))
    requires Enabled(Do(Do(s, Advance(q, o1)), Advance(q, o2)), Advance(q, o3))
    ensures Runs(s, By(q, [o1, o2, o3]))
    ensures After(s, By(q, [o1, o2, o3])) == Do(Do(Do(s, Advance(q, o1)), Advance(q, o2)), Advance(q, o3))
  {
    TwoOps(Do(s, Advance(q, o1)), q, o2, o3);
    Prepend(s, Advance(q, o1), By(q, [o2, o3]));
    ByCons(q, o1, [o2, o3]);
    assert [o1] + [o2, o3] == [o1, o2, o3];
  }

  lemma {:induction false} ValidatingRuns(s: State, q: nat, t: Token)
    requires Inv(s) && Live(s, t) && q in s.calls && s.calls[q] == Reading(t)
    ensures Runs(s, By(q, [Fine, Fine, Fine]))
    ensures After(s, By(q, [Fine, Fine, Fine])) == s.(calls := s.calls[q := DroppingLookup(t, s.owner[t])])
  {
    assert KeyOwned(s, Lookup(t));
    ThreeOps(s, q, Fine, Fine, Fine);
  }

  predicate FineOrFails(d: Outcome) {
    d.Fine? || d.Fails?
  }

  /** What the two deletions of Refresh leave, each of which may fail. */
  function Cut(store: map<Key, string>, t: Token, u: User, d1: Outcome, d2: Outcome): map<Key, string> {
    var once := if d1.Fine? then store - {Lookup(t)} else store;
    if d2.Fine? then once - {Index(u, t)} else once
  }

  lemma {:induction false} DroppingRuns(s: State, q: nat, t: Token, u: User, d1: Outcome, d2: Outcome)
    requires q in s.calls && s.calls[q] == DroppingLookup(t, u) && FineOrFails(d1) && FineOrFails(d2)
    ensures Runs(s, By(q, [d1, d2]))
    ensures var s' := After(s, By(q, [d1, d2]));
            && s'.store == Cut(s.store, t, u, d1, d2) && s'.owner == s.owner
            && s'.calls == s.calls[q := Generating(u, Spent(t, d1.Fine?, d2.Fine?))]
  {
    TwoOps(s, q, d1, d2);
  }

  lemma {:induction false} IssuingRuns(s: State, q: nat, u: User, sp: Spent, t': Token)
    requires q in s.calls && s.calls[q] == Generating(u, sp) && FreshToken(s, t')
    ensures Runs(s, By(q, [Generated(t'), Fine, Fine]))
    ensures var s' := After(s, By(q, [Generated(t'), Fine, Fine]));
            && s'.store == s.store[Lookup(t') := u][Index(u, t') := "1"] && s'.owner == s.owner[t' := u]
            && s'.calls == s.calls[q := Issued(u, t', sp)]
  {
    ThreeOps(s, q, Generated(t'), Fine, Fine);
  }

  function Spending(q: nat, t: Token, d1: Outcome, d2: Outcome): seq<Action> {
    [StartRefresh(q, t)] + (By(q, [Fine, Fine, Fine]) + By(q, [d1, d2]))
  }

  /** All operations of an undisturbed Refresh of `t` that issues `t'`, with these outcomes of its
      two deletions. */
  function SoloRefresh(q: nat, t: Token, t': Token, d1: Outcome, d2: Outcome): seq<Action> {
    Spending(q, t, d1, d2) + By(q, [Generated(t'), Fine, Fine])
  }

  lemma {:induction false} SpendingRuns(s: State, q: nat, t: Token, d1: Outcome, d2: Outcome)
    requires Inv(s) && Live(s, t) && q in s.calls && s.calls[q] == Reading(t) && FineOrFails(d1) && FineOrFails(d2)
    ensures Runs(s, By(q, [Fine, Fine, Fine]) + By(q, [d1, d2]))
    ensures var (s', u) := (After(s, By(q, [Fine, Fine, Fine]) + By(q, [d1, d2])), s.owner[t]);
            && s'.store == Cut(s.store, t, u, d1, d2) && s'.owner == s.owner
            && s'.calls == s.calls[q := Generating(u, Spent(t, d1.Fine?, d2.Fine?))]
  {
    ValidatingRuns(s, q, t);
    var s1 := After(s, By(q, [Fine, Fine, Fine]));
    DroppingRuns(s1, q, t, s.owner[t], d1, d2);
    Join(s, By(q, [Fine, Fine, Fine]), By(q, [d1, d2]));
  }

  lemma {:induction false} StartAndSpend(s: State, q: nat, t: Token, d1: Outcome, d2: Outcome)
    requires Inv(s) && Live(s, t) && q !in s.calls && FineOrFails(d1) && FineOrFails(d2)
    ensures Runs(s, Spending(q, t, d1, d2))
    ensures var (s', u) := (After(s, Spending(q, t, d1, d2)), s.owner[t]);
            && s'.store == Cut(s.store, t, u, d1, d2) && s'.owner == s.owner
            && s'.calls == s.calls[q := Generating(u, Spent(t, d1.Fine?, d2.Fine?))]
  {
    StepKeepsInv(s, StartRefresh(q, t));
    SpendingRuns(Do(s, StartRefresh(q, t)), q, t, d1, d2);
    Prepend(s, StartRefresh(q, t), By(q, [Fine, Fine, Fine]) + By(q, [d1, d2]));
  }

  lemma {:induction false} SoloRefreshRuns(s: State, q: nat, t: Token, t': Token, d1: Outcome, d2: Outcome)
    requires Inv(s) && Live(s, t) && FreshToken(s, t') && q !in s.calls && FineOrFails(d1) && FineOrFails(d2)
    ensures Runs(s, SoloRefresh(q, t, t', d1, d2))
    ensures var (s', u) := (After(s, SoloRefresh(q, t, t', d1, d2)), s.owner[t]);
            && s'.store == Cut(s.store, t, u, d1, d2)[Lookup(t') := u][Index(u, t') := "1"]
            && s'.owner == s.owner[t' := u]
            && s'.calls == s.calls[q := Issued(u, t', Spent(t, d1.Fine?, d2.Fine?))]
  {
    StartAndSpend(s, q, t, d1, d2);
    IssuingRuns(After(s, Spending(q, t, d1, d2)), q, s.owner[t], Spent(t, d1.Fine?, d2.Fine?), t');
    Join(s, Spending(q, t, d1, d2), By(q, [Generated(t'), Fine, Fine]));
  }

  /** Refresh ignores failed deletions, so single use is not unconditional: a token outlives a
      Refresh that nothing disturbs exactly when both deletions failed. */
  lemma {:induction false} TokenOutlivesRefreshIff(s: State, q: nat, t: Token, t': Token, d1: Outcome, d2: Outcome)
    requires Inv(s) && Live(s, t) && FreshToken(s, t') && q !in s.calls && FineOrFails(d1) && FineOrFails(d2)
    ensures Runs(s, SoloRefresh(q, t, t', d1, d2))
    ensures var s' := After(s, SoloRefresh(q, t, t', d1, d2));
            Live(s', t') && (Live(s', t) <==> d1.Fails? && d2.Fails?)
  {
    SoloRefreshRuns(s, q, t, t', d1, d2);
  }

  /** The state in which the call `q` is at `c`. */
  function At(s: State, q: nat, c: Call): State {
    s.(calls := s.calls[q := c])
  }

  predicate Finished(c: Call) {
    c.Refused? || c.LoggedOut? || c.Issued? || c.IssueFailed?
  }

  lemma OverIsOver(s: State, q: nat, c: Call, o: Outcome)
    requires Finished(c) && FineOrFails(o)
    ensures Enabled(At(s, q, c), Advance(q, o)) && Do(At(s, q, c), Advance(q, o)) == At(s, q, c)
  {
  }

  lemma {:induction false} OverAfterFirst(s: State, q: nat, c: Call, c': Call, o1: Outcome, o2: Outcome, o3: Outcome)
    requires Finished(c') && FineOrFails(o2) && FineOrFails(o3)
    requires Enabled(At(s, q, c), Advance(q, o1)) && Do(At(s, q, c), Advance(q, o1)) == At(s, q, c')
    ensures Runs(At(s, q, c), By(q, [o1, o2, o3])) && After(At(s, q, c), By(q, [o1, o2, o3])) == At(s, q, c')
  {
    OverIsOver(s, q, c', o2);
    OverIsOver(s, q, c', o3);
    ThreeOps(At(s, q, c), q, o1, o2, o3);
  }

  lemma ReadMoves(s: State, q: nat, t: Token, o: Outcome)
    requires StoreOwned(s) && FineOrFails(o)
    ensures Enabled(At(s, q, Reading(t)), Advance(q, o))
    ensures Lookup(t) in s.store ==> OwnedBy(s, t, s.store[Lookup(t)])
    ensures Do(At(s, q, Reading(t)), Advance(q, o))
         == At(s, q, if o.Fine? && Lookup(t) in s.store then Checking(t, s.store[Lookup(t)]) else Refused(t))
  {
    if Lookup(t) in s.store { assert KeyOwned(s, Lookup(t)); }
  }

  lemma CheckMoves(s: State, q: nat, t: Token, u: User, o: Outcome)
    requires FineOrFails(o)
    ensures Enabled(At(s, q, Checking(t, u)), Advance(q, o))
    ensures Do(At(s, q, Checking(t, u)), Advance(q, o))
         == At(s, q, if o.Fine? && Index(u, t) in s.store then Loading(t, u) else Refused(t))
  {
  }

  lemma LoadMoves(s: State, q: nat, t: Token, u: User, o: Outcome)
    requires FineOrFails(o)
    ensures Enabled(At(s, q, Loading(t, u)), Advance(q, o))
    ensures Do(At(s, q, Loading(t, u)), Advance(q, o)) == At(s, q, if o.Fine? then DroppingLookup(t, u) else Refused(t))
  {
  }

  /** A Refresh that nothing disturbs accepts a token exactly when it is live and none of the two reads
      and the load of the user fails, and otherwise changes nothing. */
  lemma {:induction false} RefreshAcceptsIff(s: State, q: nat, t: Token, r1: Outcome, r2: Outcome, r3: Outcome)
    requires Inv(s) && q in s.calls && s.calls[q] == Reading(t) && FineOrFails(r1) && FineOrFails(r2) && FineOrFails(r3)
    ensures Runs(s, By(q, [r1, r2, r3]))
    ensures After(s, By(q, [r1, r2, r3]))
         == At(s, q, if Live(s, t) && r1.Fine? && r2.Fine? && r3.Fine?
                     then DroppingLookup(t, s.owner[t]) else Refused(t))
  {
    assert s == At(s, q, Reading(t));
    ReadMoves(s, q, t, r1);
    if !(r1.Fine? && Lookup(t) in s.store) {
      OverAfterFirst(s, q, Reading(t), Refused(t), r1, r2, r3);
    } else {
      CheckMoves(s, q, t, s.owner[t], r2);
      OverIsOver(s, q, Refused(t), r3);
      LoadMoves(s, q, t, s.owner[t], r3);
      ThreeOps(s, q, r1, r2, r3);
    }
  }

  function SoloLogout(q: nat, caller: User, t: Token, r: Outcome, d1: Outcome, d2: Outcome): seq<Action> {
    [StartLogout(q, caller, t)] + By(q, [r, d1, d2])
  }

  lemma LogoutReadMoves(s: State, q: nat, u: User, t: Token, o: Outcome)
    requires StoreOwned(s) && Live(s, t) && FineOrFails(o)
    ensures Enabled(At(s, q, LogoutReading(u, t)), Advance(q, o))
    ensures Do(At(s, q, LogoutReading(u, t)), Advance(q, o))
         == At(s, q, if o.Fine? && u == s.owner[t] then LogoutDroppingLookup(u, t)
                     else LoggedOut(u, t, o.Fails?, Nothing))
  {
    assert KeyOwned(s, Lookup(t));
  }

  lemma {:induction false} LogoutDroppingRuns(s: State, q: nat, t: Token, u: User, d1: Outcome, d2: Outcome)
    requires q in s.calls && s.calls[q] == LogoutDroppingLookup(u, t) && FineOrFails(d1) && FineOrFails(d2)
    ensures Runs(s, By(q, [d1, d2]))
    ensures var s' := After(s, By(q, [d1, d2]));
            && s'.store == Cut(s.store, t, u, d1, d2) && s'.owner == s.owner
            && s'.calls == s.calls[q := LoggedOut(u, t, false, Spent(t, d1.Fine?, d2.Fine?))]
  {
    TwoOps(s, q, d1, d2);
  }

  lemma {:induction false} LeavingRuns(s: State, q: nat, u: User, t: Token, r: Outcome, d1: Outcome, d2: Outcome)
    requires Inv(s) && Live(s, t) && q in s.calls && s.calls[q] == LogoutReading(u, t)
    requires FineOrFails(r) && FineOrFails(d1) && FineOrFails(d2)
    ensures Runs(s, By(q, [r, d1, d2]))
    ensures var s' := After(s, By(q, [r, d1, d2]));
            var found := r.Fine? && u == s.owner[t];
            && s'.store == (if found then Cut(s.store, t, u, d1, d2) else s.store) && s'.owner == s.owner
            && s'.calls == s.calls[q := LoggedOut(u, t, r.Fails?,
                                                  if found then Spent(t, d1.Fine?, d2.Fine?) else Nothing)]
  {
    assert s == At(s, q, LogoutReading(u, t));
    LogoutReadMoves(s, q, u, t, r);
    if r.Fine? && u == s.owner[t] {
      LogoutDroppingRuns(At(s, q, LogoutDroppingLookup(u, t)), q, t, u, d1, d2);
      Prepend(s, Advance(q, r), By(q, [d1, d2]));
      ByCons(q, r, [d1, d2]);
      assert [r] + [d1, d2] == [r, d1, d2];
    } else {
      OverAfterFirst(s, q, LogoutReading(u, t), LoggedOut(u, t, r.Fails?, Nothing), r, d1, d2);
    }
  }

  lemma LiveAfterCut(s: State, s': State, t: Token, d1: Outcome, d2: Outcome, x: Token)
    requires Live(s, t) && FineOrFails(d1) && FineOrFails(d2)
    requires s'.owner == s.owner && s'.store == Cut(s.store, t, s.owner[t], d1, d2)
    ensures Live(s', x) <==> Live(s, x) && (x == t ==> d1.Fails? && d2.Fails?)
  {
  }

  /** Logout ignores failed operations too. A live token outlives a Logout that nothing disturbs exactly
      when the caller is not its owner, the read failed or both deletions failed; every other token stays
      as it was. */
  lemma {:induction false} TokenOutlivesLogoutIff(s: State, q: nat, caller: User, t: Token,
                                                  r: Outcome, d1: Outcome, d2: Outcome, x: Token)
    requires Inv(s) && Live(s, t) && q !in s.calls && FineOrFails(r) && FineOrFails(d1) && FineOrFails(d2)
    ensures Runs(s, SoloLogout(q, caller, t, r, d1, d2))
    ensures var s' := After(s, SoloLogout(q, caller, t, r, d1, d2));
            && (Live(s', t) <==> caller != s.owner[t] || r.Fails? || (d1.Fails? && d2.Fails?))
            && (x != t ==> (Live(s', x) <==> Live(s, x)))
  {
    var begun := Do(s, StartLogout(q, caller, t));
    StepKeepsInv(s, StartLogout(q, caller, t));
    LeavingRuns(begun, q, caller, t, r, d1, d2);
    Prepend(s, StartLogout(q, caller, t), By(q, [r, d1, d2]));
    if r.Fine? && caller == s.owner[t] {
      var s' := After(s, SoloLogout(q, caller, t, r, d1, d2));
      LiveAfterCut(s, s', t, d1, d2, t);
      LiveAfterCut(s, s', t, d1, d2, x);
    }
  }

  /** The store after one token's two keys were exchanged for those of a new one. */
  ghost predicate Swapped(s: State, s': State, t: Token, t': Token) {
    && t in s.owner && t' !in s.owner && s'.owner == s.owner[t' := s.owner[t]]
    && s'.store == Cut(s.store, t, s.owner[t], Fine, Fine)[Lookup(t') := s.owner[t]][Index(s.owner[t], t') := "1"]
  }

  lemma LiveAfterSwap(s: State, s': State, t: Token, t': Token, x: Token)
    requires Swapped(s, s', t, t')
    ensures Live(s', x) <==> x == t' || (x != t && Live(s, x))
  {
  }

  lemma SwapConserves(s: State, s': State, t: Token, t': Token, v: User)
    requires Swapped(s, s', t, t') && Live(s, t)
    ensures |LiveTokens(s', v)| == |LiveTokens(s, v)|
    ensures LiveTokens(s', v) == if v == s.owner[t] then LiveTokens(s, v) - {t} + {t'} else LiveTokens(s, v)
  {
    var before, after := LiveTokens(s, v), LiveTokens(s', v);
    forall x ensures x in after <==> (v == s.owner[t] && x == t') || (x != t && x in before) {
      LiveAfterSwap(s, s', t, t', x);
    }
    if v == s.owner[t] {
      assert after == before - {t} + {t'};
    } else {
      assert after == before;
    }
  }

  /** Alone and without failures, Refresh swaps one live token of the user for another: the user
      keeps the same number of sessions and nobody else's change. */
  lemma {:induction false} RefreshConservesSessions(s: State, q: nat, t: Token, t': Token, v: User)
    requires Inv(s) && Live(s, t) && FreshToken(s, t') && q !in s.calls
    ensures Runs(s, SoloRefresh(q, t, t', Fine, Fine))
    ensures var s' := After(s, SoloRefresh(q, t, t', Fine, Fine));
            && |LiveTokens(s', v)| == |LiveTokens(s, v)|
            && LiveTokens(s', v) == if v == s.owner[t] then LiveTokens(s, v) - {t} + {t'} else LiveTokens(s, v)
  {
    SoloRefreshRuns(s, q, t, t', Fine, Fine);
    SwapConserves(s, After(s, SoloRefresh(q, t, t', Fine, Fine)), t, t', v);
  }

  // ---------------------------------------------------------------- overlapping calls

  lemma {:induction false} StartAndValidate(s: State, q: nat, t: Token)
    requires Inv(s) && Live(s, t) && q !in s.calls
    ensures var acts := [StartRefresh(q, t)] + By(q, [Fine, Fine, Fine]);
            Runs(s, acts) && After(s, acts) == s.(calls := s.calls[q := DroppingLookup(t, s.owner[t])])
  {
    StepKeepsInv(s, StartRefresh(q, t));
    ValidatingRuns(Do(s, StartRefresh(q, t)), q, t);
    Prepend(s, StartRefresh(q, t), By(q, [Fine, Fine, Fine]));
  }

  /** The rest of a Refresh that has passed its checks, whether or not the keys are still there. */
  lemma {:induction false} LateFinishRuns(s: State, q: nat, t: Token, u: User, t': Token)
    requires q in s.calls && s.calls[q] == DroppingLookup(t, u) && FreshToken(s, t')
    ensures var acts := By(q, [Fine, Fine]) + By(q, [Generated(t'), Fine, Fine]);
            && Runs(s, acts)
            && After(s, acts).store == Cut(s.store, t, u, Fine, Fine)[Lookup(t') := u][Index(u, t') := "1"]
            && After(s, acts).owner == s.owner[t' := u]
            && After(s, acts).calls == s.calls[q := Issued(u, t', Spent(t, true, true))]
  {
    DroppingRuns(s, q, t, u, Fine, Fine);
    IssuingRuns(After(s, By(q, [Fine, Fine])), q, u, Spent(t, true, true), t');
    Join(s, By(q, [Fine, Fine]), By(q, [Generated(t'), Fine, Fine]));
  }

  function SecondFinishesLate(q1: nat, q2: nat, t: Token, t1: Token, t2: Token): seq<Action> {
    SoloRefresh(q1, t, t1, Fine, Fine) + (By(q2, [Fine, Fine]) + By(q2, [Generated(t2), Fine, Fine]))
  }

  lemma LateIssueIsLive(s: State, end: State, q1: nat, q2: nat, t: Token, u: User, t1: Token, t2: Token)
    requires q1 in s.calls && s.calls[q1].Issued? && s.calls[q1].token == t1 && Live(s, t1) && q1 != q2
    requires t1 != t && t2 != t && t1 != t2 && t2 !in s.owner
    requires end.store == Cut(s.store, t, u, Fine, Fine)[Lookup(t2) := u][Index(u, t2) := "1"]
    requires end.owner == s.owner[t2 := u] && end.calls == s.calls[q2 := Issued(u, t2, Spent(t, true, true))]
    ensures IssuedLive(end, q1, t1) && IssuedLive(end, q2, t2)
  {
  }

  lemma {:induction false} SecondFinishesLateRuns(s: State, q1: nat, q2: nat, t: Token, t1: Token, t2: Token)
    requires Inv(s) && Live(s, t) && q1 !in s.calls && q2 in s.calls && s.calls[q2] == DroppingLookup(t, s.owner[t])
    requires FreshToken(s, t1) && FreshToken(s, t2) && t1 != t2
    ensures Runs(s, SecondFinishesLate(q1, q2, t, t1, t2))
    ensures var end := After(s, SecondFinishesLate(q1, q2, t, t1, t2));
            IssuedLive(end, q1, t1) && IssuedLive(end, q2, t2)
  {
    var solo := SoloRefresh(q1, t, t1, Fine, Fine);
    var late := By(q2, [Fine, Fine]) + By(q2, [Generated(t2), Fine, Fine]);
    SoloRefreshRuns(s, q1, t, t1, Fine, Fine);
    var middle := After(s, solo);
    LateFinishRuns(middle, q2, t, s.owner[t], t2);
    Join(s, solo, late);
    LateIssueIsLive(middle, After(middle, late), q1, q2, t, s.owner[t], t1, t2);
  }

  function Overlapping(q1: nat, q2: nat, t: Token, t1: Token, t2: Token): seq<Action> {
    ([StartRefresh(q2, t)] + By(q2, [Fine, Fine, Fine])) + SecondFinishesLate(q1, q2, t, t1, t2)
  }

  /** From any state with a live token, two Refreshes of it of which the second passes its checks before
      the first deletes the keys both issue a live token. */
  lemma {:induction false} OverlappingRefreshesBothIssue(s: State, q1: nat, q2: nat, t: Token, t1: Token, t2: Token)
    requires Inv(s) && Live(s, t) && q1 !in s.calls && q2 !in s.calls && q1 != q2
    requires FreshToken(s, t1) && FreshToken(s, t2) && t1 != t2
    ensures Runs(s, Overlapping(q1, q2, t, t1, t2))
    ensures var end := After(s, Overlapping(q1, q2, t, t1, t2)); IssuedLive(end, q1, t1) && IssuedLive(end, q2, t2)
  {
    var first := [StartRefresh(q2, t)] + By(q2, [Fine, Fine, Fine]);
    StartAndValidate(s, q2, t);
    RunKeepsInv(s, first);
    SecondFinishesLateRuns(After(s, first), q1, q2, t, t1, t2);
    Join(s, first, SecondFinishesLate(q1, q2, t, t1, t2));
  }

  function MatchingKeys(s: State, u: User): set<Key> {
    set k | k in s.store && Matches(u, k)
  }

  /** An undisturbed RevokeAllForUser that gets all its keys in one round. */
  function SoloRevoke(s: State, p: nat, u: User): seq<Action> {
    [StartRevoke(p, u)] + By(p, [Fine, Batch(MatchingKeys(s, u), true), Fine])
  }

  lemma {:induction false} SoloRevokeRuns(s: State, p: nat, u: User)
    requires p !in s.calls && Plain(u)
    ensures Runs(s, SoloRevoke(s, p, u))
    ensures var s' := After(s, SoloRevoke(s, p, u));
            && s'.store == s.store - MatchingKeys(s, u) && s'.owner == s.owner
            && s'.calls == s.calls[p := Revoked(u)]
  {
    var begun := Do(s, StartRevoke(p, u));
    assert MatchingKeys(begun, u) == MatchingKeys(s, u);
    ScanAndDelete(begun, p, u, MatchingKeys(s, u));
    Prepend(s, StartRevoke(p, u), By(p, [Fine, Batch(MatchingKeys(s, u), true), Fine]));
  }

  lemma {:induction false} ScanAndDelete(s: State, p: nat, u: User, keys: set<Key>)
    requires p in s.calls && s.calls[p] == RevokeReady(u) && keys == MatchingKeys(s, u)
    ensures Runs(s, By(p, [Fine, Batch(keys, true), Fine]))
    ensures var s' := After(s, By(p, [Fine, Batch(keys, true), Fine]));
            && s'.store == s.store - keys && s'.owner == s.owner && s'.calls == s.calls[p := Revoked(u)]
  {
    ScanStarts(s, p, u, keys);
    var scanning := Do(s, Advance(p, Fine));
    AllInOneRound(scanning, p, u, keys, |s.removals|);
    LastRoundDeletes(Do(scanning, Advance(p, Batch(keys, true))), p, u, keys, |s.removals|);
    ThreeOps(s, p, Fine, Batch(keys, true), Fine);
  }

  lemma ScanStarts(s: State, p: nat, u: User, keys: set<Key>)
    requires p in s.calls && s.calls[p] == RevokeReady(u) && keys == MatchingKeys(s, u)
    ensures Do(s, Advance(p, Fine)) == s.(calls := s.calls[p := Scanning(u, keys, |s.removals|, {})])
    ensures keys <= s.store.Keys && forall k :: k in keys ==> Matches(u, k)
  {
  }

  lemma LastRoundDeletes(s: State, p: nat, u: User, keys: set<Key>, mark: nat)
    requires p in s.calls && s.calls[p] == Deleting(u, keys, mark, {}, keys, true)
    ensures var s' := Do(s, Advance(p, Fine));
            s'.store == s.store - keys && s'.owner == s.owner && s'.calls == s.calls[p := Revoked(u)]
  {
  }

  lemma AllInOneRound(s: State, p: nat, u: User, keys: set<Key>, mark: nat)
    requires p in s.calls && s.calls[p] == Scanning(u, keys, mark, {})
    requires keys <= s.store.Keys && forall k :: k in keys ==> Matches(u, k)
    ensures Enabled(s, Advance(p, Batch(keys, true)))
    ensures Do(s, Advance(p, Batch(keys, true))) == s.(calls := s.calls[p := Deleting(u, keys, mark, {}, keys, true)])
  {
    assert {} + keys == keys;
  }

  /** The keys that a scan for `u` returns are `u`'s index keys, so deleting them ends `u`'s sessions and
      no other. */
  lemma LiveWithoutMatching(s: State, s': State, u: User, x: Token)
    requires Inv(s) && Plain(u) && s'.owner == s.owner && s'.store == s.store - MatchingKeys(s, u)
    ensures Live(s', x) <==> Live(s, x) && s.owner[x] != u
  {
    if Live(s, x) {
      assert KeyOwned(s, Lookup(x)) && KeyOwned(s, Index(s.owner[x], x));
      OwnScanOnly(u, Lookup(x));
      OwnScanOnly(u, Index(s.owner[x], x));
    }
  }

  /** RevokeAllForUser that nothing disturbs ends exactly the sessions of that user. */
  lemma {:induction false} RevocationEndsSessions(s: State, p: nat, u: User, x: Token)
    requires Inv(s) && p !in s.calls && Plain(u)
    ensures Runs(s, SoloRevoke(s, p, u))
    ensures Live(After(s, SoloRevoke(s, p, u)), x) <==> Live(s, x) && s.owner[x] != u
  {
    SoloRevokeRuns(s, p, u);
    LiveWithoutMatching(s, After(s, SoloRevoke(s, p, u)), u, x);
  }

  function SoloChange(s: State, p: nat, u: User, hasRevoker: bool): seq<Action> {
    [StartChangePassword(p, u, hasRevoker), Advance(p, Fine)]
    + if hasRevoker then By(p, [Fine, Batch(MatchingKeys(s, u), true), Fine]) else []
  }

  lemma {:induction false} ChangeReachesRevoker(s: State, p: nat, u: User, hasRevoker: bool)
    requires p !in s.calls && Plain(u)
    ensures var acts := [StartChangePassword(p, u, hasRevoker), Advance(p, Fine)];
            && Runs(s, acts)
            && After(s, acts)
            == s.(calls := s.calls[p := if hasRevoker then RevokeReady(u) else PasswordChangedOnly(u)])
  {
    var begun := Do(s, StartChangePassword(p, u, hasRevoker));
    Prepend(begun, Advance(p, Fine), []);
    Prepend(s, StartChangePassword(p, u, hasRevoker), [Advance(p, Fine)]);
    assert [StartChangePassword(p, u, hasRevoker)] + [Advance(p, Fine)]
        == [StartChangePassword(p, u, hasRevoker), Advance(p, Fine)];
  }

  /** A change of password that nothing disturbs ends exactly the sessions of that user when a revoker is
      configured, and none when it is not. */
  lemma {:induction false} ChangeEndsSessionsIff(s: State, p: nat, u: User, hasRevoker: bool, x: Token)
    requires Inv(s) && p !in s.calls && Plain(u)
    ensures Runs(s, SoloChange(s, p, u, hasRevoker))
    ensures Live(After(s, SoloChange(s, p, u, hasRevoker)), x) <==>
            Live(s, x) && !(hasRevoker && s.owner[x] == u)
  {
    var first := [StartChangePassword(p, u, hasRevoker), Advance(p, Fine)];
    ChangeReachesRevoker(s, p, u, hasRevoker);
    if hasRevoker {
      var ready := After(s, first);
      assert MatchingKeys(ready, u) == MatchingKeys(s, u);
      ScanAndDelete(ready, p, u, MatchingKeys(s, u));
      Join(s, first, By(p, [Fine, Batch(MatchingKeys(s, u), true), Fine]));
      LiveWithoutMatching(s, After(s, SoloChange(s, p, u, hasRevoker)), u, x);
    } else {
      assert first + [] == first;
    }
  }

  /** From any state with a live token, a Refresh of it that passes its checks before a revocation begins
      issues a live token after the revocation has succeeded, before which that token was unknown. */
  lemma RefreshOutlivesRevocation(s: State, p: nat, q: nat, t: Token, t': Token)
    returns (upTo: seq<Action>, afterwards: seq<Action>)
    requires Inv(s) && Live(s, t) && p !in s.calls && q !in s.calls && p != q
    requires Plain(s.owner[t]) && FreshToken(s, t')
    ensures Runs(s, upTo) && p in After(s, upTo).calls && After(s, upTo).calls[p] == Revoked(s.owner[t])
    ensures t' !in After(s, upTo).owner
    ensures Runs(After(s, upTo), afterwards) && IssuedLive(After(After(s, upTo), afterwards), q, t')
  {
    var first := [StartRefresh(q, t)] + By(q, [Fine, Fine, Fine]);
    StartAndValidate(s, q, t);
    var s1 := After(s, first);
    var revoke := SoloRevoke(s1, p, s.owner[t]);
    SoloRevokeRuns(s1, p, s.owner[t]);
    Join(s, first, revoke);
    LateFinishRuns(After(s1, revoke), q, t, s.owner[t], t');
    upTo, afterwards := first + revoke, By(q, [Fine, Fine]) + By(q, [Generated(t'), Fine, Fine]);
  }

  /** A Login that nothing disturbs issues a live token: from the initial state on there are states as the
      two runs above start from. */
  lemma {:induction false} SoloLoginRuns(s: State, id: nat, u: User, t: Token)
    requires id !in s.calls && ColonFree(u) && FreshToken(s, t)
    ensures Runs(s, [StartLogin(id, u, t)] + By(id, [Fine, Fine]))
    ensures IssuedLive(After(s, [StartLogin(id, u, t)] + By(id, [Fine, Fine])), id, t)
  {
    var begun := Do(s, StartLogin(id, u, t));
    TwoOps(begun, id, Fine, Fine);
    Prepend(s, StartLogin(id, u, t), By(id, [Fine, Fine]));
  }

  /** What the issuing of a token leaves when its two writes and its clean-up have these outcomes. */
  function Minted(store: map<Key, string>, u: User, t: Token, w1: Outcome, w2: Outcome, d: Outcome)
    : map<Key, string>
  {
    if w1.Fails? || (w2.Fails? && d.Fine?) then store
    else if w2.Fails? then store[Lookup(t) := u]
    else store[Lookup(t) := u][Index(u, t) := "1"]
  }

  lemma {:induction false} FirstWriteFails(s: State, q: nat, u: User, t: Token, sp: Spent, w2: Outcome, d: Outcome)
    requires q in s.calls && s.calls[q] == SettingLookup(u, t, sp) && FineOrFails(w2) && FineOrFails(d)
    ensures Runs(s, By(q, [Fails, w2, d]))
    ensures After(s, By(q, [Fails, w2, d])) == At(s, q, IssueFailed(u, t, sp))
  {
    assert s == At(s, q, SettingLookup(u, t, sp));
    OverAfterFirst(s, q, SettingLookup(u, t, sp), IssueFailed(u, t, sp), Fails, w2, d);
  }

  lemma {:induction false} SecondWriteFails(s: State, q: nat, u: User, t: Token, sp: Spent, d: Outcome)
    requires q in s.calls && s.calls[q] == SettingIndex(u, t, sp) && FineOrFails(d)
    ensures Runs(s, By(q, [Fails, d]))
    ensures var s' := After(s, By(q, [Fails, d]));
            && s'.store == (if d.Fine? then s.store - {Lookup(t)} else s.store) && s'.owner == s.owner
            && s'.calls == s.calls[q := IssueFailed(u, t, sp)]
  {
    TwoOps(s, q, Fails, d);
  }

  lemma {:induction false} SecondWriteSucceeds(s: State, q: nat, u: User, t: Token, sp: Spent, d: Outcome)
    requires q in s.calls && s.calls[q] == SettingIndex(u, t, sp) && FineOrFails(d)
    ensures Runs(s, By(q, [Fine, d]))
    ensures var s' := After(s, By(q, [Fine, d]));
            && s'.store == s.store[Index(u, t) := "1"] && s'.owner == s.owner
            && s'.calls == s.calls[q := Issued(u, t, sp)]
  {
    var written := Do(s, Advance(q, Fine));
    OverIsOver(written, q, Issued(u, t, sp), d);
    assert written == At(written, q, Issued(u, t, sp));
    TwoOps(s, q, Fine, d);
  }

  /** The issuing of a token, by Login or Refresh, for every outcome of its operations. */
  lemma {:induction false} IssuingLeaves(s: State, q: nat, u: User, t: Token, sp: Spent,
                                         w1: Outcome, w2: Outcome, d: Outcome)
    requires q in s.calls && s.calls[q] == SettingLookup(u, t, sp) && Lookup(t) !in s.store
    requires FineOrFails(w1) && FineOrFails(w2) && FineOrFails(d)
    ensures Runs(s, By(q, [w1, w2, d]))
    ensures var s' := After(s, By(q, [w1, w2, d]));
            && s'.store == Minted(s.store, u, t, w1, w2, d) && s'.owner == s.owner
            && s'.calls == s.calls[q := if w1.Fine? && w2.Fine? then Issued(u, t, sp) else IssueFailed(u, t, sp)]
  {
    if w1.Fails? {
      FirstWriteFails(s, q, u, t, sp, w2, d);
    } else {
      var written := Do(s, Advance(q, w1));
      if w2.Fine? { SecondWriteSucceeds(written, q, u, t, sp, d); } else { SecondWriteFails(written, q, u, t, sp, d); }
      Prepend(s, Advance(q, w1), By(q, [w2, d]));
      ByCons(q, w1, [w2, d]);
      assert [w1] + [w2, d] == [w1, w2, d];
    }
  }

  /** What a Login that nothing disturbs leaves, for every outcome of its two writes and its clean-up: a
      live token when both writes succeed, otherwise none, and its lookup key only when the second write
      and the clean-up failed. */
  lemma {:induction false} LoginIssuesIff(s: State, id: nat, u: User, t: Token, w1: Outcome, w2: Outcome, d: Outcome)
    requires Inv(s) && id !in s.calls && ColonFree(u) && FreshToken(s, t)
    requires FineOrFails(w1) && FineOrFails(w2) && FineOrFails(d)
    ensures Runs(s, [StartLogin(id, u, t)] + By(id, [w1, w2, d]))
    ensures var s' := After(s, [StartLogin(id, u, t)] + By(id, [w1, w2, d]));
            var issued := w1.Fine? && w2.Fine?;
            && (Live(s', t) <==> issued)
            && s'.calls == s.calls[id := if issued then Issued(u, t, Nothing) else IssueFailed(u, t, Nothing)]
            && (Lookup(t) in s'.store <==> w1.Fine? && (w2.Fine? || d.Fails?))
  {
    UnknownTokenHasNoKey(s, Lookup(t));
    UnknownTokenHasNoKey(s, Index(u, t));
    var begun := Do(s, StartLogin(id, u, t));
    IssuingLeaves(begun, id, u, t, Nothing, w1, w2, d);
    Prepend(s, StartLogin(id, u, t), By(id, [w1, w2, d]));
  }
}
