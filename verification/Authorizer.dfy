/** The authorization adapter: policy mutations in front of Casbin and memoised decisions.
    Each adapter method is one atomic step; runs are sequences of steps. */
module Authorizer {
  import opened Options
  import opened Rbac
  import opened DecisionCache

  /** One call. `failed` says that the enforcer returned an error, which leaves its policy as it was;
      `cancelled` that the caller's context was already done. */
  datatype Call =
    | Enforce(sub: string, obj: string, act: string, cancelled: bool, failed: bool)
    | AddRoleForUser(user: string, role: string, failed: bool)
    | RemoveRoleForUser(user: string, role: string, failed: bool)
    | AddPermissionForRole(role: string, obj: string, act: string, failed: bool)
    | RemovePermissionForRole(role: string, obj: string, act: string, failed: bool)
    | AddPermissionForUser(user: string, obj: string, act: string, failed: bool)
    | RemovePermissionForUser(user: string, obj: string, act: string, failed: bool)
    | LoadPolicy(stored: Policy, failed: bool)
    | WatcherUpdate(updated: Policy, reloadFailed: bool)

  datatype Reply = Decision(allowed: bool) | Ok | InvalidArg | EnforcerError | Cancelled

  datatype State = State(policy: Policy, cache: Recency)

  ghost function Decide(capacity: nat, s: State, sub: string, obj: string, act: string, failed: bool): (State, Reply) {
    var (promoted, hit) := Got(capacity, s.cache, sub, obj, act);
    if hit.Some? then (s.(cache := promoted), Decision(hit.value))
    else if failed then (s, EnforcerError)
    else
      var allowed := Allowed(s.policy, sub, obj, act);
      (s.(cache := AfterPut(capacity, s.cache, sub, obj, act, allowed)), Decision(allowed))
  }

  /** A mutation on behalf of one user: only that user's entries are dropped. */
  function UserMutation(capacity: nat, s: State, user: string, valid: bool, failed: bool, next: Policy)
    : (State, Reply)
  {
    if !valid then (s, InvalidArg)
    else if failed then (s, EnforcerError)
    else (State(next, AfterInvalidate(capacity, s.cache, user)), Ok)
  }

  /** A mutation that may concern anyone: the cache is emptied. */
  function GlobalMutation(capacity: nat, s: State, valid: bool, failed: bool, next: Policy): (State, Reply) {
    if !valid then (s, InvalidArg)
    else if failed then (s, EnforcerError)
    else (State(next, AfterFlush(capacity, s.cache)), Ok)
  }

  ghost function Step(capacity: nat, s: State, call: Call): (State, Reply) {
    match call
    case Enforce(sub, obj, act, cancelled, failed) =>
      if cancelled then (s, Cancelled) else Decide(capacity, s, sub, obj, act, failed)
    case AddRoleForUser(u, r, failed) =>
      UserMutation(capacity, s, u, NulFree(u) && NulFree(r), failed, AddLink(s.policy, u, r))
    case RemoveRoleForUser(u, r, failed) =>
      UserMutation(capacity, s, u, NulFree(u) && NulFree(r), failed, RemoveLink(s.policy, u, r))
    case AddPermissionForUser(u, o, a, failed) =>
      UserMutation(capacity, s, u, NulFreeRequest(u, o, a), failed, AddRule(s.policy, u, o, a))
    case RemovePermissionForUser(u, o, a, failed) =>
      UserMutation(capacity, s, u, NulFreeRequest(u, o, a), failed, RemoveRule(s.policy, u, o, a))
    case AddPermissionForRole(r, o, a, failed) =>
      GlobalMutation(capacity, s, NulFreeRequest(r, o, a), failed, AddRule(s.policy, r, o, a))
    case RemovePermissionForRole(r, o, a, failed) =>
      GlobalMutation(capacity, s, NulFreeRequest(r, o, a), failed, RemoveRule(s.policy, r, o, a))
    case LoadPolicy(stored, failed) => GlobalMutation(capacity, s, true, failed, stored)
    case WatcherUpdate(updated, reloadFailed) => (GlobalMutation(capacity, s, true, reloadFailed, updated).0, Ok)
  }

  ghost function Run(capacity: nat, s: State, calls: seq<Call>): State
    decreases |calls|
  {
    if calls == [] then s else Run(capacity, Step(capacity, s, calls[0]).0, calls[1..])
  }

  ghost function Replies(capacity: nat, s: State, calls: seq<Call>): (replies: seq<Reply>)
    ensures |replies| == |calls|
    decreases |calls|
  {
    if calls == [] then []
    else
      var (next, reply) := Step(capacity, s, calls[0]);
      [reply] + Replies(capacity, next, calls[1..])
  }

  // ---------------------------------------------------------------- what each call means

  /** The arguments of a mutation are accepted: none contains the separator of cache keys. */
  ghost predicate Accepted(call: Call) {
    match call
    case AddRoleForUser(u, r, _) => NulFree(u) && NulFree(r)
    case RemoveRoleForUser(u, r, _) => NulFree(u) && NulFree(r)
    case AddPermissionForRole(r, o, a, _) => NulFree(r) && NulFree(o) && NulFree(a)
    case RemovePermissionForRole(r, o, a, _) => NulFree(r) && NulFree(o) && NulFree(a)
    case AddPermissionForUser(u, o, a, _) => NulFree(u) && NulFree(o) && NulFree(a)
    case RemovePermissionForUser(u, o, a, _) => NulFree(u) && NulFree(o) && NulFree(a)
    case _ => true
  }

  ghost predicate OneLinkMore(p: Policy, q: Policy, link: Link) {
    q.rules == p.rules && forall l :: l in q.links <==> l in p.links || l == link
  }

  ghost predicate OneLinkLess(p: Policy, q: Policy, link: Link) {
    q.rules == p.rules && forall l :: l in q.links <==> l in p.links && l != link
  }

  ghost predicate OneRuleMore(p: Policy, q: Policy, rule: Rule) {
    q.links == p.links && forall x :: x in q.rules <==> x in p.rules || x == rule
  }

  ghost predicate OneRuleLess(p: Policy, q: Policy, rule: Rule) {
    q.links == p.links && forall x :: x in q.rules <==> x in p.rules && x != rule
  }

  /** The policy `q` that a mutation is meant to make of `p`, by its links and rules. */
  ghost predicate LeadsTo(p: Policy, call: Call, q: Policy) {
    match call
    case Enforce(_, _, _, _, _) => q == p
    case AddRoleForUser(u, r, failed) =>
      if failed || !Accepted(call) then q == p else OneLinkMore(p, q, Link(u, r))
    case RemoveRoleForUser(u, r, failed) =>
      if failed || !Accepted(call) then q == p else OneLinkLess(p, q, Link(u, r))
    case AddPermissionForRole(r, o, a, failed) =>
      if failed || !Accepted(call) then q == p else OneRuleMore(p, q, Rule(r, o, a))
    case RemovePermissionForRole(r, o, a, failed) =>
      if failed || !Accepted(call) then q == p else OneRuleLess(p, q, Rule(r, o, a))
    case AddPermissionForUser(u, o, a, failed) =>
      if failed || !Accepted(call) then q == p else OneRuleMore(p, q, Rule(u, o, a))
    case RemovePermissionForUser(u, o, a, failed) =>
      if failed || !Accepted(call) then q == p else OneRuleLess(p, q, Rule(u, o, a))
    case LoadPolicy(stored, failed) => q == if failed then p else stored
    case WatcherUpdate(updated, reloadFailed) => q == if reloadFailed then p else updated
  }

  /** Every call makes of the policy exactly what it is meant to. */
  lemma PolicyAfterIsMeant(p: Policy, call: Call, q: Policy)
    ensures LeadsTo(p, call, q) <==> q == PolicyAfter(p, call)
  {
    var r := PolicyAfter(p, call);
    if LeadsTo(p, call, q) {
      assert LeadsTo(p, call, r);
      assert q.links == r.links && q.rules == r.rules;
    }
  }

  /** How a mutation answers, and that a rejected or failed one changes nothing. */
  lemma MutationReplies(capacity: nat, s: State, call: Call)
    requires !call.Enforce? && !call.WatcherUpdate?
    ensures var (after, reply) := Step(capacity, s, call);
            && (!Accepted(call) ==> reply == InvalidArg && after == s)
            && (Accepted(call) && call.failed ==> reply == EnforcerError && after == s)
            && (Accepted(call) && !call.failed ==> reply == Ok)
  {
  }

  // ---------------------------------------------------------------- coherence

  /** Every decision the cache would return is the one the matcher gives now. */
  ghost predicate Coherent(s: State) {
    forall sub, obj, act :: NulFreeRequest(sub, obj, act) ==> CoherentAt(s, sub, obj, act)
  }

  ghost predicate CoherentAt(s: State, sub: string, obj: string, act: string) {
    var cached := Lookup(s.cache, CacheKey(sub, obj, act));
    cached.Some? ==> cached.value == Allowed(s.policy, sub, obj, act)
  }

  /** `s` is another subject that inherits `user`; such subjects are not reached by the
      invalidation of `user`. */
  ghost predicate Inheritor(p: Policy, s: string, user: string) {
    NulFree(s) && s != user && Reaches(p.links, s, user)
  }

  /** What a caller of a `*ForUser` method has to know of the policy: no other subject inheriting
      the user gains (or, for a removal, would regain) a permission through the mutated entry. */
  ghost predicate Safe(p: Policy, call: Call) {
    match call
    case AddRoleForUser(u, r, false) => NulFree(u) && NulFree(r) ==> InheritorsHaveRole(p, u, r)
    case RemoveRoleForUser(u, r, false) =>
      NulFree(u) && NulFree(r) && Link(u, r) in p.links ==> InheritorsHaveRole(RemoveLink(p, u, r), u, r)
    case AddPermissionForUser(u, o, a, false) => NulFreeRequest(u, o, a) ==> InheritorsHavePermission(p, u, o, a)
    case RemovePermissionForUser(u, o, a, false) =>
      NulFreeRequest(u, o, a) && Rule(u, o, a) in p.rules ==> InheritorsHavePermission(RemoveRule(p, u, o, a), u, o, a)
    case _ => true
  }

  ghost predicate InheritorsHaveRole(p: Policy, u: string, r: string) {
    forall s, o, a :: Inheritor(p, s, u) && NulFree(o) && NulFree(a) && Allowed(p, r, o, a) ==> Allowed(p, s, o, a)
  }

  ghost predicate InheritorsHavePermission(p: Policy, u: string, o: string, a: string) {
    forall s :: Inheritor(p, s, u) ==> Allowed(p, s, o, a)
  }

  ghost predicate IsUserMutation(call: Call) {
    call.AddRoleForUser? || call.RemoveRoleForUser? || call.AddPermissionForUser? || call.RemovePermissionForUser?
  }

  /** Sufficient for safety: nobody else inherits the user. */
  lemma UninheritedUserIsSafe(p: Policy, call: Call, user: string)
    requires IsUserMutation(call) && call.user == user && forall s :: !Inheritor(p, s, user)
    ensures Safe(p, call)
  {
    if call.RemoveRoleForUser? {
      var q := RemoveLink(p, user, call.role);
      forall s ensures !Inheritor(q, s, user) {
        if Reaches(q.links, s, user) { ReachesMonotone(q.links, p.links, s, user); }
        assert !Inheritor(p, s, user);
      }
    }
    if call.RemovePermissionForUser? {
      var q := RemoveRule(p, user, call.obj, call.act);
      assert forall s :: Inheritor(q, s, user) ==> Inheritor(p, s, user);
    }
  }

  /** A role granted to `u` changes no cacheable decision of anyone else exactly when the
      inheritors of `u` already have all the role gives. */
  lemma AddedRoleConcernsOthers(p: Policy, u: string, r: string)
    ensures InheritorsHaveRole(p, u, r) <==>
            forall s, o, a :: NulFreeRequest(s, o, a) && s != u ==>
              Allowed(AddLink(p, u, r), s, o, a) == Allowed(p, s, o, a)
  {
    forall s, o, a
      ensures Allowed(AddLink(p, u, r), s, o, a) <==>
              Allowed(p, s, o, a) || (Reaches(p.links, s, u) && Allowed(p, r, o, a))
    {
      AllowedAfterAddLink(p, u, r, s, o, a);
    }
  }

  lemma AddedPermissionConcernsOthers(p: Policy, u: string, o: string, a: string)
    requires NulFree(o) && NulFree(a)
    ensures InheritorsHavePermission(p, u, o, a) <==>
            forall s, o', a' :: NulFreeRequest(s, o', a') && s != u ==>
              Allowed(AddRule(p, u, o, a), s, o', a') == Allowed(p, s, o', a')
  {
    forall s, o', a'
      ensures Allowed(AddRule(p, u, o, a), s, o', a') <==>
              Allowed(p, s, o', a') || (Reaches(p.links, s, u) && Covers(Rule(u, o, a), o', a'))
    {
      AllowedAfterAddRule(p, u, o, a, s, o', a');
    }
    if InheritorsHavePermission(p, u, o, a) {
      forall s, o', a' | Inheritor(p, s, u) && Covers(Rule(u, o, a), o', a') ensures Allowed(p, s, o', a') {
        AllowedPatternCoversAll(p, s, Rule(u, o, a), o', a');
      }
    } else {
      var s :| Inheritor(p, s, u) && !Allowed(p, s, o, a);
      assert Covers(Rule(u, o, a), o, a);
      assert NulFreeRequest(s, o, a);
    }
  }

  ghost predicate ValidUserMutation(call: Call) {
    match call
    case AddRoleForUser(u, r, failed) => NulFree(u) && NulFree(r) && !failed
    case RemoveRoleForUser(u, r, failed) => NulFree(u) && NulFree(r) && !failed
    case AddPermissionForUser(u, o, a, failed) => NulFreeRequest(u, o, a) && !failed
    case RemovePermissionForUser(u, o, a, failed) => NulFreeRequest(u, o, a) && !failed
    case _ => false
  }

  ghost function PolicyAfter(p: Policy, call: Call): Policy {
    Step(0, State(p, []), call).0.policy
  }

  /** Safety of a call, in its four forms, is that no other subject's decision changes. */
  lemma SafeIffOthersUnchanged(p: Policy, call: Call)
    requires ValidUserMutation(call)
    ensures Safe(p, call) <==>
            forall s, o, a :: NulFreeRequest(s, o, a) && s != call.user ==>
              Allowed(PolicyAfter(p, call), s, o, a) == Allowed(p, s, o, a)
  {
    match call
    case AddRoleForUser(u, r, _) => AddedRoleConcernsOthers(p, u, r);
    case RemoveRoleForUser(u, r, _) =>
      var q := RemoveLink(p, u, r);
      AddedRoleConcernsOthers(q, u, r);
      if Link(u, r) in p.links { assert AddLink(q, u, r) == p; } else { assert q == p; }
    case AddPermissionForUser(u, o, a, _) => AddedPermissionConcernsOthers(p, u, o, a);
    case RemovePermissionForUser(u, o, a, _) =>
      var q := RemoveRule(p, u, o, a);
      AddedPermissionConcernsOthers(q, u, o, a);
      if Rule(u, o, a) in p.rules { assert AddRule(q, u, o, a) == p; } else { assert q == p; }
  }

  // ---------------------------------------------------------------- safety keeps coherence

  lemma DecideKeepsCoherent(capacity: nat, s: State, sub: string, obj: string, act: string, failed: bool)
    requires Coherent(s)
    ensures Coherent(Decide(capacity, s, sub, obj, act, failed).0)
  {
    var after := Decide(capacity, s, sub, obj, act, failed).0;
    if !Bypassed(capacity, sub, obj, act) {
      var key := CacheKey(sub, obj, act);
      forall s', o, a | NulFreeRequest(s', o, a) ensures CoherentAt(after, s', o, a) {
        assert CoherentAt(s, s', o, a);
        LookupAfterGet(s.cache, key, CacheKey(s', o, a));
        LookupAfterPut(capacity, s.cache, key, Allowed(s.policy, sub, obj, act), CacheKey(s', o, a));
        if CacheKey(s', o, a) == key { CacheKeyInjective(s', o, a, sub, obj, act); }
      }
    }
  }

  lemma UserMutationKeepsCoherent(capacity: nat, s: State, call: Call)
    requires capacity > 0 && Coherent(s) && ValidUserMutation(call) && Safe(s.policy, call)
    ensures Coherent(Step(capacity, s, call).0)
  {
    var after := Step(capacity, s, call).0;
    SafeIffOthersUnchanged(s.policy, call);
    forall sub, o, a | NulFreeRequest(sub, o, a) ensures CoherentAt(after, sub, o, a) {
      assert CoherentAt(s, sub, o, a);
      LookupAfterInvalidate(capacity, s.cache, call.user, sub, o, a);
    }
  }

  ghost predicate Bounded(capacity: nat, s: State) {
    |s.cache| <= capacity
  }

  lemma StepKeepsBounded(capacity: nat, s: State, call: Call)
    requires Bounded(capacity, s)
    ensures Bounded(capacity, Step(capacity, s, call).0)
  {
    if call.Enforce? && !Bypassed(capacity, call.sub, call.obj, call.act) {
      var key := CacheKey(call.sub, call.obj, call.act);
      PutKeyShape(capacity, s.cache, key, Allowed(s.policy, call.sub, call.obj, call.act));
      if Lookup(s.cache, key).Some? { GotKeyShape(capacity, s.cache, key); }
    }
  }

  lemma StepKeepsCoherent(capacity: nat, s: State, call: Call)
    requires Bounded(capacity, s) && Coherent(s) && Safe(s.policy, call)
    ensures Coherent(Step(capacity, s, call).0)
  {
    if call.Enforce? {
      DecideKeepsCoherent(capacity, s, call.sub, call.obj, call.act, call.failed);
    } else if capacity == 0 {
      StepKeepsBounded(capacity, s, call);
    } else if ValidUserMutation(call) {
      UserMutationKeepsCoherent(capacity, s, call);
    }
  }

  // ---------------------------------------------------------------- whole runs

  /** Every call of the run is safe for the policy in force when it is made. */
  ghost predicate SafeRun(p: Policy, calls: seq<Call>)
    decreases |calls|
  {
    calls == [] || (Safe(p, calls[0]) && SafeRun(PolicyAfter(p, calls[0]), calls[1..]))
  }

  ghost predicate NoEnforcerFailure(calls: seq<Call>) {
    forall i :: 0 <= i < |calls| && calls[i].Enforce? ==> !calls[i].failed
  }

  lemma PolicyIgnoresCache(capacity: nat, s: State, call: Call)
    ensures Step(capacity, s, call).0.policy == PolicyAfter(s.policy, call)
  {
  }

  lemma {:induction false} RunKeepsCoherent(capacity: nat, s: State, calls: seq<Call>)
    requires Bounded(capacity, s) && Coherent(s) && SafeRun(s.policy, calls)
    ensures Coherent(Run(capacity, s, calls))
    decreases |calls|
  {
    if calls == [] {
    } else {
      StepKeepsCoherent(capacity, s, calls[0]);
      StepKeepsBounded(capacity, s, calls[0]);
      PolicyIgnoresCache(capacity, s, calls[0]);
      RunKeepsCoherent(capacity, Step(capacity, s, calls[0]).0, calls[1..]);
    }
  }

  /** What Enforce answers from a coherent cache: nothing to a caller that has gone, the matcher's decision
      otherwise; an error of the enforcer shows unless the decision was cached, and changes nothing. */
  lemma EnforceAnswers(capacity: nat, s: State, sub: string, obj: string, act: string, cancelled: bool, failed: bool)
    requires Coherent(s)
    ensures var (after, reply) := Step(capacity, s, Enforce(sub, obj, act, cancelled, failed));
            && after.policy == s.policy
            && (cancelled ==> reply == Cancelled && after == s)
            && (!cancelled && !failed ==> reply == Decision(Allowed(s.policy, sub, obj, act)))
            && (!cancelled && failed ==>
                  || (reply == EnforcerError && after == s)
                  || (reply == Decision(Allowed(s.policy, sub, obj, act)) && capacity > 0
                      && NulFreeRequest(sub, obj, act) && Lookup(s.cache, CacheKey(sub, obj, act)).Some?))
  {
    if !Bypassed(capacity, sub, obj, act) { assert CoherentAt(s, sub, obj, act); }
  }

  /** After a safe call, Enforce answers by the policy that the call is meant to lead to. */
  lemma EnforceAfterCall(capacity: nat, s: State, call: Call, q: Policy, sub: string, obj: string, act: string)
    requires Bounded(capacity, s) && Coherent(s) && Safe(s.policy, call) && LeadsTo(s.policy, call, q)
    ensures Step(capacity, Step(capacity, s, call).0, Enforce(sub, obj, act, false, false)).1
         == Decision(Allowed(q, sub, obj, act))
  {
    StepKeepsCoherent(capacity, s, call);
    PolicyAfterIsMeant(s.policy, call, q);
    PolicyIgnoresCache(capacity, s, call);
    EnforceAnswers(capacity, Step(capacity, s, call).0, sub, obj, act, false, false);
  }

  /** What revoking a role from `u` takes away: before, a subject was allowed what it is still allowed and,
      if it still reaches `u`, what the role is still allowed. */
  lemma RevokedRole(p: Policy, q: Policy, u: string, r: string, sub: string, obj: string, act: string)
    requires Link(u, r) in p.links && LeadsTo(p, RemoveRoleForUser(u, r, false), q) && NulFree(u) && NulFree(r)
    ensures Link(u, r) !in q.links
    ensures Allowed(p, sub, obj, act) <==>
            Allowed(q, sub, obj, act) || (Reaches(q.links, sub, u) && Allowed(q, r, obj, act))
  {
    assert AddLink(q, u, r) == p;
    AllowedAfterAddLink(q, u, r, sub, obj, act);
  }

  /** A user whose only link is revoked keeps no more than the user's own rules. */
  lemma LastRoleRevoked(p: Policy, q: Policy, u: string, r: string, obj: string, act: string)
    requires LeadsTo(p, RemoveRoleForUser(u, r, false), q) && NulFree(u) && NulFree(r)
    requires forall role :: Link(u, role) in p.links ==> role == r
    ensures Allowed(q, u, obj, act) <==> exists rule :: rule in q.rules && rule.sub == u && Covers(rule, obj, act)
  {
    forall v ensures Reaches(q.links, u, v) <==> v == u {
      ReachesSelf(q.links, u);
      if Reaches(q.links, u, v) {
        var path :| PathBetween(q.links, path, u, v);
        if |path| > 1 {
          FirstLink(q.links, path);
          assert false;
        }
      }
    }
  }

  /** The memoising adapter answers like the one without a cache. */
  lemma StepAgreesUncached(capacity: nat, s: State, u: State, call: Call)
    requires Coherent(s) && u.policy == s.policy && u.cache == [] && (call.Enforce? ==> !call.failed)
    ensures Step(capacity, s, call).1 == Step(0, u, call).1
  {
    if call.Enforce? && !Bypassed(capacity, call.sub, call.obj, call.act) {
      assert CoherentAt(s, call.sub, call.obj, call.act);
    }
  }

  lemma {:induction false} CachedRunAgreesUncached(capacity: nat, s: State, calls: seq<Call>)
    requires Bounded(capacity, s) && Coherent(s) && SafeRun(s.policy, calls) && NoEnforcerFailure(calls)
    ensures Replies(capacity, s, calls) == Replies(0, State(s.policy, []), calls)
    decreases |calls|
  {
    if calls == [] {
    } else {
      var u := State(s.policy, []);
      StepAgreesUncached(capacity, s, u, calls[0]);
      StepKeepsCoherent(capacity, s, calls[0]);
      StepKeepsBounded(capacity, s, calls[0]);
      StepKeepsBounded(0, u, calls[0]);
      PolicyIgnoresCache(capacity, s, calls[0]);
      CachedRunAgreesUncached(capacity, Step(capacity, s, calls[0]).0, calls[1..]);
    }
  }

  // ---------------------------------------------------------------- safety is necessary

  /** Ask, mutate, ask again. */
  function Probe(s: string, o: string, a: string, call: Call): seq<Call> {
    [Enforce(s, o, a, false, false), call, Enforce(s, o, a, false, false)]
  }

  ghost predicate StaleAnswer(capacity: nat, p: Policy, s: string, o: string, a: string, call: Call) {
    Replies(capacity, State(p, []), Probe(s, o, a, call))[2] == Decision(!Allowed(PolicyAfter(p, call), s, o, a))
  }

  lemma {:induction false} ProbeUnfolds(capacity: nat, p: Policy, s: string, o: string, a: string, call: Call)
    requires capacity > 0 && NulFreeRequest(s, o, a) && ValidUserMutation(call) && s != call.user
    ensures Replies(capacity, State(p, []), Probe(s, o, a, call))[2] == Decision(Allowed(p, s, o, a))
  {
    var key, v := CacheKey(s, o, a), Allowed(p, s, o, a);
    var asked := State(p, [Entry(key, v)]);
    var probe := Probe(s, o, a, call);
    assert Step(capacity, State(p, []), probe[0]).0 == asked;
    var mutated := Step(capacity, asked, call).0;
    LookupAfterInvalidate(capacity, asked.cache, call.user, s, o, a);
    assert Lookup(mutated.cache, key) == Some(v);
    assert probe[1..][0] == call && probe[1..][1..][0] == probe[2];
    assert Step(capacity, mutated, probe[2]).1 == Decision(v);
    assert probe[1..][1..][1..] == [];
    assert Replies(capacity, mutated, probe[1..][1..]) == [Decision(v)];
  }

  /** The exact condition. A call that is safe keeps every coherent cache coherent; for a call that is
      not, some request asked just before and just after it gets a wrong second answer. */
  lemma SafetyIsExact(capacity: nat, p: Policy, call: Call)
    requires capacity > 0
    ensures Safe(p, call) <==>
            forall s, o, a :: NulFreeRequest(s, o, a) ==> !StaleAnswer(capacity, p, s, o, a, call)
  {
    if Safe(p, call) {
      forall s, o, a | NulFreeRequest(s, o, a) ensures !StaleAnswer(capacity, p, s, o, a, call) {
        SafeProbeAgrees(capacity, p, s, o, a, call);
      }
    } else {
      SafeIffOthersUnchanged(p, call);
      var s, o, a :| NulFreeRequest(s, o, a) && s != call.user
                     && Allowed(PolicyAfter(p, call), s, o, a) != Allowed(p, s, o, a);
      ProbeUnfolds(capacity, p, s, o, a, call);
      assert StaleAnswer(capacity, p, s, o, a, call);
    }
  }

  lemma SafeProbeAgrees(capacity: nat, p: Policy, s: string, o: string, a: string, call: Call)
    requires Safe(p, call)
    ensures !StaleAnswer(capacity, p, s, o, a, call)
  {
    var s0 := State(p, []);
    var probe := Probe(s, o, a, call);
    var s1 := Step(capacity, s0, probe[0]).0;
    StepKeepsCoherent(capacity, s0, probe[0]);
    StepKeepsBounded(capacity, s0, probe[0]);
    var s2 := Step(capacity, s1, call).0;
    StepKeepsCoherent(capacity, s1, call);
    PolicyIgnoresCache(capacity, s1, call);
    StepAgreesUncached(capacity, s2, State(s2.policy, []), probe[2]);
    assert probe[1..][0] == call && probe[1..][1..][0] == probe[2];
    assert Replies(capacity, s2, probe[1..][1..])[0] == Decision(Allowed(s2.policy, s, o, a));
    assert Replies(capacity, s0, probe)[2] == Decision(Allowed(PolicyAfter(p, call), s, o, a));
  }

  /** A concrete stale answer: granting a permission directly to a role that a user inherits. */
  lemma DirectGrantToInheritedRoleIsStale()
    ensures var p := Policy({}, {Link("alice", "editor")});
            StaleAnswer(1, p, "alice", "doc", "read", AddPermissionForUser("editor", "doc", "read", false))
  {
    var p := Policy({}, {Link("alice", "editor")});
    var call := AddPermissionForUser("editor", "doc", "read", false);
    assert PathBetween(p.links, ["alice", "editor"], "alice", "editor");
    AllowedAfterAddRule(p, "editor", "doc", "read", "alice", "doc", "read");
    ProbeUnfolds(1, p, "alice", "doc", "read", call);
  }

  // ---------------------------------------------------------------- inclusion over runs

  lemma StepKeepsInclusion(c: nat, small: State, C: nat, big: State, call: Call)
    requires c <= C && Bounded(c, small) && Bounded(C, big) && (call.Enforce? ==> !call.failed)
    requires small.policy == big.policy && KeyPrefix(small.cache, big.cache)
    ensures KeyPrefix(Step(c, small, call).0.cache, Step(C, big, call).0.cache)
  {
    if call.Enforce? {
      var v := Allowed(small.policy, call.sub, call.obj, call.act);
      TouchKeepsInclusion(c, small.cache, v, C, big.cache, v, call.sub, call.obj, call.act);
    } else if IsUserMutation(call) {
      WithoutPrefixKeepsKeyPrefix(small.cache, big.cache, SubjectPrefix(call.user));
    }
  }

  /** On the same calls the smaller cache always holds a prefix of the larger one's recency list,
      so each of its hits is a hit of the larger, policy changes and invalidations included. */
  lemma {:induction false} SmallerCacheIsIncluded(c: nat, small: State, C: nat, big: State, calls: seq<Call>)
    requires c <= C && Bounded(c, small) && Bounded(C, big) && NoEnforcerFailure(calls)
    requires small.policy == big.policy && KeyPrefix(small.cache, big.cache)
    ensures var (s, b) := (Run(c, small, calls), Run(C, big, calls));
            && KeyPrefix(s.cache, b.cache)
            && forall key :: Lookup(s.cache, key).Some? ==> Lookup(b.cache, key).Some?
    decreases |calls|
  {
    if calls == [] {
      forall key | Lookup(small.cache, key).Some? ensures Lookup(big.cache, key).Some? {
        LookupUnderKeyPrefix(small.cache, big.cache, key);
      }
    } else {
      StepKeepsInclusion(c, small, C, big, calls[0]);
      StepKeepsBounded(c, small, calls[0]);
      StepKeepsBounded(C, big, calls[0]);
      SmallerCacheIsIncluded(c, Step(c, small, calls[0]).0, C, Step(C, big, calls[0]).0, calls[1..]);
    }
  }

  // ---------------------------------------------------------------- the adapter object

  class Adapter {
    var policy: Policy
    const cache: Cache

    ghost predicate Valid()
      reads this, cache
    {
      cache.Valid()
    }

    ghost function View(): State
      reads this, cache, cache.order
    {
      State(policy, cache.Contents())
    }

    /** The configured size 0 stands for ten thousand entries, a negative one for no cache. */
    constructor (loaded: Policy, decisionCacheSize: int)
      ensures Valid() && fresh(cache) && View() == State(loaded, [])
      ensures decisionCacheSize < 0 ==> cache.maxSize == 0
      ensures decisionCacheSize == 0 ==> cache.maxSize == 10000
      ensures decisionCacheSize > 0 ==> cache.maxSize == decisionCacheSize
    {
      var cacheSize := decisionCacheSize;
      if cacheSize == 0 {
        cacheSize := 10000;
      } else if cacheSize < 0 {
        cacheSize := 0;
      }
      policy := loaded;
      cache := new Cache(cacheSize);
    }

    /** `answer` is what the enforcer would return for the current policy, None being its error. */
    method Enforce(sub: string, obj: string, act: string, cancelled: bool, answer: Option<bool>) returns (reply: Reply)
      requires Valid() && (answer.Some? ==> answer.value == Allowed(policy, sub, obj, act))
      modifies cache, cache.order
      ensures Valid() && (forall e :: e in cache.order ==> e in old(cache.order) || fresh(e))
      ensures (View(), reply) == Step(cache.maxSize, old(View()), Call.Enforce(sub, obj, act, cancelled, answer.None?))
    {
      if cancelled {
        return Cancelled;
      }
      var hit, ok := cache.Get(sub, obj, act);
      if ok {
        return Decision(hit);
      }
      if answer.None? {
        return EnforcerError;
      }
      cache.Put(sub, obj, act, answer.value);
      return Decision(answer.value);
    }

    method AddRoleForUser(user: string, role: string, failed: bool) returns (reply: Reply)
      requires Valid()
      modifies this, cache
      ensures Valid() && (forall e :: e in cache.order ==> e in old(cache.order))
      ensures (View(), reply) == Step(cache.maxSize, old(View()), Call.AddRoleForUser(user, role, failed))
    {
      if !(NulFree(user) && NulFree(role)) {
        return InvalidArg;
      }
      if failed {
        return EnforcerError;
      }
      policy := AddLink(policy, user, role);
      cache.InvalidateSub(user);
      return Ok;
    }

    method RemoveRoleForUser(user: string, role: string, failed: bool) returns (reply: Reply)
      requires Valid()
      modifies this, cache
      ensures Valid() && (forall e :: e in cache.order ==> e in old(cache.order))
      ensures (View(), reply) == Step(cache.maxSize, old(View()), Call.RemoveRoleForUser(user, role, failed))
    {
      if !(NulFree(user) && NulFree(role)) {
        return InvalidArg;
      }
      if failed {
        return EnforcerError;
      }
      policy := RemoveLink(policy, user, role);
      cache.InvalidateSub(user);
      return Ok;
    }

    method AddPermissionForRole(role: string, obj: string, act: string, failed: bool) returns (reply: Reply)
      requires Valid()
      modifies this, cache
      ensures Valid() && (forall e :: e in cache.order ==> e in old(cache.order))
      ensures (View(), reply) == Step(cache.maxSize, old(View()), Call.AddPermissionForRole(role, obj, act, failed))
    {
      if !(NulFreeRequest(role, obj, act)) {
        return InvalidArg;
      }
      if failed {
        return EnforcerError;
      }
      policy := AddRule(policy, role, obj, act);
      cache.Flush();
      return Ok;
    }

    method RemovePermissionForRole(role: string, obj: string, act: string, failed: bool) returns (reply: Reply)
      requires Valid()
      modifies this, cache
      ensures Valid() && (forall e :: e in cache.order ==> e in old(cache.order))
      ensures (View(), reply) == Step(cache.maxSize, old(View()), Call.RemovePermissionForRole(role, obj, act, failed))
    {
      if !(NulFreeRequest(role, obj, act)) {
        return InvalidArg;
      }
      if failed {
        return EnforcerError;
      }
      policy := RemoveRule(policy, role, obj, act);
      cache.Flush();
      return Ok;
    }

    method AddPermissionForUser(user: string, obj: string, act: string, failed: bool) returns (reply: Reply)
      requires Valid()
      modifies this, cache
      ensures Valid() && (forall e :: e in cache.order ==> e in old(cache.order))
      ensures (View(), reply) == Step(cache.maxSize, old(View()), Call.AddPermissionForUser(user, obj, act, failed))
    {
      if !(NulFreeRequest(user, obj, act)) {
        return InvalidArg;
      }
      if failed {
        return EnforcerError;
      }
      policy := AddRule(policy, user, obj, act);
      cache.InvalidateSub(user);
      return Ok;
    }

    method RemovePermissionForUser(user: string, obj: string, act: string, failed: bool) returns (reply: Reply)
      requires Valid()
      modifies this, cache
      ensures Valid() && (forall e :: e in cache.order ==> e in old(cache.order))
      ensures (View(), reply) == Step(cache.maxSize, old(View()), Call.RemovePermissionForUser(user, obj, act, failed))
    {
      if !(NulFreeRequest(user, obj, act)) {
        return InvalidArg;
      }
      if failed {
        return EnforcerError;
      }
      policy := RemoveRule(policy, user, obj, act);
      cache.InvalidateSub(user);
      return Ok;
    }

    method LoadPolicy(stored: Policy, failed: bool) returns (reply: Reply)
      requires Valid()
      modifies this, cache
      ensures Valid() && (forall e :: e in cache.order ==> e in old(cache.order))
      ensures (View(), reply) == Step(cache.maxSize, old(View()), Call.LoadPolicy(stored, failed))
    {
      if failed {
        return EnforcerError;
      }
      policy := stored;
      cache.Flush();
      return Ok;
    }

    /** The watcher callback: an update that is applied, whatever it makes of the policy, or a full
        reload, which may fail. */
    method ApplyUpdate(updated: Policy, isReload: bool, failed: bool) returns (reply: Reply)
      requires Valid()
      modifies this, cache
      ensures Valid() && (forall e :: e in cache.order ==> e in old(cache.order))
      ensures (View(), reply) == Step(cache.maxSize, old(View()), WatcherUpdate(updated, isReload && failed))
    {
      if isReload {
        var _ := LoadPolicy(updated, failed);
      } else {
        policy := updated;
        cache.Flush();
      }
      return Ok;
    }
  }
}
