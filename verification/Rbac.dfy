/** The policy held by the Casbin enforcer and the matcher of the default RBAC model: a request is
    allowed when some rule's subject is inherited by the requester and the rule's object and action,
    either of which may be the wildcard, cover the request. Inheritance is reflexive reachability over
    the grouping links, which may form cycles. */
module Rbac {

  datatype Rule = Rule(sub: string, obj: string, act: string)
  datatype Link = Link(member: string, role: string)
  datatype Policy = Policy(rules: set<Rule>, links: set<Link>)

  const ANY: string := "*"

  /** `path` follows grouping links, each node being a member of the next one. */
  ghost predicate IsPath(links: set<Link>, path: seq<string>) {
    && |path| > 0
    && forall i :: 0 <= i < |path| - 1 ==> Link(path[i], path[i + 1]) in links
  }

  ghost predicate PathBetween(links: set<Link>, path: seq<string>, a: string, b: string) {
    IsPath(links, path) && path[0] == a && path[|path| - 1] == b
  }

  /** Casbin's `g(a, b)`. */
  ghost predicate Reaches(links: set<Link>, a: string, b: string) {
    exists path :: PathBetween(links, path, a, b)
  }

  predicate Covers(rule: Rule, obj: string, act: string) {
    (rule.obj == ANY || obj == rule.obj) && (rule.act == ANY || act == rule.act)
  }

  /** The uncached decision: some rule of a subject that `sub` inherits covers the request. */
  ghost predicate Allowed(p: Policy, sub: string, obj: string, act: string) {
    exists rule :: rule in p.rules && Reaches(p.links, sub, rule.sub) && Covers(rule, obj, act)
  }

  function AddLink(p: Policy, member: string, role: string): Policy {
    p.(links := p.links + {Link(member, role)})
  }

  function RemoveLink(p: Policy, member: string, role: string): Policy {
    p.(links := p.links - {Link(member, role)})
  }

  function AddRule(p: Policy, sub: string, obj: string, act: string): Policy {
    p.(rules := p.rules + {Rule(sub, obj, act)})
  }

  function RemoveRule(p: Policy, sub: string, obj: string, act: string): Policy {
    p.(rules := p.rules - {Rule(sub, obj, act)})
  }

  lemma FirstLink(links: set<Link>, path: seq<string>)
    requires IsPath(links, path) && |path| > 1
    ensures Link(path[0], path[1]) in links
  {
  }

  lemma ReachesSelf(links: set<Link>, a: string)
    ensures Reaches(links, a, a)
  {
    assert PathBetween(links, [a], a, a);
  }

  lemma ReachesStep(links: set<Link>, a: string, b: string, c: string)
    requires Link(a, b) in links && Reaches(links, b, c)
    ensures Reaches(links, a, c)
  {
    var path :| PathBetween(links, path, b, c);
    var longer := [a] + path;
    forall i | 0 <= i < |longer| - 1
      ensures Link(longer[i], longer[i + 1]) in links
    {
      if i > 0 { assert Link(path[i - 1], path[i]) in links; }
    }
    assert PathBetween(links, longer, a, c);
  }

  lemma {:induction false} PathTransitive(links: set<Link>, path: seq<string>, a: string, b: string, c: string)
    requires PathBetween(links, path, a, b) && Reaches(links, b, c)
    ensures Reaches(links, a, c)
    decreases |path|
  {
    if |path| == 1 {
    } else {
      assert Link(path[0], path[1]) in links;
      assert PathBetween(links, path[1..], path[1], b);
      PathTransitive(links, path[1..], path[1], b, c);
      ReachesStep(links, a, path[1], c);
    }
  }

  lemma ReachesTransitive(links: set<Link>, a: string, b: string, c: string)
    requires Reaches(links, a, b) && Reaches(links, b, c)
    ensures Reaches(links, a, c)
  {
    var path :| PathBetween(links, path, a, b);
    PathTransitive(links, path, a, b, c);
  }

  lemma ReachesMonotone(links: set<Link>, more: set<Link>, a: string, b: string)
    requires links <= more && Reaches(links, a, b)
    ensures Reaches(more, a, b)
  {
    var path :| PathBetween(links, path, a, b);
    assert PathBetween(more, path, a, b);
  }

  /** A path that may use the new link `u -> r` splits at it: either it never needs the link,
      or its start reaches `u` and `r` reaches its end, both over the old links. */
  lemma {:induction false} PathSplitsAtLink(links: set<Link>, u: string, r: string, path: seq<string>, a: string,
                                            b: string)
    requires PathBetween(links + {Link(u, r)}, path, a, b)
    ensures Reaches(links, a, b) || (Reaches(links, a, u) && Reaches(links, r, b))
    decreases |path|
  {
    if |path| == 1 {
      ReachesSelf(links, a);
    } else {
      var next := path[1];
      assert Link(path[0], path[1]) in links + {Link(u, r)};
      assert PathBetween(links + {Link(u, r)}, path[1..], next, b);
      PathSplitsAtLink(links, u, r, path[1..], next, b);
      if Link(a, next) in links {
        if Reaches(links, next, b) { ReachesStep(links, a, next, b); }
        else { ReachesStep(links, a, next, u); }
      } else {
        ReachesSelf(links, u);
      }
    }
  }

  /** Exactly what one more grouping link adds to reachability, cycles included. */
  lemma ReachesAfterAddLink(links: set<Link>, u: string, r: string, a: string, b: string)
    ensures Reaches(links + {Link(u, r)}, a, b)
       <==> Reaches(links, a, b) || (Reaches(links, a, u) && Reaches(links, r, b))
  {
    var more := links + {Link(u, r)};
    if Reaches(more, a, b) {
      var path :| PathBetween(more, path, a, b);
      PathSplitsAtLink(links, u, r, path, a, b);
    }
    if Reaches(links, a, b) {
      ReachesMonotone(links, more, a, b);
    }
    if Reaches(links, a, u) && Reaches(links, r, b) {
      ReachesMonotone(links, more, a, u);
      ReachesMonotone(links, more, r, b);
      ReachesStep(more, u, r, b);
      ReachesTransitive(more, a, u, b);
    }
  }

  /** A grouping link out of `u` changes only decisions of subjects that reach `u`, and gives
      them exactly the decisions of the role. */
  lemma AllowedAfterAddLink(p: Policy, u: string, r: string, sub: string, obj: string, act: string)
    ensures Allowed(AddLink(p, u, r), sub, obj, act)
       <==> Allowed(p, sub, obj, act) || (Reaches(p.links, sub, u) && Allowed(p, r, obj, act))
  {
    forall rule | rule in p.rules
      ensures Reaches(AddLink(p, u, r).links, sub, rule.sub)
         <==> Reaches(p.links, sub, rule.sub) || (Reaches(p.links, sub, u) && Reaches(p.links, r, rule.sub))
    {
      ReachesAfterAddLink(p.links, u, r, sub, rule.sub);
    }
  }

  /** A rule on `u` changes only decisions of subjects that reach `u`, on requests it covers. */
  lemma AllowedAfterAddRule(p: Policy, u: string, ruleObj: string, ruleAct: string, sub: string, obj: string,
                            act: string)
    ensures Allowed(AddRule(p, u, ruleObj, ruleAct), sub, obj, act)
       <==> Allowed(p, sub, obj, act) || (Reaches(p.links, sub, u) && Covers(Rule(u, ruleObj, ruleAct), obj, act))
  {
    var after := AddRule(p, u, ruleObj, ruleAct);
    assert Rule(u, ruleObj, ruleAct) in after.rules;
    assert forall rule :: rule in p.rules ==> rule in after.rules;
  }

  /** Being allowed the pattern of a rule, wildcards taken literally, is being allowed
      everything the rule covers. */
  lemma AllowedPatternCoversAll(p: Policy, sub: string, rule: Rule, obj: string, act: string)
    requires Allowed(p, sub, rule.obj, rule.act) && Covers(rule, obj, act)
    ensures Allowed(p, sub, obj, act)
  {
    var wider :| wider in p.rules && Reaches(p.links, sub, wider.sub) && Covers(wider, rule.obj, rule.act);
    assert Covers(wider, obj, act);
  }
}
