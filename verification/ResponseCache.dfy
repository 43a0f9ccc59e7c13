/** The response cache for GET requests: internal/api_response_cache.go. */
module ResponseCache {
  // ---------------------------------------------------------------- the time-to-live rules

  datatype Rule = Rule(prefix: string, ttl: nat)

  const RULES: seq<Rule> := [
    Rule("/api/k8s/summary", 18),
    Rule("/api/k8s/nodes", 22),
    Rule("/api/k8s/rbac", 60),
    Rule("/api/k8s/namespace-stats", 35),
    Rule("/api/k8s/namespaces/stats", 35),
    Rule("/api/k8s/pod-restarts", 28),
    Rule("/api/k8s/pod-restart-insights", 35),
    Rule("/api/k8s/pods/resource-efficiency", 45),
    Rule("/api/k8s/workloads/resource-advisory", 50),
    Rule("/api/k8s/pods/metrics", 55),
    Rule("/api/k8s/addons/status", 90),
    Rule("/api/runtime/status", 12),
    Rule("/api/system/check", 20),
    Rule("/api/harbor/status", 25),
    Rule("/api/harbor/statistics", 40),
    Rule("/api/ingresses", 30),
    Rule("/api/services", 35),
    Rule("/api/status", 25)]

  predicate Matches(path: string, r: Rule) {
    r.prefix <= path
  }

  /** The seconds of the first rule from position k on that matches, or 0. */
  function TtlFrom(path: string, rules: seq<Rule>, k: nat): nat
    requires k <= |rules|
    decreases |rules| - k
  {
    if k == |rules| then 0
    else if Matches(path, rules[k]) then rules[k].ttl
    else TtlFrom(path, rules, k + 1)
  }

  function Ttl(path: string): nat {
    TtlFrom(path, RULES, 0)
  }

  function At(s: string, i: nat): char {
    if i < |s| then s[i] else '\0'
  }

  /** A decision tree on a few characters of a path that names the only rule that can match it. */
  function Slot(p: string): nat {
    if At(p, 5) == 'k' then
      if At(p, 9) == 's' then 0
      else if At(p, 9) == 'n' then (if At(p, 10) == 'o' then 1 else if At(p, 18) == '-' then 3 else 4)
      else if At(p, 9) == 'r' then 2
      else if At(p, 9) == 'p' then
        if At(p, 12) == '-' then (if At(p, 20) == 's' then 5 else 6) else (if At(p, 14) == 'r' then 7 else 9)
      else if At(p, 9) == 'w' then 8 else 10
    else if At(p, 5) == 'r' then 11
    else if At(p, 5) == 'h' then (if At(p, 16) == 'u' then 13 else 14)
    else if At(p, 5) == 'i' then 15
    else if At(p, 6) == 'y' then 12
    else if At(p, 6) == 'e' then 16 else 17
  }

  lemma PrefixAt(prefix: string, path: string, i: nat)
    requires prefix <= path && i < |prefix|
    ensures At(path, i) == prefix[i]
  {
  }

  lemma SlotOfEarlyRule(path: string, i: nat)
    requires i < 5 && Matches(path, RULES[i])
    ensures Slot(path) == i
  {
    var q := RULES[i].prefix;
    assert |q| >= 13;
    PrefixAt(q, path, 5);
    PrefixAt(q, path, 9);
    PrefixAt(q, path, 10);
    if |q| > 18 { PrefixAt(q, path, 18); }
  }

  lemma SlotOfPodRule(path: string, i: nat)
    requires i in {5, 6, 7, 9} && Matches(path, RULES[i])
    ensures Slot(path) == i
  {
    var q := RULES[i].prefix;
    assert |q| >= 20 && q[9] == 'p';
    PrefixAt(q, path, 5);
    PrefixAt(q, path, 9);
    PrefixAt(q, path, 12);
    PrefixAt(q, path, 14);
    if |q| > 20 { PrefixAt(q, path, 20); }
  }

  lemma SlotOfLateRule(path: string, i: nat)
    requires i in {8, 10} && Matches(path, RULES[i])
    ensures Slot(path) == i
  {
    var q := RULES[i].prefix;
    assert |q| >= 20;
    PrefixAt(q, path, 5);
    PrefixAt(q, path, 9);
  }

  lemma SlotOfOtherRule(path: string, i: nat)
    requires 11 <= i < |RULES| && Matches(path, RULES[i])
    ensures Slot(path) == i
  {
    var q := RULES[i].prefix;
    assert |q| >= 11;
    PrefixAt(q, path, 5);
    PrefixAt(q, path, 6);
    if |q| > 16 { PrefixAt(q, path, 16); }
  }

  lemma SlotOfRule(path: string, i: nat)
    requires i < |RULES| && Matches(path, RULES[i])
    ensures Slot(path) == i
  {
    if i < 5 {
      SlotOfEarlyRule(path, i);
    } else if i in {8, 10} {
      SlotOfLateRule(path, i);
    } else if i < 11 {
      SlotOfPodRule(path, i);
    } else {
      SlotOfOtherRule(path, i);
    }
  }

  /** No two rules match the same path. */
  lemma RulesAreDisjoint(path: string, i: nat, j: nat)
    requires i < |RULES| && j < |RULES| && Matches(path, RULES[i]) && Matches(path, RULES[j])
    ensures i == j
  {
    SlotOfRule(path, i);
    SlotOfRule(path, j);
  }

  lemma {:induction false} FirstMatch(path: string, rules: seq<Rule>, k: nat)
    requires k <= |rules|
    ensures || (TtlFrom(path, rules, k) == 0 && forall i :: k <= i < |rules| ==> !Matches(path, rules[i]))
            || (exists i :: k <= i < |rules| && Matches(path, rules[i]) && TtlFrom(path, rules, k) == rules[i].ttl)
    decreases |rules| - k
  {
    if k < |rules| && !Matches(path, rules[k]) {
      FirstMatch(path, rules, k + 1);
    }
  }

  /** A path below the prefix of rule i is kept for that rule's time, and one below no prefix is not
      cached. */
  lemma TtlMeans(path: string, i: nat)
    ensures i < |RULES| && RULES[i].prefix <= path ==> Ttl(path) == RULES[i].ttl > 0
    ensures (forall k :: 0 <= k < |RULES| ==> !(RULES[k].prefix <= path)) ==> Ttl(path) == 0
  {
    hide RULES, TtlFrom;
    FirstMatch(path, RULES, 0);
    TtlsArePositive();
    if i < |RULES| && Matches(path, RULES[i]) {
      forall k | 0 <= k < |RULES| && Matches(path, RULES[k]) ensures k == i {
        RulesAreDisjoint(path, k, i);
      }
    }
  }

  lemma TtlsArePositive()
    ensures forall i :: 0 <= i < |RULES| ==> RULES[i].ttl > 0
  {
  }

  lemma SameMembers(a: seq<Rule>, b: seq<Rule>, i: nat) returns (j: nat)
    requires multiset(a) == multiset(b) && i < |a|
    ensures j < |b| && b[j] == a[i]
  {
    assert a[i] in multiset(b);
    j :| j < |b| && b[j] == a[i];
  }

  /** At most one rule of the list matches the path. */
  predicate Disjoint(path: string, rules: seq<Rule>) {
    forall i, j :: 0 <= i < |rules| && 0 <= j < |rules| && Matches(path, rules[i]) && Matches(path, rules[j]) ==> i == j
  }

  lemma DisjointOrder(path: string, a: seq<Rule>, b: seq<Rule>)
    requires multiset(a) == multiset(b) && Disjoint(path, b)
    ensures TtlFrom(path, a, 0) == TtlFrom(path, b, 0)
  {
    FirstMatch(path, a, 0);
    FirstMatch(path, b, 0);
    hide TtlFrom, Matches;
    if i: nat :| i < |a| && Matches(path, a[i]) && TtlFrom(path, a, 0) == a[i].ttl {
      var k := SameMembers(a, b, i);
      assert Matches(path, b[k]);
    } else {
      forall k | 0 <= k < |b| ensures !Matches(path, b[k]) {
        var i := SameMembers(b, a, k);
      }
    }
  }

  /** The order of the rules does not matter: any arrangement of them gives every path the same
      time to live. */
  lemma RuleOrderIrrelevant(path: string, rules: seq<Rule>)
    requires multiset(rules) == multiset(RULES)
    ensures TtlFrom(path, rules, 0) == Ttl(path)
  {
    assert Disjoint(path, RULES) by {
      forall i, j | 0 <= i < |RULES| && 0 <= j < |RULES| && Matches(path, RULES[i]) && Matches(path, RULES[j])
        ensures i == j
      {
        RulesAreDisjoint(path, i, j);
      }
    }
    DisjointOrder(path, rules, RULES);
  }
}
