/** Deterministic policy evaluation (policies/engine.py), over detector and semantic results taken as given. */
module PolicyEngine {
  import opened Domain
  import opened Ordering

  datatype Kind =
    | Fact | UserPreference | ProjectConvention | OperationalInstruction | ToolObservation
    | TaskSummary | IdentityAssertion | PolicyStatement | CredentialMaterial | UnknownKind

  datatype Sensitivity = Public | Internal | Sensitive | Restricted | Credential

  datatype Severity = Info | Low | Medium | High | Critical

  /** What evaluation reads of a memory candidate. */
  datatype Subject = Subject(
    kind: Kind, namespace: string, source: Source, sensitivity: Sensitivity, persistenceRequested: bool)

  /** What evaluation reads of a detector result; only a successful one says whether it matched. */
  datatype Finding = Finding(
    resultId: string, detectorId: string, detectorVersion: string, ok: bool, matched: bool,
    severity: Severity, categories: seq<string>)

  /** What evaluation reads of a semantic assessment. */
  datatype Semantic = Semantic(
    assessmentId: Id, providerFailed: bool, failureClass: Option<string>, riskScore: Option<real>, categories: seq<string>)

  datatype RuleMatch = RuleMatch(
    sourceClasses: Option<seq<Source>>, namespacePatterns: Option<seq<string>>, memoryKinds: Option<seq<Kind>>,
    sensitivities: Option<seq<Sensitivity>>, detectorCategoriesAny: Option<seq<string>>,
    minimumDetectorSeverity: Option<Severity>, semanticCategoriesAny: Option<seq<string>>,
    minimumSemanticRisk: Option<real>, persistenceRequested: Option<bool>, semanticRequired: Option<bool>)

  datatype Rule = Rule(
    ruleId: string, priority: nat, conditions: RuleMatch, action: Action, manualReview: bool, ttlSeconds: Option<nat>)

  datatype FailureBehavior = FailureBehavior(
    detectorHighRisk: Action, detectorLowerRisk: Action, timeoutHighRisk: Action, timeoutLowerRisk: Action,
    invalidHighRisk: Action, invalidLowerRisk: Action)

  datatype Policy = Policy(
    policy: PolicyRef, shadow: bool, defaultAction: Action, shadowAction: Action,
    protectedNamespaces: seq<string>, rules: seq<Rule>, failure: FailureBehavior, defaultTtl: Option<nat>)

  /** A decision with its time to live, without its identity, its time and the policy digest. */
  datatype Evaluation = Evaluation(
    policy: PolicyRef, matchedRule: Option<string>, actual: Action, would: Action, shadow: bool,
    reasons: seq<string>, resultIds: seq<string>, assessmentId: Option<Id>, ttlSeconds: Option<nat>, manualReview: bool)

  /* ---------- What a policy document must satisfy ---------- */

  predicate UniqueRuleIds(rules: seq<Rule>) {
    forall i, j :: 0 <= i < j < |rules| ==> rules[i].ruleId != rules[j].ruleId
  }

  predicate Holding(a: Action) {
    a == Quarantine || a == Block
  }

  predicate Validated(p: Policy) {
    && UniqueRuleIds(p.rules) && p.rules != [] && !Holding(p.shadowAction)
    && Holding(p.failure.detectorHighRisk) && Holding(p.failure.timeoutHighRisk) && Holding(p.failure.invalidHighRisk)
  }

  /* ---------- Guards and failures ---------- */

  /** A namespace pattern, where a star stands for any text. */
  predicate NamespaceMatches(name: string, pattern: string)
    decreases |name| + |pattern|
  {
    if pattern == "" then name == ""
    else if pattern[0] == '*' then
      NamespaceMatches(name, pattern[1..]) || (name != "" && NamespaceMatches(name[1..], pattern))
    else name != "" && name[0] == pattern[0] && NamespaceMatches(name[1..], pattern[1..])
  }

  predicate SuccessfulSemantic(s: Option<Semantic>) {
    s.Some? && !s.value.providerFailed && s.value.failureClass.None? && s.value.riskScore.Some?
  }

  predicate Positive(f: Finding) {
    f.ok && f.matched
  }

  function Categories(findings: seq<Finding>): set<string> {
    set f, c | f in findings && Positive(f) && c in f.categories :: c
  }

  function Rank(s: Severity): nat {
    match s
    case Info => 0 case Low => 1 case Medium => 2 case High => 3 case Critical => 4
  }

  /** The highest severity among positive findings, or -1. */
  function Highest(findings: seq<Finding>): int {
    if findings == [] then -1
    else
      var rest := Highest(findings[1..]);
      if Positive(findings[0]) && Rank(findings[0].severity) > rest then Rank(findings[0].severity) else rest
  }

  function TopNamespace(name: string): string {
    if name == "" || name[0] == '.' then "" else [name[0]] + TopNamespace(name[1..])
  }

  predicate HighRisk(c: Subject) {
    || c.kind in {OperationalInstruction, PolicyStatement, CredentialMaterial, UnknownKind}
    || TopNamespace(c.namespace) in {"instructions", "policies", "credentials"}
    || (c.source in {ToolOutput, AgentOutput, PriorMemory} && c.persistenceRequested)
  }

  function HardGuard(p: Policy, c: Subject, findings: seq<Finding>): Option<string> {
    if "structural_invalidity" in Categories(findings) then Some("hard_guard.structural_invalidity")
    else if c.kind == CredentialMaterial || c.sensitivity == Credential || "credential_material" in Categories(findings) then
      Some("hard_guard.credential_material")
    else if exists pattern <- p.protectedNamespaces :: NamespaceMatches(c.namespace, pattern) then
      Some("hard_guard.protected_namespace")
    else None
  }

  function FailureAction(p: Policy, c: Subject, findings: seq<Finding>, s: Option<Semantic>): Option<(Action, string)> {
    if exists f <- findings :: !f.ok then
      if HighRisk(c) then Some((p.failure.detectorHighRisk, "failure.detector.high_risk"))
      else Some((p.failure.detectorLowerRisk, "failure.detector.lower_risk"))
    else if s.None? || s.value.failureClass.None? then None
    else if s.value.failureClass.value == "timeout" then
      if HighRisk(c) then Some((p.failure.timeoutHighRisk, "failure.semantic_timeout.high_risk"))
      else Some((p.failure.timeoutLowerRisk, "failure.semantic_timeout.lower_risk"))
    else if HighRisk(c) then Some((p.failure.invalidHighRisk, "failure.semantic_invalid.high_risk"))
    else Some((p.failure.invalidLowerRisk, "failure.semantic_invalid.lower_risk"))
  }

  /* ---------- Rules ---------- */

  predicate Meets(m: RuleMatch, c: Subject, findings: seq<Finding>, s: Option<Semantic>) {
    && (m.sourceClasses.Some? ==> c.source in m.sourceClasses.value)
    && (m.namespacePatterns.Some? ==> exists n <- m.namespacePatterns.value :: NamespaceMatches(c.namespace, n))
    && (m.memoryKinds.Some? ==> c.kind in m.memoryKinds.value)
    && (m.sensitivities.Some? ==> c.sensitivity in m.sensitivities.value)
    && (m.detectorCategoriesAny.Some? ==> exists d <- m.detectorCategoriesAny.value :: d in Categories(findings))
    && (m.minimumDetectorSeverity.Some? ==> Highest(findings) >= Rank(m.minimumDetectorSeverity.value))
    && (m.semanticCategoriesAny.Some? ==>
      SuccessfulSemantic(s) && exists d <- m.semanticCategoriesAny.value :: d in s.value.categories)
    && (m.minimumSemanticRisk.Some? ==>
      SuccessfulSemantic(s) && s.value.riskScore.value >= m.minimumSemanticRisk.value)
    && (m.persistenceRequested.Some? ==> c.persistenceRequested == m.persistenceRequested.value)
    && (m.semanticRequired == Some(true) ==> SuccessfulSemantic(s))
  }

  predicate RuleLe(a: Rule, b: Rule) {
    a.priority < b.priority || (a.priority == b.priority && StringLe(a.ruleId, b.ruleId))
  }

  function FirstMatch(rules: seq<Rule>, c: Subject, findings: seq<Finding>, s: Option<Semantic>): Option<Rule> {
    if rules == [] then None
    else if Meets(rules[0].conditions, c, findings, s) then Some(rules[0])
    else FirstMatch(rules[1..], c, findings, s)
  }

  function DocumentRule(p: Policy, c: Subject, findings: seq<Finding>, s: Option<Semantic>): Option<Rule> {
    FirstMatch(Sort(p.rules, RuleLe), c, findings, s)
  }

  /* ---------- Evaluation ---------- */

  predicate FindingLe(a: Finding, b: Finding) {
    KeyLe(KeyOf(a), KeyOf(b))
  }

  datatype Key = Key(detectorId: string, version: string, resultId: string)

  function KeyOf(f: Finding): Key {
    Key(f.detectorId, f.detectorVersion, f.resultId)
  }

  /** Tuples compare by their first difference. */
  predicate KeyLe(a: Key, b: Key) {
    if a.detectorId != b.detectorId then StringLe(a.detectorId, b.detectorId)
    else if a.version != b.version then StringLe(a.version, b.version)
    else StringLe(a.resultId, b.resultId)
  }

  function ResultIds(findings: seq<Finding>): seq<string> {
    var ordered := Sort(findings, FindingLe);
    seq(|ordered|, i requires 0 <= i < |ordered| => ordered[i].resultId)
  }

  function Review(action: Action, manualReview: bool): Action {
    if manualReview && !Holding(action) then Quarantine else action
  }

  function Evaluate(p: Policy, c: Subject, findings: seq<Finding>, s: Option<Semantic>): Evaluation {
    var guard := HardGuard(p, c, findings);
    var failure := FailureAction(p, c, findings, s);
    var rule := if guard.Some? || failure.Some? then None else DocumentRule(p, c, findings, s);
    var would :=
      if guard.Some? then Block
      else if failure.Some? then failure.value.0
      else if rule.None? then p.defaultAction
      else Review(rule.value.action, rule.value.manualReview);
    var reasons :=
      if guard.Some? then [guard.value]
      else if failure.Some? then [failure.value.1]
      else if rule.None? then ["policy.default"]
      else ["policy.rule." + rule.value.ruleId] + if rule.value.manualReview then ["policy.manual_review_required"] else [];
    Evaluation(
      p.policy, if rule.Some? then Some(rule.value.ruleId) else None,
      if p.shadow then p.shadowAction else would, would, p.shadow, reasons, ResultIds(findings),
      if s.Some? then Some(s.value.assessmentId) else None,
      if rule.Some? then rule.value.ttlSeconds else p.defaultTtl,
      rule.Some? && rule.value.manualReview)
  }

  /* ---------- The matched rule is the least match ---------- */

  lemma RuleOrder()
    ensures TotalOrder(RuleLe)
  {
    forall a, b ensures RuleLe(a, b) || RuleLe(b, a) {
      StringTotal(a.ruleId, b.ruleId);
    }
    forall a, b, c | RuleLe(a, b) && RuleLe(b, c) ensures RuleLe(a, c) {
      if a.priority == b.priority == c.priority {
        StringTransitive(a.ruleId, b.ruleId, c.ruleId);
      }
    }
  }

  lemma {:induction false} FirstMatchLeast(rules: seq<Rule>, c: Subject, findings: seq<Finding>, s: Option<Semantic>)
    requires Sorted(rules, RuleLe)
    ensures var r := FirstMatch(rules, c, findings, s);
      && (r.None? <==> forall q <- rules :: !Meets(q.conditions, c, findings, s))
      && (r.Some? ==>
        && r.value in rules && Meets(r.value.conditions, c, findings, s)
        && forall q <- rules :: Meets(q.conditions, c, findings, s) ==> q == r.value || RuleLe(r.value, q))
  {
    hide Meets, RuleLe;
    if rules != [] {
      assert rules == [rules[0]] + rules[1..];
      FirstMatchLeast(rules[1..], c, findings, s);
    }
  }

  ghost predicate LeastMatch(r: Rule, p: Policy, c: Subject, findings: seq<Finding>, s: Option<Semantic>) {
    && r in p.rules && Meets(r.conditions, c, findings, s)
    && forall q <- p.rules :: Meets(q.conditions, c, findings, s) ==> q == r || RuleLe(r, q)
  }

  /** Of all matching rules the one with the least priority, then the least identifier, is used; none only if none matches. */
  lemma MatchedRuleIsLeast(p: Policy, c: Subject, findings: seq<Finding>, s: Option<Semantic>)
    requires UniqueRuleIds(p.rules)
    ensures var r := DocumentRule(p, c, findings, s);
      && (r.None? <==> forall q <- p.rules :: !Meets(q.conditions, c, findings, s))
      && (r.Some? ==> LeastMatch(r.value, p, c, findings, s))
  {
    hide Meets, RuleLe;
    RuleOrder();
    var sorted := Sort(p.rules, RuleLe);
    SortSorts(p.rules, RuleLe);
    FirstMatchLeast(sorted, c, findings, s);
    assert forall q :: q in sorted <==> q in p.rules by {
      assert forall q :: q in multiset(sorted) <==> q in sorted;
      assert forall q :: q in multiset(p.rules) <==> q in p.rules;
    }
  }

  /* ---------- Nothing depends on the order of the inputs ---------- */

  lemma {:induction false} HighestReached(findings: seq<Finding>, floor: nat)
    ensures Highest(findings) >= floor <==> exists f <- findings :: Positive(f) && Rank(f.severity) >= floor
  {
    if findings != [] {
      assert findings == [findings[0]] + findings[1..];
      HighestReached(findings[1..], floor);
    }
  }

  lemma MeetsIgnoresOrder(m: RuleMatch, c: Subject, f: seq<Finding>, g: seq<Finding>, s: Option<Semantic>)
    requires forall x :: x in f <==> x in g
    ensures Meets(m, c, f, s) == Meets(m, c, g, s)
  {
    hide NamespaceMatches;
    if m.minimumDetectorSeverity.Some? {
      var floor := Rank(m.minimumDetectorSeverity.value);
      HighestReached(f, floor);
      HighestReached(g, floor);
    }
    CategoriesIgnoreOrder(f, g);
  }

  lemma CategoriesIgnoreOrder(f: seq<Finding>, g: seq<Finding>)
    requires forall x :: x in f <==> x in g
    ensures Categories(f) == Categories(g)
  {
  }

  lemma {:induction false} FirstMatchIgnoresOrder(rules: seq<Rule>, c: Subject, f: seq<Finding>, g: seq<Finding>, s: Option<Semantic>)
    requires forall x :: x in f <==> x in g
    ensures FirstMatch(rules, c, f, s) == FirstMatch(rules, c, g, s)
  {
    hide Meets;
    if rules != [] {
      MeetsIgnoresOrder(rules[0].conditions, c, f, g, s);
      FirstMatchIgnoresOrder(rules[1..], c, f, g, s);
    }
  }

  lemma RulesDecided(a: seq<Rule>, b: seq<Rule>)
    requires UniqueRuleIds(a) && multiset(a) == multiset(b)
    ensures Sort(a, RuleLe) == Sort(b, RuleLe)
  {
    RuleOrder();
    forall x, y | x in multiset(a) && y in multiset(a) && RuleLe(x, y) && RuleLe(y, x)
      ensures x == y
    {
      StringTotal(x.ruleId, y.ruleId);
      var i :| 0 <= i < |a| && a[i] == x;
      var j :| 0 <= j < |a| && a[j] == y;
    }
    SortIgnoresOrder(a, b, RuleLe);
  }

  lemma KeyOrder()
    ensures TotalOrder(KeyLe) && TotalOrder(FindingLe)
    ensures forall a, b :: KeyLe(a, b) && KeyLe(b, a) ==> a == b
  {
    forall a, b ensures (KeyLe(a, b) || KeyLe(b, a)) && (KeyLe(a, b) && KeyLe(b, a) ==> a == b) {
      StringTotal(a.detectorId, b.detectorId);
      StringTotal(a.version, b.version);
      StringTotal(a.resultId, b.resultId);
    }
    forall a, b, c | KeyLe(a, b) && KeyLe(b, c) ensures KeyLe(a, c) {
      KeyTransitive(a, b, c);
    }
  }

  lemma KeyTransitive(a: Key, b: Key, c: Key)
    requires KeyLe(a, b) && KeyLe(b, c)
    ensures KeyLe(a, c)
  {
    if a.detectorId != b.detectorId || b.detectorId != c.detectorId {
      StringTotal(a.detectorId, b.detectorId);
      StringTotal(b.detectorId, c.detectorId);
      StringTotal(a.detectorId, a.detectorId);
      StringTransitive(a.detectorId, b.detectorId, c.detectorId);
    } else if a.version != b.version || b.version != c.version {
      StringTotal(a.version, b.version);
      StringTotal(b.version, c.version);
      StringTotal(a.version, a.version);
      StringTransitive(a.version, b.version, c.version);
    } else {
      StringTransitive(a.resultId, b.resultId, c.resultId);
    }
  }

  function Keys(findings: seq<Finding>): (r: seq<Key>)
    ensures |r| == |findings|
  {
    seq(|findings|, i requires 0 <= i < |findings| => KeyOf(findings[i]))
  }

  lemma KeysSplit(a: seq<Finding>, x: Finding, b: seq<Finding>)
    ensures Keys(a + [x] + b) == Keys(a) + [KeyOf(x)] + Keys(b)
    ensures Keys(a + b) == Keys(a) + Keys(b)
  {
  }

  lemma BagSplit<T>(a: seq<T>, x: T, b: seq<T>, rest: seq<T>)
    requires multiset(rest) == multiset(a + b)
    ensures multiset([x] + rest) == multiset(a + [x] + b)
  {
  }

  lemma KeyBagStep(x: Finding, rest: seq<Finding>, a: seq<Finding>, b: seq<Finding>)
    requires multiset(Keys(rest)) == multiset(Keys(a + b))
    ensures multiset(Keys([x] + rest)) == multiset(Keys(a + [x] + b))
  {
    KeysSplit([], x, rest);
    assert [] + [x] + rest == [x] + rest;
    assert Keys([x] + rest) == [KeyOf(x)] + Keys(rest);
    KeysSplit(a, x, b);
    BagSplit(Keys(a), KeyOf(x), Keys(b), Keys(rest));
  }

  /** Taking one element out of two equal bags. */
  lemma TakeOut<T>(f: seq<T>, g: seq<T>) returns (a: seq<T>, b: seq<T>)
    requires f != [] && multiset(f) == multiset(g)
    ensures g == a + [f[0]] + b && multiset(f[1..]) == multiset(a + b)
  {
    assert f[0] in multiset(g);
    var i :| 0 <= i < |g| && g[i] == f[0];
    a, b := g[..i], g[i + 1..];
    assert g == a + [f[0]] + b;
    assert f == [f[0]] + f[1..];
    assert multiset(f[1..]) == multiset(f) - multiset{f[0]};
    assert multiset(a + b) == multiset(g) - multiset{f[0]};
  }

  lemma {:induction false} KeyBag(f: seq<Finding>, g: seq<Finding>)
    requires multiset(f) == multiset(g)
    ensures multiset(Keys(f)) == multiset(Keys(g))
    decreases |f|
  {
    hide Keys;
    if f == [] {
      assert |multiset(g)| == |g|;
    } else {
      var a, b := TakeOut(f, g);
      KeyBag(f[1..], a + b);
      KeyBagStep(f[0], f[1..], a, b);
      assert f == [f[0]] + f[1..];
    }
  }

  /** Results with equal keys may differ, but the identifiers they list cannot. */
  lemma ResultIdsIgnoreOrder(f: seq<Finding>, g: seq<Finding>)
    requires multiset(f) == multiset(g)
    ensures ResultIds(f) == ResultIds(g)
  {
    KeyOrder();
    var a, b := Sort(f, FindingLe), Sort(g, FindingLe);
    SortSorts(f, FindingLe);
    SortSorts(g, FindingLe);
    KeyBag(a, b);
    SortedUnique(Keys(a), Keys(b), KeyLe);
    assert |a| == |Keys(a)| == |b|;
    forall i | 0 <= i < |a| ensures a[i].resultId == b[i].resultId {
      assert Keys(a)[i] == Keys(b)[i];
    }
  }

  lemma GuardsIgnoreOrder(p: Policy, q: Policy, c: Subject, f: seq<Finding>, g: seq<Finding>, s: Option<Semantic>)
    requires q.(rules := p.rules) == p && forall x :: x in f <==> x in g
    ensures HardGuard(p, c, f) == HardGuard(q, c, g) && FailureAction(p, c, f, s) == FailureAction(q, c, g, s)
  {
    hide Categories, NamespaceMatches, HighRisk;
    CategoriesIgnoreOrder(f, g);
  }

  /** The same policy with its rules and the same results in another order give the same evaluation. */
  lemma EvaluationIgnoresOrder(p: Policy, q: Policy, c: Subject, f: seq<Finding>, g: seq<Finding>, s: Option<Semantic>)
    requires UniqueRuleIds(p.rules) && multiset(p.rules) == multiset(q.rules) && q.(rules := p.rules) == p
    requires multiset(f) == multiset(g)
    ensures Evaluate(p, c, f, s) == Evaluate(q, c, g, s)
  {
    hide Meets, FirstMatch, ResultIds, HardGuard, FailureAction;
    assert forall x :: x in f <==> x in g by {
      assert forall x :: x in f <==> x in multiset(f);
      assert forall x :: x in g <==> x in multiset(g);
    }
    RulesDecided(p.rules, q.rules);
    FirstMatchIgnoresOrder(Sort(p.rules, RuleLe), c, f, g, s);
    GuardsIgnoreOrder(p, q, c, f, g, s);
    ResultIdsIgnoreOrder(f, g);
  }

  /* ---------- What no policy can weaken ---------- */

  /** Shadow mode applies its own action and leaves everything else about the decision as in enforce mode. */
  lemma ShadowKeepsWouldAction(p: Policy, c: Subject, findings: seq<Finding>, s: Option<Semantic>)
    ensures var enforced := Evaluate(p.(shadow := false), c, findings, s);
      var shadowed := Evaluate(p.(shadow := true), c, findings, s);
      && shadowed == enforced.(actual := p.shadowAction, shadow := true)
      && enforced.actual == enforced.would
  {
    hide Meets, FirstMatch, ResultIds, Categories, NamespaceMatches, HighRisk;
    var e, h := p.(shadow := false), p.(shadow := true);
    assert HardGuard(e, c, findings) == HardGuard(h, c, findings);
    assert FailureAction(e, c, findings, s) == FailureAction(h, c, findings, s);
    assert DocumentRule(e, c, findings, s) == DocumentRule(h, c, findings, s);
  }

  /** In enforce mode a high-risk candidate whose detectors or assessment failed is held, whatever the rules say. */
  lemma FailureNeverAdmits(p: Policy, c: Subject, findings: seq<Finding>, s: Option<Semantic>)
    requires Validated(p) && !p.shadow && HighRisk(c)
    requires (exists f <- findings :: !f.ok) || (s.Some? && s.value.failureClass.Some?)
    ensures Holding(Evaluate(p, c, findings, s).actual)
  {
    hide Meets, FirstMatch, ResultIds, Categories, NamespaceMatches, HighRisk;
  }

  /** Credentials, malformed structure and protected namespaces are blocked under every policy that protects the namespace. */
  lemma GuardsCannotBeWeakened(p: Policy, c: Subject, findings: seq<Finding>, s: Option<Semantic>)
    requires
      || c.kind == CredentialMaterial || c.sensitivity == Credential
      || (exists f <- findings :: f.ok && f.matched && ("structural_invalidity" in f.categories || "credential_material" in f.categories))
      || (exists n <- p.protectedNamespaces :: NamespaceMatches(c.namespace, n))
    ensures Evaluate(p, c, findings, s).would == Block
    ensures Evaluate(p, c, findings, s).matchedRule.None?
    ensures !p.shadow ==> Evaluate(p, c, findings, s).actual == Block
  {
    hide Meets, FirstMatch, ResultIds, NamespaceMatches, HighRisk;
    if f :| f in findings && Positive(f) && ("structural_invalidity" in f.categories || "credential_material" in f.categories) {
      assert "structural_invalidity" in Categories(findings) || "credential_material" in Categories(findings);
    }
    assert HardGuard(p, c, findings).Some?;
  }

  /** A candidate is admitted only when no guard and no high-risk failure stands against it, and by a named ground. */
  lemma AdmittedOnGrounds(p: Policy, c: Subject, findings: seq<Finding>, s: Option<Semantic>)
    requires Validated(p) && !Holding(Evaluate(p, c, findings, s).would)
    ensures HardGuard(p, c, findings).None?
    ensures HighRisk(c) ==> (forall f <- findings :: f.ok) && (s.Some? ==> s.value.failureClass.None?)
    ensures
      || FailureAction(p, c, findings, s).Some?
      || (forall q <- p.rules :: !Meets(q.conditions, c, findings, s))
      || (exists r <- p.rules :: !Holding(r.action) && !r.manualReview && LeastMatch(r, p, c, findings, s))
  {
    hide Meets, FirstMatch, ResultIds, Categories, NamespaceMatches, HighRisk, RuleLe;
    MatchedRuleIsLeast(p, c, findings, s);
  }

  /* ---------- Last known good policy ---------- */

  /** The in-memory boundary that keeps the active policy when a proposed one is refused. */
  class LastKnownGoodPolicyProvider {
    var active: Option<Policy>
    var rejected: bool

    constructor (initial: Option<Policy>)
      ensures active == initial && !rejected
    {
      active := initial;
      rejected := false;
    }

    method Activate(proposed: Policy) returns (ok: bool)
      modifies this
      ensures ok <==> Validated(proposed)
      ensures active == if ok then Some(proposed) else old(active)
      ensures rejected == !ok
    {
      if !Validated(proposed) {
        rejected := true;
        return false;
      }
      active := Some(proposed);
      rejected := false;
      ok := true;
    }
  }
}
