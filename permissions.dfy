/** Static topic permissions: an ordered rule list plus a default behaviour, where
    the first rule that matches a topic decides. */
module Permissions {
  import opened Options

  datatype PermissionType = Allow | Deny

  /** One rule: a topic filter and whether it allows or denies. */
  datatype TopicPermission = TopicPermission(topicFilter: string, kind: PermissionType)

  /** A permission set: ordered rules and the behaviour when none matches. */
  datatype DefaultPermissions = DefaultPermissions(rules: seq<TopicPermission>, defaultBehaviour: PermissionType)

  /** A new permission set: no rules, allow by default. */
  const EmptyPermissions := DefaultPermissions([], Allow)

  /** Whether a rule applies to a topic; filters are compared literally (see README). */
  predicate Matches(rule: TopicPermission, topic: string) {
    rule.topicFilter == topic
  }

  /** Index `i` holds the first rule that matches `topic`. */
  predicate IsFirstMatch(rules: seq<TopicPermission>, topic: string, i: int) {
    && 0 <= i < |rules|
    && Matches(rules[i], topic)
    && forall j :: 0 <= j < i ==> !Matches(rules[j], topic)
  }

  /** No rule matches `topic`. */
  predicate NoMatch(rules: seq<TopicPermission>, topic: string) {
    forall j :: 0 <= j < |rules| ==> !Matches(rules[j], topic)
  }

  /** The index of the first rule that matches, if any. */
  function FirstMatch(rules: seq<TopicPermission>, topic: string): (r: Option<nat>)
    ensures r.Some? ==> IsFirstMatch(rules, topic, r.value)
    ensures r.None? ==> NoMatch(rules, topic)
  {
    if |rules| == 0 then None
    else if Matches(rules[0], topic) then Some(0)
    else match FirstMatch(rules[1..], topic)
      case None => None
      case Some(i) => Some(i + 1)
  }

  /** The permission a set grants a topic: the first matching rule's, else the default. */
  function Evaluate(p: DefaultPermissions, topic: string): PermissionType {
    match FirstMatch(p.rules, topic)
    case Some(i) => p.rules[i].kind
    case None => p.defaultBehaviour
  }

  /** First-match-wins semantics: a set allows a topic exactly when some rule matches it,
      the first such rule allows, or no rule matches and the default allows. */
  lemma EvaluateAllowIff(p: DefaultPermissions, topic: string)
    ensures Evaluate(p, topic) == Allow <==>
      (exists i :: IsFirstMatch(p.rules, topic, i) && p.rules[i].kind == Allow)
      || (NoMatch(p.rules, topic) && p.defaultBehaviour == Allow)
  {
    match FirstMatch(p.rules, topic)
    case Some(i) =>
      forall k | IsFirstMatch(p.rules, topic, k) ensures k == i {
      }
      assert !NoMatch(p.rules, topic) by { assert Matches(p.rules[i], topic); }
    case None =>
      forall k | 0 <= k < |p.rules| ensures !IsFirstMatch(p.rules, topic, k) {
        assert !Matches(p.rules[k], topic);
      }
  }

  /** A rule placed in front of a set decides every topic it matches. */
  lemma PrependedMatchDecides(p: DefaultPermissions, rule: TopicPermission, topic: string)
    requires Matches(rule, topic)
    ensures Evaluate(p.(rules := [rule] + p.rules), topic) == rule.kind
  {
  }

  /** A rule appended to a set changes nothing for a topic it does not match. */
  lemma AppendedNonMatchIrrelevant(p: DefaultPermissions, rule: TopicPermission, topic: string)
    requires !Matches(rule, topic)
    ensures Evaluate(p.(rules := p.rules + [rule]), topic) == Evaluate(p, topic)
  {
    var q := p.rules + [rule];
    assert forall j :: 0 <= j < |p.rules| ==> q[j] == p.rules[j];
    match FirstMatch(q, topic)
    case Some(i) =>
      assert i < |p.rules|;
      var f := FirstMatch(p.rules, topic);
      assert f.Some? by { assert Matches(p.rules[i], topic); }
      assert q[f.value] == p.rules[f.value];
    case None =>
      assert NoMatch(p.rules, topic);
  }
}
