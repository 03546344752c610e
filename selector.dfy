/**
 * Label-selector evaluation (selector.go): an object's labels are matched
 * against a selector made of an exact-match set and a list of expressions.
 */
module Selector {
  import Collections
  import Meta

  /** An operator string other than the four the matcher knows. */
  type UnknownOperatorName = s: string | s != "In" && s != "NotIn" && s != "Exists" && s != "DoesNotExist"
    witness ""

  /**
   * The operator of a selector expression: the strings "In", "NotIn",
   * "Exists" and "DoesNotExist" are the first four; every other string is
   * `Unknown` and imposes no constraint.
   */
  datatype Operator = In | NotIn | Exists | DoesNotExist | Unknown(name: UnknownOperatorName)

  /** The operator a Go operator string denotes. */
  function ParseOperator(name: string): (op: Operator)
    ensures op.Unknown? <==> name !in {"In", "NotIn", "Exists", "DoesNotExist"}
    ensures op.Unknown? ==> op.name == name
    ensures (op == In <==> name == "In") && (op == NotIn <==> name == "NotIn")
    ensures (op == Exists <==> name == "Exists") && (op == DoesNotExist <==> name == "DoesNotExist")
  {
    if name == "In" then In
    else if name == "NotIn" then NotIn
    else if name == "Exists" then Exists
    else if name == "DoesNotExist" then DoesNotExist
    else Unknown(name)
  }

  /** One entry of `MatchExpressions`. */
  datatype Requirement = Requirement(key: string, operator: Operator, values: seq<string>)

  /** A label selector: `MatchLabels` plus `MatchExpressions`. */
  datatype LabelSelector = LabelSelector(
    matchLabels: map<string, string>,
    matchExpressions: seq<Requirement>)

  /** Every selector key is present in `labels` with the identical value. */
  predicate LabelsMatch(labels: map<string, string>, matchLabels: map<string, string>)
  {
    forall k :: k in matchLabels ==> k in labels && labels[k] == matchLabels[k]
  }

  /** What one expression demands of the labels, per operator. */
  predicate RequirementHolds(labels: map<string, string>, r: Requirement)
  {
    match r.operator
    case In => r.key in labels && labels[r.key] in r.values
    case NotIn => !(r.key in labels && labels[r.key] in r.values)
    case Exists => r.key in labels
    case DoesNotExist => r.key !in labels
    case Unknown(_) => true
  }

  /** Every expression of `exprs` holds. */
  predicate ExpressionsMatch(labels: map<string, string>, exprs: seq<Requirement>)
  {
    forall i :: 0 <= i < |exprs| ==> RequirementHolds(labels, exprs[i])
  }

  /** The meaning of a selector: both clauses pass. */
  predicate Matches(labels: map<string, string>, selector: LabelSelector)
  {
    LabelsMatch(labels, selector.matchLabels) && ExpressionsMatch(labels, selector.matchExpressions)
  }

  /**
   * `IsMatch`: the size pre-check, then the match-labels loop over the keys
   * in an unspecified order, then the expression loop, each with early exits.
   */
  method IsMatch(meta: Meta.ObjectMeta, selector: LabelSelector) returns (b: bool)
    ensures b == Matches(meta.labels, selector)
  {
    var labels := meta.labels;
    if |selector.matchLabels| != 0 {
      if |labels| < |selector.matchLabels| {
        SizePrecheckSound(labels, selector.matchLabels);
        return false;
      }
      var remaining := selector.matchLabels.Keys;
      while remaining != {}
        invariant remaining <= selector.matchLabels.Keys
        invariant forall k :: k in selector.matchLabels && k !in remaining ==>
          k in labels && labels[k] == selector.matchLabels[k]
        decreases remaining
      {
        var key :| key in remaining;
        if key !in labels || labels[key] != selector.matchLabels[key] {
          return false;
        }
        remaining := remaining - {key};
      }
    }

    var exprs := selector.matchExpressions;
    var i := 0;
    while i < |exprs|
      invariant 0 <= i <= |exprs|
      invariant forall j :: 0 <= j < i ==> RequirementHolds(labels, exprs[j])
    {
      var expr := exprs[i];
      var ok := expr.key in labels;
      var value := if ok then labels[expr.key] else "";
      match expr.operator {
        case In =>
          var found := Collections.Contains(expr.values, value);
          if !ok || !found {
            return false;
          }
        case NotIn =>
          var found := Collections.Contains(expr.values, value);
          if ok && found {
            return false;
          }
        case Exists =>
          if !ok {
            return false;
          }
        case DoesNotExist =>
          if ok {
            return false;
          }
        case Unknown(_) =>
      }
      i := i + 1;
    }
    return true;
  }

  /** The size pre-check rejects only what the key loop would reject too. */
  lemma SizePrecheckSound(labels: map<string, string>, matchLabels: map<string, string>)
    requires |labels| < |matchLabels|
    ensures !LabelsMatch(labels, matchLabels)
  {
    if LabelsMatch(labels, matchLabels) {
      assert matchLabels.Keys <= labels.Keys;
      SubsetCard(matchLabels.Keys, labels.Keys);
    }
  }

  lemma {:induction false} SubsetCard<T>(a: set<T>, b: set<T>)
    requires a <= b
    ensures |a| <= |b|
  {
    if a != {} {
      var x :| x in a;
      SubsetCard(a - {x}, b - {x});
    }
  }

  /** A selector with neither labels nor expressions matches every object. */
  lemma EmptySelectorMatchesAll(labels: map<string, string>)
    ensures Matches(labels, LabelSelector(map[], []))
  {
  }

  /** The selector is the conjunction of its match-labels and each expression taken alone. */
  lemma MatchesIsConjunction(labels: map<string, string>, selector: LabelSelector)
    ensures Matches(labels, selector) <==>
      (Matches(labels, LabelSelector(selector.matchLabels, [])) &&
       forall r :: r in selector.matchExpressions ==> Matches(labels, LabelSelector(map[], [r])))
  {
    var exprs := selector.matchExpressions;
    if forall r :: r in exprs ==> Matches(labels, LabelSelector(map[], [r])) {
      forall i | 0 <= i < |exprs| ensures RequirementHolds(labels, exprs[i]) {
        assert exprs[i] in exprs;
        assert Matches(labels, LabelSelector(map[], [exprs[i]]));
        assert [exprs[i]][0] == exprs[i];
      }
    }
  }

  /** The outcome does not depend on the order of the expressions. */
  lemma OrderIndependent(labels: map<string, string>, matchLabels: map<string, string>,
                         e1: seq<Requirement>, e2: seq<Requirement>)
    requires multiset(e1) == multiset(e2)
    ensures Matches(labels, LabelSelector(matchLabels, e1)) == Matches(labels, LabelSelector(matchLabels, e2))
  {
    forall r ensures r in e1 <==> r in e2 {
      assert r in e1 <==> r in multiset(e1);
      assert r in e2 <==> r in multiset(e2);
    }
    if ExpressionsMatch(labels, e1) {
      forall j | 0 <= j < |e2| ensures RequirementHolds(labels, e2[j]) {
        assert e2[j] in e1;
      }
    }
    if ExpressionsMatch(labels, e2) {
      forall j | 0 <= j < |e1| ensures RequirementHolds(labels, e1[j]) {
        assert e1[j] in e2;
      }
    }
  }

  /** An expression with an operator outside the four known ones changes nothing. */
  lemma UnknownOperatorIgnored(labels: map<string, string>, selector: LabelSelector,
                               key: string, name: UnknownOperatorName, values: seq<string>, pos: nat)
    requires pos <= |selector.matchExpressions|
    ensures var e := selector.matchExpressions;
      Matches(labels, LabelSelector(selector.matchLabels,
        e[..pos] + [Requirement(key, Unknown(name), values)] + e[pos..])) == Matches(labels, selector)
  {
    var e := selector.matchExpressions;
    var e' := e[..pos] + [Requirement(key, Unknown(name), values)] + e[pos..];
    if ExpressionsMatch(labels, e) {
      forall j | 0 <= j < |e'| ensures RequirementHolds(labels, e'[j]) {
        if j < pos { assert e'[j] == e[j]; }
        else if j > pos { assert e'[j] == e[j - 1]; }
      }
    }
    if ExpressionsMatch(labels, e') {
      forall j | 0 <= j < |e| ensures RequirementHolds(labels, e[j]) {
        if j < pos { assert e'[j] == e[j]; }
        else { assert e'[j + 1] == e[j]; }
      }
    }
  }

  /** `In` passes exactly when the key is present and its value is listed. */
  lemma InSemantics(labels: map<string, string>, key: string, values: seq<string>)
    ensures Matches(labels, LabelSelector(map[], [Requirement(key, In, values)])) <==>
      key in labels && labels[key] in values
  {
    assert [Requirement(key, In, values)][0] == Requirement(key, In, values);
  }

  /** `NotIn` fails exactly when the key is present and its value is listed; an absent key passes. */
  lemma NotInSemantics(labels: map<string, string>, key: string, values: seq<string>)
    ensures Matches(labels, LabelSelector(map[], [Requirement(key, NotIn, values)])) <==>
      key !in labels || labels[key] !in values
  {
    assert [Requirement(key, NotIn, values)][0] == Requirement(key, NotIn, values);
  }

  /** `Exists` and `DoesNotExist` look only at presence of the key, never at its value. */
  lemma PresenceSemantics(labels: map<string, string>, key: string, v1: seq<string>, v2: seq<string>,
                          v: string)
    ensures Matches(labels, LabelSelector(map[], [Requirement(key, Exists, v1)])) <==> key in labels
    ensures Matches(labels, LabelSelector(map[], [Requirement(key, DoesNotExist, v2)])) <==> key !in labels
    ensures Matches(labels[key := v], LabelSelector(map[], [Requirement(key, Exists, v1)]))
  {
    assert [Requirement(key, Exists, v1)][0] == Requirement(key, Exists, v1);
    assert [Requirement(key, DoesNotExist, v2)][0] == Requirement(key, DoesNotExist, v2);
  }
}
