/**
Editing one ordered list of push rules: put with "after" and "before" anchors, and delete.
*/
module PushRules {
  import opened Wrappers

  /** A push rule; `content` stands for its conditions, actions and pattern. */
  datatype Rule = Rule(id: string, isDefault: bool, enabled: bool, content: string)

  datatype Error = AfterNotFound | AfterIsDefault | BeforeNotFound | BeforeIsDefault | RuleNotFound

  predicate HasId(rules: seq<Rule>, id: string) {
    exists k :: 0 <= k < |rules| && rules[k].id == id
  }

  ghost predicate UniqueIds(rules: seq<Rule>) {
    forall i, j :: 0 <= i < j < |rules| ==> rules[i].id != rules[j].id
  }

  /** All rules but those with the given ID, in order. */
  function Without(rules: seq<Rule>, id: string): seq<Rule> {
    if rules == [] then []
    else (if rules[0].id == id then [] else [rules[0]]) + Without(rules[1..], id)
  }

  lemma {:induction false} WithoutConcat(a: seq<Rule>, b: seq<Rule>, id: string)
    ensures Without(a + b, id) == Without(a, id) + Without(b, id)
  {
    if a == [] {
      assert a + b == b;
    } else {
      assert (a + b)[1..] == a[1..] + b;
      WithoutConcat(a[1..], b, id);
    }
  }

  lemma {:induction false} WithoutAbsent(rules: seq<Rule>, id: string)
    requires !HasId(rules, id)
    ensures Without(rules, id) == rules
  {
    if rules != [] {
      assert rules[0].id != id;
      assert forall k :: 0 <= k < |rules[1..]| ==> rules[1..][k] == rules[k + 1];
      WithoutAbsent(rules[1..], id);
    }
  }

  lemma WithoutHead(r: Rule, b: seq<Rule>)
    requires !HasId(b, r.id)
    ensures Without([r] + b, r.id) == b
  {
    assert ([r] + b)[1..] == b;
    WithoutAbsent(b, r.id);
  }

  lemma WithoutMiddle(a: seq<Rule>, r: Rule, b: seq<Rule>)
    requires !HasId(a, r.id) && !HasId(b, r.id)
    ensures Without(a + ([r] + b), r.id) == a + b
  {
    WithoutConcat(a, [r] + b, r.id);
    WithoutHead(r, b);
    WithoutAbsent(a, r.id);
  }

  /** The list without the entry at `i`. */
  function Cut(rules: seq<Rule>, i: nat): seq<Rule>
    requires i < |rules|
  {
    rules[..i] + rules[i + 1..]
  }

  lemma CutAt(rules: seq<Rule>, i: nat, k: nat)
    requires i < |rules| && k < |rules| - 1
    ensures Cut(rules, i)[k] == if k < i then rules[k] else rules[k + 1]
  {
  }

  lemma CutKeepsUnique(rules: seq<Rule>, i: nat)
    requires UniqueIds(rules) && i < |rules|
    ensures UniqueIds(Cut(rules, i)) && !HasId(Cut(rules, i), rules[i].id)
  {
    forall k | 0 <= k < |rules| - 1 ensures Cut(rules, i)[k] == if k < i then rules[k] else rules[k + 1] {
      CutAt(rules, i, k);
    }
  }

  lemma SplitMiddle(rules: seq<Rule>, i: nat)
    requires i < |rules|
    ensures rules == rules[..i] + ([rules[i]] + rules[i + 1..])
  {
  }

  lemma NoTwin(rules: seq<Rule>, i: nat)
    requires UniqueIds(rules) && i < |rules|
    ensures !HasId(rules[..i], rules[i].id) && !HasId(rules[i + 1..], rules[i].id)
  {
  }

  /** With unique IDs, leaving a rule out cuts exactly its place. */
  lemma WithoutAt(rules: seq<Rule>, i: nat)
    requires UniqueIds(rules) && i < |rules|
    ensures Without(rules, rules[i].id) == Cut(rules, i)
    ensures UniqueIds(Cut(rules, i)) && !HasId(Cut(rules, i), rules[i].id)
  {
    CutKeepsUnique(rules, i);
    NoTwin(rules, i);
    SplitMiddle(rules, i);
    WithoutMiddle(rules[..i], rules[i], rules[i + 1..]);
  }

  // --- what a put promises ---------------------------------------------------------------------

  /** The rule as stored: new rules are enabled whatever the request says. */
  function Stored(rules: seq<Rule>, rule: Rule): Rule {
    if HasId(rules, rule.id) then rule else rule.(enabled := true)
  }

  /** Where the rule may stand in the new list. */
  ghost predicate Placed(rules: seq<Rule>, rules': seq<Rule>, p: nat, id: string, after: string, before: string)
    requires p < |rules'|
  {
    if after == "" && before == "" then
      if HasId(rules, id) then p < |rules| && rules[p].id == id else p == 0
    else
      && (before != "" ==> p + 1 < |rules'| && rules'[p + 1].id == before)
      && (after != "" && before == "" ==> p > 0 && rules'[p - 1].id == after)
      && (after != "" && before != "" ==> exists k :: 0 <= k < p && rules'[k].id == after)
  }

  /**
  The ordered-list specification: IDs stay unique, every other rule keeps its content and relative order,
  the rule stands directly before `before` and somewhere after `after`, directly after it when only
  `after` is given.
  */
  ghost predicate PutResult(rules: seq<Rule>, rules': seq<Rule>, rule: Rule, after: string, before: string) {
    && UniqueIds(rules')
    && Without(rules', rule.id) == Without(rules, rule.id)
    && exists p :: StandsAt(rules, rules', p, rule, after, before)
  }

  ghost predicate StandsAt(rules: seq<Rule>, rules': seq<Rule>, p: int, rule: Rule, after: string, before: string) {
    0 <= p < |rules'| && rules'[p] == Stored(rules, rule) && Placed(rules, rules', p, rule.id, after, before)
  }

  /** The anchors exist, in order, among the other rules, and are not defaults. */
  ghost predicate CanPlace(others: seq<Rule>, after: string, before: string) {
    exists a, b :: AnchorsAt(others, a, b, after, before)
  }

  predicate AnchorsAt(others: seq<Rule>, a: int, b: int, after: string, before: string) {
    && -1 <= a < b <= |others|
    && (if after == "" then a == -1 else a >= 0 && others[a].id == after && !others[a].isDefault)
    && (if before == "" then b == |others| else b < |others| && others[b].id == before && !others[b].isDefault)
  }

  // --- the code ------------------------------------------------------------------------------------

  method PushRuleIndexByID(rules: seq<Rule>, id: string) returns (i: int)
    ensures -1 <= i < |rules|
    ensures i == -1 <==> !HasId(rules, id)
    ensures i >= 0 ==> rules[i].id == id && forall k :: 0 <= k < i ==> rules[k].id != id
  {
    for k := 0 to |rules|
      invariant forall j :: 0 <= j < k ==> rules[j].id != id
    {
      if rules[k].id == id {
        return k;
      }
    }
    return -1;
  }

  predicate DefaultAt(rules: seq<Rule>, k: int, id: string) {
    0 <= k < |rules| && rules[k].id == id && rules[k].isDefault
  }

  /** The position is behind the "after" anchor, if there is one. */
  predicate IsBehind(rules: seq<Rule>, afterID: string, k: int) {
    afterID == "" || exists a :: 0 <= a < k && a < |rules| && rules[a].id == afterID
  }

  method FindPushRuleInsertionIndex(rules: seq<Rule>, afterID: string, beforeID: string) returns (r: Result<nat, Error>)
    requires UniqueIds(rules)
    ensures r == Err(AfterNotFound) <==> afterID != "" && !HasId(rules, afterID)
    ensures r == Err(AfterIsDefault) <==> afterID != "" && exists k :: DefaultAt(rules, k, afterID)
    ensures r == Err(BeforeIsDefault) <==>
              && r != Err(AfterNotFound) && r != Err(AfterIsDefault)
              && beforeID != "" && exists k :: DefaultAt(rules, k, beforeID) && IsBehind(rules, afterID, k)
    ensures r == Err(BeforeNotFound) <==>
              && r != Err(AfterNotFound) && r != Err(AfterIsDefault)
              && beforeID != "" && forall k :: 0 <= k < |rules| && rules[k].id == beforeID ==>
                                   !IsBehind(rules, afterID, k)
    ensures r != Err(RuleNotFound)
    ensures r.Ok? <==> CanPlace(rules, afterID, beforeID)
    ensures r.Ok? ==> r.value <= |rules|
    ensures r.Ok? && afterID == "" && beforeID == "" ==> r.value == 0
    ensures r.Ok? && beforeID != "" ==> r.value < |rules| && rules[r.value].id == beforeID
    ensures r.Ok? && afterID != "" && beforeID == "" ==> r.value > 0 && rules[r.value - 1].id == afterID
    ensures r.Ok? && afterID != "" ==> exists k :: 0 <= k < r.value && rules[k].id == afterID
  {
    var i, a := 0, -1;
    if afterID != "" {
      while i < |rules|
        invariant 0 <= i <= |rules|
        invariant forall k :: 0 <= k < i ==> rules[k].id != afterID
      {
        if rules[i].id == afterID {
          break;
        }
        i := i + 1;
      }
      if i == |rules| {
        return Err(AfterNotFound);
      }
      if rules[i].isDefault {
        assert DefaultAt(rules, i, afterID);
        return Err(AfterIsDefault);
      }
      a := i;
      i := i + 1;
    }
    ghost var b := |rules|;
    if beforeID != "" {
      while i < |rules|
        invariant a < i <= |rules|
        invariant forall k :: a < k < i ==> rules[k].id != beforeID
      {
        if rules[i].id == beforeID {
          break;
        }
        i := i + 1;
      }
      if i == |rules| {
        return Err(BeforeNotFound);
      }
      if rules[i].isDefault {
        assert DefaultAt(rules, i, beforeID);
        return Err(BeforeIsDefault);
      }
      b := i;
    }
    assert AnchorsAt(rules, a, b, afterID, beforeID);
    return Ok(i);
  }

  class PushRuleList {
    var rules: seq<Rule>

    constructor (rules: seq<Rule>)
      requires UniqueIds(rules)
      ensures this.rules == rules
    {
      this.rules := rules;
    }

    /**
    PutPushRuleByRuleID, once scope, kind and rule are known to be valid. Nothing is saved on an error,
    although the old rule was already cut from the working copy.
    */
    method Put(newRule: Rule, after: string, before: string) returns (r: Result<(), Error>)
      requires UniqueIds(rules)
      modifies this
      ensures r.Ok? <==> (after == "" && before == "") || CanPlace(Without(old(rules), newRule.id), after, before)
      ensures r.Ok? ==> PutResult(old(rules), rules, newRule, after, before)
      ensures r.Ok? && HasId(old(rules), newRule.id) ==> newRule in rules
      ensures r.Ok? && !HasId(old(rules), newRule.id) ==>
                exists p :: 0 <= p < |rules| && rules[p] == newRule.(enabled := true)
      ensures r.Err? ==> rules == old(rules)
    {
      var list, rule := rules, newRule;
      var i := PushRuleIndexByID(list, rule.id);
      if i >= 0 {
        WithoutAt(list, i);
      } else {
        WithoutAbsent(list, rule.id);
      }
      if i >= 0 && after == "" && before == "" {
        list := list[i := rule];
        ReplacedInPlace(rules, i, rule);
      } else {
        if i >= 0 {
          list := Cut(list, i);
        } else {
          rule := rule.(enabled := true);
        }
        var at := FindPushRuleInsertionIndex(list, after, before);
        if after == "" && before == "" {
          assert AnchorsAt(list, -1, |list|, after, before);
        }
        if at.Err? {
          return Err(at.error);
        }
        InsertionIsPut(rules, list, at.value, newRule, after, before);
        list := Inserted(list, at.value, rule);
      }
      rules := list;
      return Ok(());
    }

    /** DeletePushRuleByRuleID */
    method Delete(id: string) returns (r: Result<(), Error>)
      requires UniqueIds(rules)
      modifies this
      ensures r.Ok? <==> HasId(old(rules), id)
      ensures rules == Without(old(rules), id) && UniqueIds(rules)
    {
      var i := PushRuleIndexByID(rules, id);
      if i < 0 {
        WithoutAbsent(rules, id);
        return Err(RuleNotFound);
      }
      WithoutAt(rules, i);
      rules := Cut(rules, i);
      return Ok(());
    }
  }

  lemma ReplacedInPlace(rules: seq<Rule>, i: nat, rule: Rule)
    requires UniqueIds(rules) && i < |rules| && rules[i].id == rule.id
    ensures PutResult(rules, rules[i := rule], rule, "", "")
  {
    var rules' := rules[i := rule];
    WithoutAt(rules, i);
    WithoutAt(rules', i);
    assert rules'[..i] == rules[..i] && rules'[i + 1..] == rules[i + 1..];
    assert StandsAt(rules, rules', i, rule, "", "");
  }

  function Inserted(others: seq<Rule>, p: nat, rule: Rule): seq<Rule>
    requires p <= |others|
  {
    others[..p] + ([rule] + others[p..])
  }

  lemma InsertedIndex(others: seq<Rule>, p: nat, rule: Rule, k: nat)
    requires p <= |others| && k <= |others|
    ensures Inserted(others, p, rule)[k] == if k < p then others[k] else if k == p then rule else others[k - 1]
  {
  }

  lemma InsertedIsUnique(others: seq<Rule>, p: nat, rule: Rule)
    requires UniqueIds(others) && !HasId(others, rule.id) && p <= |others|
    ensures UniqueIds(Inserted(others, p, rule))
  {
    forall k | 0 <= k <= |others|
      ensures Inserted(others, p, rule)[k] == if k < p then others[k] else if k == p then rule else others[k - 1]
    {
      InsertedIndex(others, p, rule, k);
    }
  }

  lemma InsertedWithout(others: seq<Rule>, p: nat, rule: Rule)
    requires !HasId(others, rule.id) && p <= |others|
    ensures Without(Inserted(others, p, rule), rule.id) == others
  {
    assert !HasId(others[..p], rule.id) && !HasId(others[p..], rule.id);
    WithoutMiddle(others[..p], rule, others[p..]);
    assert others[..p] + others[p..] == others;
  }

  /** Inserting at an index that respects the anchors is what a put promises. */
  lemma InsertionIsPut(rules: seq<Rule>, others: seq<Rule>, p: nat, rule: Rule, after: string, before: string)
    requires others == Without(rules, rule.id) && UniqueIds(others) && !HasId(others, rule.id) && p <= |others|
    requires after == "" && before == "" ==> p == 0 && !HasId(rules, rule.id)
    requires before != "" ==> p < |others| && others[p].id == before
    requires after != "" && before == "" ==> p > 0 && others[p - 1].id == after
    requires after != "" ==> exists k :: 0 <= k < p && others[k].id == after
    ensures PutResult(rules, Inserted(others, p, Stored(rules, rule)), rule, after, before)
  {
    var stored := Stored(rules, rule);
    var rules' := Inserted(others, p, stored);
    InsertedIsUnique(others, p, stored);
    InsertedWithout(others, p, stored);
    assert rules'[p] == stored;
    if before != "" { InsertedIndex(others, p, stored, p + 1); }
    if after != "" {
      var k :| 0 <= k < p && others[k].id == after;
      InsertedIndex(others, p, stored, k);
      InsertedIndex(others, p, stored, p - 1);
    }
    assert StandsAt(rules, rules', p, rule, after, before);
  }

  // --- what follows from the specification -------------------------------------------------------------

  /** A list with one rule of an ID is its other rules with that rule inserted at its place. */
  lemma RuleAtItsPlace(rules: seq<Rule>, p: nat)
    requires UniqueIds(rules) && p < |rules|
    ensures p <= |Without(rules, rules[p].id)| && UniqueIds(Without(rules, rules[p].id))
    ensures rules == Inserted(Without(rules, rules[p].id), p, rules[p])
  {
    WithoutAt(rules, p);
  }

  /** Given the anchors, there is one place among the other rules. */
  lemma OnePlace(rules: seq<Rule>, others: seq<Rule>, rule: Rule, p: nat, q: nat, after: string, before: string)
    requires UniqueIds(rules) && UniqueIds(others) && p <= |others| && q <= |others|
    requires Placed(rules, Inserted(others, p, rule), p, rule.id, after, before)
    requires Placed(rules, Inserted(others, q, rule), q, rule.id, after, before)
    ensures p == q
  {
    var x, y := Inserted(others, p, rule), Inserted(others, q, rule);
    if before != "" {
      assert x[p + 1] == others[p] && y[q + 1] == others[q];
    } else if after != "" {
      assert x[p - 1] == others[p - 1] && y[q - 1] == others[q - 1];
    }
  }

  /** The specification leaves no freedom: it fixes the whole new list. */
  lemma PutIsDetermined(rules: seq<Rule>, x: seq<Rule>, y: seq<Rule>, rule: Rule, after: string, before: string)
    requires UniqueIds(rules)
    requires PutResult(rules, x, rule, after, before) && PutResult(rules, y, rule, after, before)
    ensures x == y
  {
    var p :| StandsAt(rules, x, p, rule, after, before);
    var q :| StandsAt(rules, y, q, rule, after, before);
    DeterminedAt(rules, x, y, p, q, rule, after, before);
  }

  lemma DeterminedAt(rules: seq<Rule>, x: seq<Rule>, y: seq<Rule>, p: nat, q: nat, rule: Rule,
                     after: string, before: string)
    requires UniqueIds(rules) && UniqueIds(x) && UniqueIds(y)
    requires Without(x, rule.id) == Without(y, rule.id)
    requires StandsAt(rules, x, p, rule, after, before) && StandsAt(rules, y, q, rule, after, before)
    ensures x == y
  {
    RuleAtItsPlace(x, p);
    RuleAtItsPlace(y, q);
    OnePlace(rules, Without(x, rule.id), Stored(rules, rule), p, q, after, before);
  }

  /** A rule that is new is enabled, whatever the request says; one that replaces another is as the request says. */
  lemma NewRulesAreEnabled(rules: seq<Rule>, rules': seq<Rule>, rule: Rule, after: string, before: string)
    requires PutResult(rules, rules', rule, after, before)
    ensures exists p :: 0 <= p < |rules'| && rules'[p].id == rule.id && rules'[p].content == rule.content
                        && rules'[p].isDefault == rule.isDefault
                        && rules'[p].enabled == (rule.enabled || !HasId(rules, rule.id))
  {
    var p :| StandsAt(rules, rules', p, rule, after, before);
  }

  /** Putting a fresh rule and deleting it again restores the list. */
  lemma PutThenDeleteRestores(rules: seq<Rule>, rules': seq<Rule>, rule: Rule, after: string, before: string)
    requires !HasId(rules, rule.id) && PutResult(rules, rules', rule, after, before)
    ensures HasId(rules', rule.id) && Without(rules', rule.id) == rules
  {
    WithoutAbsent(rules, rule.id);
    var p :| StandsAt(rules, rules', p, rule, after, before);
    assert rules'[p].id == rule.id;
  }

  /** A rule cannot be anchored to itself: its old entry is cut before the anchor is looked for. */
  lemma CannotAnchorToItself(rules: seq<Rule>, id: string, before: string)
    requires UniqueIds(rules) && id != ""
    ensures !CanPlace(Without(rules, id), id, before) && !CanPlace(Without(rules, id), before, id)
  {
    if HasId(rules, id) {
      var i :| 0 <= i < |rules| && rules[i].id == id;
      WithoutAt(rules, i);
    } else {
      WithoutAbsent(rules, id);
    }
    assert !HasId(Without(rules, id), id);
  }
}
