/** The segment rule builder: adding, editing and removing rules of an
    ordered chain, and the chain's shape invariant (the first rule carries
    no logical operator, every later rule carries AND or OR). */
module RuleBuilder {
  import opened Types

  /** The builder's field menu. */
  const FieldMenu: seq<Field> := [TotalSpent, OrderCount, LastOrderDate, DaysInactive]

  /** The builder's operator menu: five options, `neq` is not offered. */
  const OperatorMenu: seq<Operator> := [Gt, Gte, Lt, Lte, Eq]

  /** The shape every chain the builder keeps is meant to have. */
  predicate WellFormedChain(rules: seq<SegmentRule>) {
    forall k :: 0 <= k < |rules| ==> (rules[k].logicalOperator == None <==> k == 0)
  }

  // ---------------------------------------------------------------- addRule

  function DigitChar(d: nat): char
    requires d < 10
  {
    "0123456789"[d]
  }

  /** The decimal numeral of `n`, as a template literal prints it. */
  function Decimal(n: nat): (s: string)
    ensures |s| >= 1
    ensures forall k :: 0 <= k < |s| ==> '0' <= s[k] <= '9'
    decreases n
  {
    if n < 10 then [DigitChar(n)] else Decimal(n / 10) + [DigitChar(n % 10)]
  }

  /** The id a rule added at clock reading `now` (milliseconds) gets. */
  function RuleId(now: nat): string {
    "rule_" + Decimal(now)
  }

  /** The rule `addRule` appends to `rules` at clock reading `now`. */
  function NewRule(rules: seq<SegmentRule>, now: nat): SegmentRule {
    SegmentRule(Some(RuleId(now)), TotalSpent, Gt, Text(""),
                if |rules| > 0 then Some(And) else None)
  }

  /** `addRule`: the chain with one fresh rule at its end. */
  function AddRule(rules: seq<SegmentRule>, now: nat): (r: seq<SegmentRule>)
    ensures |r| == |rules| + 1
    ensures r[..|rules|] == rules
    ensures r[|rules|].field == TotalSpent && r[|rules|].operator == Gt
    ensures r[|rules|].value == Text("")
    ensures r[|rules|].logicalOperator == None <==> rules == []
    ensures r[|rules|].logicalOperator != None ==> r[|rules|].logicalOperator == Some(And)
  {
    rules + [NewRule(rules, now)]
  }

  /** Adding a rule keeps the chain well formed, and adding to an empty chain
      gives a well-formed one-rule chain. */
  lemma AddRulePreservesShape(rules: seq<SegmentRule>, now: nat)
    requires WellFormedChain(rules)
    ensures WellFormedChain(AddRule(rules, now))
  {
  }

  // ------------------------------------------------------------- updateRule

  /** One field of a partial record: left as it is, or given a value. */
  datatype Patch<T> = Keep | Set(value: T)

  function Apply<T>(p: Patch<T>, current: T): T {
    match p
    case Keep => current
    case Set(v) => v
  }

  /** A `Partial<SegmentRule>`. For `logicalOperator`, `Set(None)` is an
      explicit `undefined`, which a spread copies over the old value. */
  datatype RulePatch = RulePatch(
    id: Patch<Option<string>>,
    field: Patch<Field>,
    operator: Patch<Operator>,
    value: Patch<RuleValue>,
    logicalOperator: Patch<Option<LogicalOperator>>)

  /** `{ ...rule, ...patch }`: the fields the patch sets take its values, the
      others keep the rule's. */
  function Merge(rule: SegmentRule, patch: RulePatch): (m: SegmentRule)
    ensures patch.id == Keep ==> m.id == rule.id
    ensures patch.field == Keep ==> m.field == rule.field
    ensures patch.operator == Keep ==> m.operator == rule.operator
    ensures patch.value == Keep ==> m.value == rule.value
    ensures patch.logicalOperator == Keep ==> m.logicalOperator == rule.logicalOperator
    ensures patch.id.Set? ==> m.id == patch.id.value
    ensures patch.field.Set? ==> m.field == patch.field.value
    ensures patch.operator.Set? ==> m.operator == patch.operator.value
    ensures patch.value.Set? ==> m.value == patch.value.value
    ensures patch.logicalOperator.Set? ==> m.logicalOperator == patch.logicalOperator.value
  {
    SegmentRule(Apply(patch.id, rule.id), Apply(patch.field, rule.field),
                Apply(patch.operator, rule.operator), Apply(patch.value, rule.value),
                Apply(patch.logicalOperator, rule.logicalOperator))
  }

  /** `updateRule(index, patch)`: a copy of the chain whose rule at `index`
      has the patch merged in. */
  function UpdateRule(rules: seq<SegmentRule>, index: nat, patch: RulePatch): (r: seq<SegmentRule>)
    requires index < |rules|
    ensures |r| == |rules|
    ensures r[index] == Merge(rules[index], patch)
    ensures forall k :: 0 <= k < |r| && k != index ==> r[k] == rules[k]
  {
    rules[index := Merge(rules[index], patch)]
  }

  /** What the builder's controls on the row of one rule can send to
      `updateRule`: the AND/OR menu (shown from the second row on), the field
      menu, the operator menu and the value box, which yields text. */
  datatype Edit =
    | PickConnective(connective: LogicalOperator)
    | PickField(field: Field)
    | PickOperator(operator: Operator)
    | TypeValue(text: string)

  function EditPatch(e: Edit): RulePatch {
    match e
    case PickConnective(c) => RulePatch(Keep, Keep, Keep, Keep, Set(Some(c)))
    case PickField(f) => RulePatch(Keep, Set(f), Keep, Keep, Keep)
    case PickOperator(o) => RulePatch(Keep, Keep, Set(o), Keep, Keep)
    case TypeValue(t) => RulePatch(Keep, Keep, Keep, Set(Text(t)), Keep)
  }

  /** An edit the controls of row `index` can send: the AND/OR menu exists
      only on later rows, and the field and operator menus offer only their
      own options. */
  predicate IsControlEdit(index: nat, e: Edit) {
    (e.PickConnective? ==> index > 0)
    && (e.PickField? ==> e.field in FieldMenu)
    && (e.PickOperator? ==> e.operator in OperatorMenu)
  }

  /** Every edit the rows' controls can make keeps a well-formed chain well
      formed. */
  lemma ControlEditPreservesShape(rules: seq<SegmentRule>, index: nat, e: Edit)
    requires index < |rules| && IsControlEdit(index, e)
    requires WellFormedChain(rules)
    ensures WellFormedChain(UpdateRule(rules, index, EditPatch(e)))
  {
  }

  /** An arbitrary patch can break the shape: setting an operator on the first
      rule is not guarded by `updateRule` itself, only by the UI not offering it. */
  lemma UpdateRuleDoesNotGuardShape()
    ensures var rules := [NewRule([], 0)];
            WellFormedChain(rules) &&
            !WellFormedChain(UpdateRule(rules, 0, EditPatch(PickConnective(Or))))
  {
  }

  /** The chain holds only operators the builder's menu offers. */
  predicate UsesMenuOperators(rules: seq<SegmentRule>) {
    forall k :: 0 <= k < |rules| ==> rules[k].operator in OperatorMenu
  }

  /** The record admits `neq`, but the builder's menu does not offer it. */
  lemma MenuLacksNeq()
    ensures Neq !in OperatorMenu
    ensures forall rules: seq<SegmentRule> :: UsesMenuOperators(rules) ==> forall k :: 0 <= k < |rules| ==> rules[k].operator != Neq
  {
  }

  /** A new rule gets `gt`, a menu operator, whatever the chain (the empty
      one included). */
  lemma AddRuleUsesMenuOperators(rules: seq<SegmentRule>, now: nat)
    requires UsesMenuOperators(rules)
    ensures UsesMenuOperators(AddRule(rules, now))
  {
  }

  /** A control edit keeps every operator in the chain one the menu offers. */
  lemma ControlEditUsesMenuOperators(rules: seq<SegmentRule>, index: nat, e: Edit)
    requires index < |rules| && IsControlEdit(index, e)
    requires UsesMenuOperators(rules)
    ensures UsesMenuOperators(UpdateRule(rules, index, EditPatch(e)))
  {
  }

  // ------------------------------------------------------------- removeRule

  /** `xs.filter((_, i) => i !== index)` over the elements at positions
      `offset`, `offset + 1`, ... */
  function FilterOutIndex(xs: seq<SegmentRule>, index: int, offset: nat): seq<SegmentRule>
    decreases |xs|
  {
    if |xs| == 0 then []
    else (if offset == index then [] else [xs[0]]) + FilterOutIndex(xs[1..], index, offset + 1)
  }

  /** The filter drops exactly the element at `index` when there is one, and
      nothing otherwise. */
  lemma {:induction false} FilterOutIndexDrops(xs: seq<SegmentRule>, index: int, offset: nat)
    ensures FilterOutIndex(xs, index, offset) ==
            if offset <= index < offset + |xs| then xs[..index - offset] + xs[index - offset + 1..]
            else xs
    decreases |xs|
  {
    if |xs| > 0 {
      var tail := xs[1..];
      FilterOutIndexDrops(tail, index, offset + 1);
      var m := index - offset;
      if m == 0 {
        assert xs[m + 1..] == tail;
      } else if 0 < m < |xs| {
        assert tail[..m - 1] == xs[1..m];
        assert tail[m..] == xs[m + 1..];
        assert [xs[0]] + xs[1..m] == xs[..m];
      } else {
        assert xs == [xs[0]] + tail;
      }
    }
  }

  /** `removeRule(index)`: drop the rule at `index`, then clear the logical
      operator of whatever rule is now first. */
  function RemoveRule(rules: seq<SegmentRule>, index: int): seq<SegmentRule> {
    var kept := FilterOutIndex(rules, index, 0);
    if |kept| > 0 then kept[0 := kept[0].(logicalOperator := None)] else kept
  }

  /** With a valid index, exactly that rule goes, the rest keep their order
      and contents, except that the new first rule loses its operator. */
  lemma RemoveRuleValidIndex(rules: seq<SegmentRule>, index: int)
    requires 0 <= index < |rules|
    ensures var r := RemoveRule(rules, index);
            |r| == |rules| - 1
            && (r == [] || r[0].logicalOperator == None)
            && (forall k :: 0 < k < |r| && k < index ==> r[k] == rules[k])
            && (forall k :: index <= k < |r| && 0 < k ==> r[k] == rules[k + 1])
            && (r != [] ==> r[0] == (if index == 0 then rules[1] else rules[0]).(logicalOperator := None))
  {
    FilterOutIndexDrops(rules, index, 0);
  }

  /** With an index outside the chain nothing is removed, but the first rule
      is still normalised. */
  lemma RemoveRuleOutOfRange(rules: seq<SegmentRule>, index: int)
    requires index < 0 || index >= |rules|
    ensures var r := RemoveRule(rules, index);
            |r| == |rules|
            && (r == [] || r[0] == rules[0].(logicalOperator := None))
            && (forall k :: 0 < k < |r| ==> r[k] == rules[k])
  {
    FilterOutIndexDrops(rules, index, 0);
  }

  /** Removing a rule keeps only operators the chain already held. */
  lemma RemoveRuleUsesMenuOperators(rules: seq<SegmentRule>, index: int)
    requires UsesMenuOperators(rules)
    ensures UsesMenuOperators(RemoveRule(rules, index))
  {
    var r := RemoveRule(rules, index);
    if 0 <= index < |rules| {
      RemoveRuleValidIndex(rules, index);
      forall k | 0 <= k < |r|
        ensures r[k].operator in OperatorMenu
      {
        if k == 0 {
          assert r[0].operator == (if index == 0 then rules[1] else rules[0]).operator;
        } else if k < index {
          assert r[k] == rules[k];
        } else {
          assert r[k] == rules[k + 1];
        }
      }
    } else {
      RemoveRuleOutOfRange(rules, index);
      forall k | 0 <= k < |r|
        ensures r[k].operator in OperatorMenu
      {
        if k == 0 {
          assert r[0].operator == rules[0].operator;
        } else {
          assert r[k] == rules[k];
        }
      }
    }
  }

  /** Removing any rule from a well-formed chain leaves it well formed; in
      particular removing the first rule strips the operator of the new first. */
  lemma RemoveRulePreservesShape(rules: seq<SegmentRule>, index: int)
    requires WellFormedChain(rules)
    ensures WellFormedChain(RemoveRule(rules, index))
  {
    var r := RemoveRule(rules, index);
    if 0 <= index < |rules| {
      RemoveRuleValidIndex(rules, index);
      forall k | 0 <= k < |r|
        ensures r[k].logicalOperator == None <==> k == 0
      {
        if 0 < k && k < index {
          assert r[k] == rules[k];
        } else if 0 < k {
          assert r[k] == rules[k + 1];
        }
      }
    } else {
      RemoveRuleOutOfRange(rules, index);
      forall k | 0 <= k < |r|
        ensures r[k].logicalOperator == None <==> k == 0
      {
        if 0 < k {
          assert r[k] == rules[k];
        }
      }
    }
  }

  /** Starting from the empty chain, any sequence of builder actions keeps the
      chain well formed. */
  datatype Action = Add(now: nat) | Update(row: nat, edit: Edit) | Remove(position: int)

  function Step(rules: seq<SegmentRule>, a: Action): seq<SegmentRule> {
    match a
    case Add(now) => AddRule(rules, now)
    case Update(i, e) => if i < |rules| && IsControlEdit(i, e) then UpdateRule(rules, i, EditPatch(e)) else rules
    case Remove(i) => RemoveRule(rules, i)
  }

  function Run(rules: seq<SegmentRule>, actions: seq<Action>): seq<SegmentRule>
    decreases |actions|
  {
    if |actions| == 0 then rules else Run(Step(rules, actions[0]), actions[1..])
  }

  lemma {:induction false} RunPreservesShape(rules: seq<SegmentRule>, actions: seq<Action>)
    requires WellFormedChain(rules)
    ensures WellFormedChain(Run(rules, actions))
    decreases |actions|
  {
    if |actions| > 0 {
      match actions[0] {
        case Add(now) => AddRulePreservesShape(rules, now);
        case Update(i, e) =>
          if i < |rules| && IsControlEdit(i, e) { ControlEditPreservesShape(rules, i, e); }
        case Remove(i) => RemoveRulePreservesShape(rules, i);
      }
      RunPreservesShape(Step(rules, actions[0]), actions[1..]);
    }
  }

  /** Any sequence of builder actions keeps the chain to the menu's
      operators, so a chain built from the empty one never holds `neq`. */
  lemma {:induction false} RunUsesMenuOperators(rules: seq<SegmentRule>, actions: seq<Action>)
    requires UsesMenuOperators(rules)
    ensures UsesMenuOperators(Run(rules, actions))
    decreases |actions|
  {
    if |actions| > 0 {
      match actions[0] {
        case Add(now) => AddRuleUsesMenuOperators(rules, now);
        case Update(i, e) =>
          if i < |rules| && IsControlEdit(i, e) { ControlEditUsesMenuOperators(rules, i, e); }
        case Remove(i) => RemoveRuleUsesMenuOperators(rules, i);
      }
      RunUsesMenuOperators(Step(rules, actions[0]), actions[1..]);
    }
  }

  /** Built from the empty chain, no rule ever holds `neq`. */
  lemma BuilderNeverProducesNeq(actions: seq<Action>)
    ensures var r := Run([], actions);
            forall k :: 0 <= k < |r| ==> r[k].operator != Neq
  {
    RunUsesMenuOperators([], actions);
    MenuLacksNeq();
  }
}
