/** The audience preview panel: when the rule chain changes it either asks
    the backend how many customers match or shows 0, and it reports every
    size it shows to its optional `onAudienceSizeChange` listener. */
module AudiencePreview {
  import opened Types
  import RuleBuilder

  /** `rule.value !== ''`: only the empty string is an empty value; the
      number 0 is not. */
  predicate HasValue(rule: SegmentRule) {
    rule.value != Text("")
  }

  /** The condition under which the effect issues a preview request. */
  predicate ShouldRequestPreview(rules: seq<SegmentRule>) {
    |rules| > 0 && forall k :: 0 <= k < |rules| ==> HasValue(rules[k])
  }

  /** JavaScript truthiness of a string. */
  predicate Truthy(s: string) {
    s != ""
  }

  /** `isValidRules`: a non-empty chain whose every rule has a truthy field
      tag, a truthy operator tag and a value other than `''`. */
  predicate IsValidRules(rules: seq<SegmentRule>) {
    |rules| > 0 &&
    forall k :: 0 <= k < |rules| ==>
      Truthy(rules[k].field.Name()) && Truthy(rules[k].operator.Name()) && HasValue(rules[k])
  }

  /** Because every field and operator tag is a non-empty string, the
      validator and the request condition agree on every chain. */
  lemma ValidRulesIffRequested(rules: seq<SegmentRule>)
    ensures IsValidRules(rules) <==> ShouldRequestPreview(rules)
  {
  }

  /** The `data` member of a preview response. */
  datatype PreviewData = PreviewData(audienceSize: Option<int>)

  /** A preview response body: the panel reads only `data.audienceSize`; a
      top-level `audienceSize` is kept here to show that it is not read. */
  datatype PreviewBody = PreviewBody(audienceSize: Option<int>, data: Option<PreviewData>)

  /** How the preview request ended: with a response body, or with a thrown
      error. */
  datatype PreviewOutcome = Responded(body: PreviewBody) | Threw

  /** `response.data?.audienceSize || 0`, and 0 when the request threw: a
      missing `data`, a missing size and a size of 0 all show as 0. */
  function SizeFromOutcome(outcome: PreviewOutcome): (size: int)
    ensures outcome == Threw ==> size == 0
    ensures outcome.Responded? && outcome.body.data == None ==> size == 0
    ensures outcome.Responded? && outcome.body.data == Some(PreviewData(None)) ==> size == 0
    ensures size != 0 <==> outcome.Responded? && outcome.body.data.Some?
                           && outcome.body.data.value.audienceSize.Some?
                           && outcome.body.data.value.audienceSize.value != 0
    ensures size != 0 ==> outcome.body.data == Some(PreviewData(Some(size)))
  {
    match outcome
    case Threw => 0
    case Responded(PreviewBody(_, None)) => 0
    case Responded(PreviewBody(_, Some(PreviewData(None)))) => 0
    case Responded(PreviewBody(_, Some(PreviewData(Some(n))))) => if n != 0 then n else 0
  }

  /** A body that carries the size at top level and has no `data` member
      shows 0, whatever the size. */
  lemma TopLevelSizeNotRead(n: int)
    ensures SizeFromOutcome(Responded(PreviewBody(Some(n), None))) == 0
  {
  }

  /** The size the panel settles on after the chain changes to `rules`, the
      request (when one is made) ending with `outcome`. */
  function SettledSize(rules: seq<SegmentRule>, outcome: PreviewOutcome): int {
    if ShouldRequestPreview(rules) then SizeFromOutcome(outcome) else 0
  }

  /** An empty chain shows 0 whatever the backend would have said. */
  lemma EmptyChainShowsZero(outcome: PreviewOutcome)
    ensures !ShouldRequestPreview([])
    ensures SettledSize([], outcome) == 0
  {
  }

  /** A single rule with an empty value suppresses the request and shows 0;
      a numeric 0 value does not. */
  lemma EmptyValueShowsZero(rules: seq<SegmentRule>, k: nat, outcome: PreviewOutcome)
    requires k < |rules| && rules[k].value == Text("")
    ensures !ShouldRequestPreview(rules)
    ensures SettledSize(rules, outcome) == 0
  {
  }

  lemma NumericZeroIsAValue(rule: SegmentRule)
    requires rule.value == Num(0.0)
    ensures ShouldRequestPreview([rule])
  {
  }

  /** A non-zero size is shown only for a requested chain whose request came
      back with that size. */
  lemma NonZeroSizeNeedsResponse(rules: seq<SegmentRule>, outcome: PreviewOutcome)
    requires SettledSize(rules, outcome) != 0
    ensures IsValidRules(rules)
    ensures outcome.Responded?
    ensures outcome.body.data == Some(PreviewData(Some(SettledSize(rules, outcome))))
  {
  }

  /** A rule just added by the builder has an empty value, so the chain it
      ends is never sent for preview and the panel shows 0 until a value is
      typed into that rule. */
  lemma AddedRuleSuppressesPreview(rules: seq<SegmentRule>, now: nat, outcome: PreviewOutcome)
    ensures !ShouldRequestPreview(RuleBuilder.AddRule(rules, now))
    ensures SettledSize(RuleBuilder.AddRule(rules, now), outcome) == 0
  {
  }

  /** The panel's state. `requests` lists the chains sent for preview and
      `reported` the sizes handed to the listener, in order. */
  class Panel {
    var rules: seq<SegmentRule>
    var audienceSize: int
    const hasListener: bool
    var reported: seq<int>
    var requests: seq<seq<SegmentRule>>

    /** The listener, when there is one, has last been told the shown size. */
    predicate Valid()
      reads this
    {
      (hasListener ==> reported == [] || reported[|reported| - 1] == audienceSize)
      && (!hasListener ==> reported == [])
    }

    /** The panel before its first effect: size 0, nothing sent or reported. */
    constructor (rules: seq<SegmentRule>, hasListener: bool)
      ensures Valid()
      ensures this.rules == rules && this.hasListener == hasListener
      ensures audienceSize == 0 && reported == [] && requests == []
    {
      this.rules := rules;
      this.hasListener := hasListener;
      audienceSize := 0;
      reported := [];
      requests := [];
    }

    /** Sets the shown size and tells the listener, if any. */
    method Show(size: int)
      requires Valid()
      modifies this
      ensures Valid()
      ensures audienceSize == size
      ensures reported == old(reported) + (if hasListener then [size] else [])
      ensures rules == old(rules) && requests == old(requests)
    {
      audienceSize := size;
      if hasListener {
        reported := reported + [size];
      }
    }

    /** `handlePreview`: send the chain, then show the size the outcome gives. */
    method HandlePreview(outcome: PreviewOutcome)
      requires Valid()
      modifies this
      ensures Valid()
      ensures requests == old(requests) + [rules]
      ensures audienceSize == SizeFromOutcome(outcome)
      ensures reported == old(reported) + (if hasListener then [audienceSize] else [])
      ensures rules == old(rules)
    {
      requests := requests + [rules];
      match outcome {
        case Threw =>
          Show(0);
        case Responded(body) =>
          var data := body.data;
          var size := if data.Some? && data.value.audienceSize.Some? && data.value.audienceSize.value != 0
                      then data.value.audienceSize.value else 0;
          Show(size);
      }
    }

    /** The effect that runs whenever the chain changes (and on mount). */
    method RulesChanged(newRules: seq<SegmentRule>, outcome: PreviewOutcome)
      requires Valid()
      modifies this
      ensures Valid()
      ensures rules == newRules
      ensures audienceSize == SettledSize(newRules, outcome)
      ensures requests == old(requests) + (if ShouldRequestPreview(newRules) then [newRules] else [])
      ensures reported == old(reported) + (if hasListener then [audienceSize] else [])
    {
      rules := newRules;
      if |rules| > 0 && forall k :: 0 <= k < |rules| ==> rules[k].value != Text("") {
        HandlePreview(outcome);
      } else {
        Show(0);
      }
    }

    /** Whether the "Add segment rules to preview audience size" hint shows. */
    function ShowsHint(): (shown: bool)
      reads this
      ensures shown <==> !ShouldRequestPreview(rules)
    {
      ValidRulesIffRequested(rules);
      !IsValidRules(rules)
    }
  }
}
