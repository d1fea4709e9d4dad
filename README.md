# Mini CRM front end: segment rule builder, audience preview, campaign launch form

This project models the client-side logic of the Mini CRM web front end. Segment
evaluation, audience resolution, persistence and campaign dispatch all run in a
backend that this code reaches only through HTTP calls, so they are not modelled.
What is modelled:

- **Rule chain editing** (`RuleBuilder`). Adding, updating and removing rules of an
  ordered `SegmentRule` list. The list keeps one shape invariant: the first rule has no
  logical operator and every later rule has `AND` or `OR`. `WellFormedChain` states it,
  and it is proved preserved by every builder action, including any sequence of actions.
- **Audience preview** (`AudiencePreview`). This decides when a preview request is sent
  and which size is shown and passed to the `onAudienceSizeChange` listener. It also
  defines the `isValidRules` validator. The panel is a class whose fields are the React
  state (`audienceSize`) plus logs of the requests sent and the sizes reported.
- **Launch-campaign dialog** (`CampaignHistory`). A class over the three form fields:
  dialog open, campaign name and selected segment id. It records the toasts shown and the
  launch requests sent. `handleCreateCampaign` is a method with the source's early
  returns. `Validate` states the guards in their order, and `LaunchEnabled` is the
  button's enable condition.
- **Navigation highlighting** (`Header`). `isActive(href)` matches `/` exactly and every
  other link by string prefix.
- **Recent customers** (`RecentCustomers`). The avatar initials derived from a name, and
  the first-five list selection.
- **JavaScript built-ins** (`JsText`). The built-ins the above relies on, written out:
  `trim`, with the full ECMAScript white-space set; `split` on one character; `join`;
  ASCII `toUpperCase`; `substring`; `slice`; `startsWith`.

Records (`Types`) follow the front end's type declarations. `SegmentRule.value` is
`string | number`, modelled as `Text` or `Num`, and `logicalOperator` is optional.
Operators are the type's six, including `neq`. The builder's own operator menu
(`RuleBuilder.OperatorMenu`) keeps its five options, without `neq`. `Campaign` is
declared as the record type has it. No modelled operation computes on its
counters; the rate displays that do are left out (floating point).

External inputs are parameters. The clock reading behind a new rule's id is `now`.
How a preview request ends is a `PreviewOutcome`. Whether the launch request succeeds
is `serverAccepts`. Whether a launch request is in flight is `pending`.

## Model

| member | source | states |
|---|---|---|
| RuleBuilder.AddRule | src/components/Segment/RuleBuilder.tsx:27-36 | appends exactly one rule: the length grows by one and every earlier rule is unchanged; the new rule is `totalSpent` / `gt` / `''`; its logical operator is absent exactly when the chain was empty, and `AND` otherwise |
| RuleBuilder.AddRulePreservesShape | src/components/Segment/RuleBuilder.tsx:33-35 | adding a rule to a well-formed chain leaves it well formed |
| RuleBuilder.Merge | src/components/Segment/RuleBuilder.tsx:40 | the spread merge: every field the partial rule sets takes its value (an explicit `undefined` logical operator included), and every other field keeps the old value |
| RuleBuilder.UpdateRule | src/components/Segment/RuleBuilder.tsx:38-42 | the length is preserved; only element `index` changes, to the merge of the old rule and the patch |
| RuleBuilder.ControlEditPreservesShape | src/components/Segment/RuleBuilder.tsx:62-106 | every edit the row controls can send (AND/OR menu only from the second row, a field or operator from its menu, text value) keeps a well-formed chain well formed |
| RuleBuilder.UpdateRuleDoesNotGuardShape | src/components/Segment/RuleBuilder.tsx:38-41 | `updateRule` does not enforce the invariant by itself: setting an operator on the first rule breaks it, and only the UI's not offering that prevents it |
| RuleBuilder.MenuLacksNeq | src/components/Segment/RuleBuilder.tsx:18-24 | the operator menu does not offer `neq`, so a chain of menu operators holds no `neq` rule |
| RuleBuilder.AddRuleUsesMenuOperators | src/components/Segment/RuleBuilder.tsx:27-36 | adding a rule, to any chain including the empty one, keeps every operator a menu operator |
| RuleBuilder.ControlEditUsesMenuOperators | src/components/Segment/RuleBuilder.tsx:87-97 | an edit from the row controls keeps every operator a menu operator |
| RuleBuilder.RemoveRuleUsesMenuOperators | src/components/Segment/RuleBuilder.tsx:44-51 | removing a rule, at any index, keeps every operator a menu operator |
| RuleBuilder.RunUsesMenuOperators | src/components/Segment/RuleBuilder.tsx:27-97 | any sequence of add, control-edit and remove actions keeps every operator a menu operator |
| RuleBuilder.BuilderNeverProducesNeq | src/components/Segment/RuleBuilder.tsx:18-97 | a chain built from the empty one by any sequence of builder actions holds no `neq` rule |
| RuleBuilder.FilterOutIndexDrops | src/components/Segment/RuleBuilder.tsx:45 | the index filter removes exactly the element at `index` when it is in range, and nothing otherwise |
| RuleBuilder.RemoveRuleValidIndex | src/components/Segment/RuleBuilder.tsx:44-51 | with a valid index the length shrinks by one; the other rules keep their order and contents; the new first rule is the old first (or second, when the first was removed) with its logical operator cleared |
| RuleBuilder.RemoveRuleOutOfRange | src/components/Segment/RuleBuilder.tsx:45-49 | with an out-of-range index the length is unchanged, but the first rule is still normalised |
| RuleBuilder.RemoveRulePreservesShape | src/components/Segment/RuleBuilder.tsx:45-49 | removing any rule from a well-formed chain leaves it well formed |
| RuleBuilder.RunPreservesShape | src/components/Segment/RuleBuilder.tsx:27-51 | any sequence of add, control-edit and remove actions keeps a well-formed chain well formed |
| AudiencePreview.ValidRulesIffRequested | src/components/Segment/AudiencePreview.tsx:106-108 | `isValidRules` holds iff the chain is non-empty and every rule has a value other than `''`; the field and operator truthiness tests always pass, so it coincides with the request condition of line 85 |
| AudiencePreview.SizeFromOutcome | src/components/Segment/AudiencePreview.tsx:93-104 | a thrown request, a missing `data`, a missing size and a size of 0 all give 0; any non-zero result is the size the response carried |
| AudiencePreview.TopLevelSizeNotRead | src/components/Segment/AudiencePreview.tsx:96 | only `data.audienceSize` is read: a body with the size at top level and no `data` shows 0 |
| AudiencePreview.EmptyChainShowsZero | src/components/Segment/AudiencePreview.tsx:85-90 | an empty chain sends no request and shows 0 |
| AudiencePreview.EmptyValueShowsZero | src/components/Segment/AudiencePreview.tsx:85-90 | any rule with value `''` suppresses the request and shows 0 |
| AudiencePreview.NumericZeroIsAValue | src/components/Segment/AudiencePreview.tsx:85 | a numeric value 0 counts as a value and does not suppress the request |
| AudiencePreview.NonZeroSizeNeedsResponse | src/components/Segment/AudiencePreview.tsx:84-104 | a non-zero size is shown only for a valid chain whose request returned that size |
| AudiencePreview.AddedRuleSuppressesPreview | src/components/Segment/AudiencePreview.tsx:85 | right after `addRule` the chain ends in an empty value, so no request is sent and 0 is shown |
| AudiencePreview.Panel.constructor | src/components/Segment/AudiencePreview.tsx:80-82 | the panel starts at size 0, with nothing sent or reported |
| AudiencePreview.Panel.Show | src/components/Segment/AudiencePreview.tsx:97-98 | sets the shown size and passes the same size to the listener, if any; the listener's last size equals the shown size |
| AudiencePreview.Panel.HandlePreview | src/components/Segment/AudiencePreview.tsx:93-104 | sends the current chain once, then shows and reports the size the outcome gives |
| AudiencePreview.Panel.RulesChanged | src/components/Segment/AudiencePreview.tsx:84-91 | on a chain change: a request is sent iff the request condition holds; the shown size is then the outcome's size, otherwise 0; the listener receives the shown size |
| AudiencePreview.Panel.ShowsHint | src/components/Segment/AudiencePreview.tsx:131-135 | the "Add segment rules" hint is shown exactly when no preview request would be sent |
| CampaignHistory.Validate | src/pages/CampaignHistory.tsx:47-62 | the name is checked first: a name that trims to `''` is refused on the name; otherwise an empty segment id is refused on the segment; otherwise the request may go out, carrying the segment id and the trimmed name |
| CampaignHistory.BlankNameRejected | src/pages/CampaignHistory.tsx:48-51 | a blank or white-space-only name is refused with the name message, whatever the segment |
| CampaignHistory.MissingSegmentReportedAfterName | src/pages/CampaignHistory.tsx:48-56 | with a name holding a visible character and no segment, the segment message is the one reported |
| CampaignHistory.PayloadNameIsTrimmed | src/pages/CampaignHistory.tsx:59-62 | the payload carries the selected, non-empty segment id and a non-empty name with no white space at either end |
| CampaignHistory.LaunchEnabledMatchesGuards | src/pages/CampaignHistory.tsx:178-181 | the launch button is enabled iff no request is pending and both guards of the handler pass |
| CampaignHistory.LaunchCampaignForm.constructor | src/pages/CampaignHistory.tsx:39-41 | the dialog starts closed, with an empty name and no segment |
| CampaignHistory.LaunchCampaignForm.SetOpen | src/pages/CampaignHistory.tsx:97 | opening or closing the dialog changes nothing else |
| CampaignHistory.LaunchCampaignForm.Cancel | src/pages/CampaignHistory.tsx:171-176 | Cancel closes the dialog unless a request is pending, and changes nothing else |
| CampaignHistory.LaunchCampaignForm.TypeName | src/pages/CampaignHistory.tsx:146 | typing sets the name and changes nothing else |
| CampaignHistory.LaunchCampaignForm.SelectSegment | src/pages/CampaignHistory.tsx:152 | choosing a segment sets the segment id and changes nothing else |
| CampaignHistory.LaunchCampaignForm.HandleCreateCampaign | src/pages/CampaignHistory.tsx:47-72 | exactly one toast is shown: the guard's error, the success message or "Failed to create campaign"; a request carrying exactly the validated payload is sent only when both guards pass; the dialog closes and name and segment reset to `''` only on success; otherwise the form is left as it was |
| CampaignHistory.LaunchCampaignForm.Submitted | src/pages/CampaignHistory.tsx:58-71 | after the request: on success the success toast, dialog closed, name and segment reset to `''`; on failure the failure toast and no field changed |
| Header.IsActive | src/components/Layout/Header.tsx:35-40 | for `href == '/'` the link is active iff the path is exactly `/`; for any other `href` it is active iff the path's first characters are `href` |
| Header.HomeOnlyOnHome | src/components/Layout/Header.tsx:36-38 | the home link is inactive on every other path |
| Header.HomeNotActiveOnCampaigns | src/components/Layout/Header.tsx:36-39 | `/` is not active on `/campaigns`, even though it is a prefix of it |
| Header.PrefixMatchIsCharacterBased | src/components/Layout/Header.tsx:39 | matching is by characters, not by path segments: `/camp` is active on `/campaigns`, `/campaigns` on `/campaigns/42`, and `/campaigns` is not active on `/create-segment` |
| Header.ActiveClosedUnderPrefix | src/components/Layout/Header.tsx:39 | if a non-home link is active, so is every non-home link whose `href` is a prefix of its `href` |
| Header.OnlyHomeOnHomePage | src/components/Layout/Header.tsx:35-40 | on `/` no non-empty link other than `/` is active |
| JsText.TrimStartSpec | src/pages/CampaignHistory.tsx:48 | trimming the start drops only leading white space and stops at the first other character |
| JsText.TrimEndSpec | src/pages/CampaignHistory.tsx:48 | trimming the end drops only trailing white space and stops at the last other character |
| JsText.TrimEmptyIff | src/pages/CampaignHistory.tsx:48 | a string trims to `''` iff all its characters are white space |
| JsText.TrimEnds | src/pages/CampaignHistory.tsx:61 | a trimmed string has no white space at either end, and trimming it again changes nothing |
| JsText.JoinSplit | src/components/Data/RecentCustomers.tsx:32 | splitting on a character and joining on it gives back the original string |
| RecentCustomers.FirstCharsAreWordStarts | src/components/Data/RecentCustomers.tsx:31-34 | the joined first characters of the space-separated pieces are exactly the characters that start a word; empty pieces contribute nothing |
| RecentCustomers.InitialsSpec | src/components/Data/RecentCustomers.tsx:30-37 | the initials have at most two characters and are the upper-cased first characters of the first two words |
| RecentCustomers.NoWordsNoInitials | src/components/Data/RecentCustomers.tsx:32-34 | a run of spaces has no word starts |
| RecentCustomers.BlankNameHasNoInitials | src/components/Data/RecentCustomers.tsx:31-36 | an empty or all-space name gives `''` |
| RecentCustomers.TrailingSpaceIgnored | src/components/Data/RecentCustomers.tsx:32-34 | a trailing space adds no word start |
| RecentCustomers.SurroundingSpacesIgnored | src/components/Data/RecentCustomers.tsx:31-36 | a leading or a trailing space does not change the initials |
| RecentCustomers.TwoWordExample | src/components/Data/RecentCustomers.tsx:30-37 | `"al b"` gives `"AB"` |
| RecentCustomers.DisplayedAreFirstFive | src/components/Data/RecentCustomers.tsx:71 | the card lists the first `min(5, n)` customers, in their original order |
| RecentCustomers.EmptyMessageIffNothingDisplayed | src/components/Data/RecentCustomers.tsx:70-101 | the "No customers yet" message shows exactly when the displayed list is empty |

## Left out

- Rule evaluation, audience resolution, segment and campaign persistence, and campaign dispatch: the front end only posts JSON for these (src/services/api.ts:139-161), so there is nothing client-side to model. `Types.Campaign` is declared, but no contract speaks of its counters or status transitions.
- Network, cookies, local storage, redirects and toasts are not modelled as I/O. A request's result is a parameter; toasts and requests are appended to logs on the form and panel objects.
- React scheduling: each effect and handler runs to completion in one step. The model does not capture overlapping preview requests whose responses arrive out of order, or stale state captured by closures.
- RuleBuilder.UpdateRule: requires an index inside the chain, since every caller passes the index of a rendered row. JavaScript would create holes for an out-of-range index.
- RuleBuilder.RuleId: the id comes from the clock (`Date.now()`), passed in as `now`. Two rules added in the same millisecond get the same id; this is not modelled further.
- AudiencePreview.SizeFromOutcome: the size is an integer. `NaN` and fractional sizes, which JavaScript numbers allow (`NaN` is falsy), are not modelled.
- `SegmentRule.value` as a number is a `real`: floating-point rounding and `NaN` are not modelled.
- JsText.ToUpper: maps only ASCII letters. Non-ASCII case mapping, including mappings that change the length, is not modelled.
- `n[0]` on a name reads one UTF-16 code unit. The model reads one Unicode scalar value, so the surrogate halves of astral characters are not modelled.
- The field, operator and logical-operator menus are closed enumerations. Unknown tags arriving from outside cannot be represented.
- Success, failure and completion percentages, date and relative-time formatting, currency formatting, status-to-style tables and all rendering are left out: they use floating point, the wall clock, `Intl`, or are presentation only.
- The launch request itself: `useCreateCampaign` (src/hooks/useApi.ts:43) calls `campaignAPI.launchCampaign`, which src/services/api.ts:154-161 does not define (it defines `createCampaign`). As written, every launch would then throw and end in "Failed to create campaign". The model keeps the request's result as the parameter `serverAccepts` and does not decide which way the service behaves.
- The preview response's shape: src/hooks/useApi.ts:26 describes the body as `{ audienceSize }` with no `data` member, and the older version in src/components/Segment/AudiencePreview.tsx:26 read `response.audienceSize`. If the service answers that way, the panel always shows 0 (`AudiencePreview.TopLevelSizeNotRead`). The model follows the code as written, reading `data.audienceSize`, because the service's real response is not part of this model.
- The customer and order dialogs, authentication, route protection, the `useApi` wrappers, the dead commented-out code and the static placeholder pages are not part of this model.
