# condition-builder in Dafny

A model of the core of `condition-builder`. The library builds nested boolean
filter expressions such as `a=b or (c<d and e~*f)` out of `key operator value`
leaves joined by `and`/`or`. It renders them as text, snapshots them as plain
records, and rebuilds a condition from such a snapshot.

Five modules, one per concept:

- `Wrappers` (wrappers.dfy) holds `Option`, `Result` and the three errors the
  builders raise: a rejected validation, an unknown slot index, and a record
  with no payload.
- `Expressions` (expression.dfy) models `Expression` from src/expression.ts:
  - the operator names and the PostgreSQL symbol table;
  - validation at construction;
  - `toJSON`;
  - the layered `toString`, where a truthy `renderExpression` answer wins,
    and otherwise each hook resolves call site, then instance, then built-in
    default.
- `Slots` (slots.dfy) holds what the two builders share:
  - a slot carries one payload (a leaf, or a nested builder's slots) and the
    join written after it;
  - the retroactive append rule: the previous last slot takes the new join,
    then a slot with that join is pushed;
  - the text rendering, `reduce`, then `slice(0, -1)`, then `join(" ")`.
- `Conditions` (condition.dfy) models `Condition` from src/condition.ts:
  - a class whose `content` field the builder methods update in place;
  - the record snapshot (`toJSON`/`dump`);
  - `restore`, which is a static method. Its `for` loop is proved against the
    replay function `Replay`.
- `Groups` (group.dfy) models `Group` from src/group.ts, the older builder:
  - the same append rule and text;
  - a constructor `operator` that nothing reads (the `reads` frames of
    `ToJSON`/`ToString` leave it out);
  - a restricted hook set handed to its leaves;
  - an alternating `toJSON` array.

A nested condition or group is held as a snapshot of its slots, taken when it
is attached. Attaching requires `child != this`.

### Behaviour of the source worth knowing

- The match operators render as `~*` and `!~*`; only `ltree` renders as `~`
  (src/expression.ts:33-39).
- `restore` replays each record with that record's own join name
  (src/condition.ts:135). Its doc comment reads "Oposite of `dump`."
  (src/condition.ts:125), but in the restored condition slot i carries
  record i+1's join, except that the last slot keeps its own join and, in a
  nested list, slot 0 gets its own join back (src/condition.ts:137-139);
  `Conditions.ReplayShiftsJoins` states this exactly. An empty nested list,
  as `new Condition().and(new Condition())` dumps, makes `restore` read a
  missing first record and throw. The model follows the code, and both
  discrepancies are recorded under Findings together with a corrected
  replay.
- `#addExpression` overwrites the previous slot's join before the new leaf is
  constructed and validated (src/condition.ts:52-56). A rejected leaf
  therefore still leaves that overwrite behind, and the last two joins can
  then differ.

## Model

| member | source | states |
|---|---|---|
| Expressions.SymbolTableShape | src/expression.ts:5-40 | the symbol table has exactly the 15 operator names as keys and no empty symbol |
| Expressions.NewExpression | src/expression.ts:110-121 | an expression exists iff the validator (if any) accepts `{key, operator, value}`; it keeps fields and hooks; a rejection is `ValidationFailed` |
| Expressions.ValidationExample | src/expression.ts:116-120 | a key-checking validator admits `foo` and rejects `baz` |
| Expressions.ToJSONIgnoresOptions | src/expression.ts:124-130 | the snapshot is exactly key, operator and value, independent of the hooks |
| Expressions.Expression.ToJSON | src/expression.ts:124-130 | the snapshot `{key, operator, value}`; its independence from the hooks is stated by `ToJSONIgnoresOptions` |
| Expressions.Symbol | src/expression.ts:150-151 | a known operator renders as its table symbol, an unknown one as itself |
| Expressions.Show | src/expression.ts:133-156 | `toString(options)`: a truthy `renderExpression` answer (call site over instance) is the whole text; with no rendering hooks anywhere the text is key + symbol + value |
| Expressions.ShowIsLayered | src/expression.ts:133-156 | without a truthy whole-expression answer, key, operator and value renderers each resolve call site, then instance, then default, and are concatenated with no separator |
| Expressions.ShowShortCircuits | src/expression.ts:141-146 | a non-empty `renderExpression` answer is the whole text |
| Expressions.ShowFalsyFallsThrough | src/expression.ts:141-146 | a falsy `renderExpression` answer renders as if no such hook were set |
| Expressions.CallSiteMasksInstance | src/expression.ts:134-137 | call-site hooks for every role make the instance hooks irrelevant |
| Expressions.InstanceHooksActAsCallSite | src/expression.ts:134-137 | instance hooks act exactly like the same hooks given at the call site |
| Expressions.ShowDefaults | src/expression.ts:148-155 | with no rendering hooks the text is key + symbol + value, and an unknown operator is emitted verbatim |
| Expressions.ShowExamples | src/expression.ts:24-40 | `eq`, `like`, `match`, `nis` and an unknown `==` render as `foo=bar`, `foo ilike bar`, `foo~*bar`, `foo is not bar`, `foo==bar` |
| Slots.SetLast | src/condition.ts:41-44 | only the last slot's join changes, and an empty sequence is untouched |
| Slots.Append | src/condition.ts:46-59 | one slot is added with the new join and payload, the previous last slot takes the new join, the others are unchanged |
| Slots.BuildShape | src/condition.ts:41-59 | after any sequence of successful appends, slot i holds payload i and append i+1's join; the last two slots always share a join |
| Slots.Build | src/condition.ts:46-59 | the slots after a sequence of successful appends, one per payload |
| Slots.RenderUnfold | src/condition.ts:151-169 | the text is slot texts separated by `" " + join + " "` of the earlier slot, the last join never emitted |
| Slots.RenderIgnoresLastJoin | src/condition.ts:165-167 | the last slot's join never reaches the text |
| Slots.RenderAppend | src/condition.ts:151-169 | appending with join j extends the text by `" j "` and the new payload's text (treated as the whole text when empty) |
| Slots.RenderSingleLeafSub | src/condition.ts:158-160 | a nested condition is parenthesised even when it holds one leaf |
| Slots.Text | src/condition.ts:155-161 | a leaf renders with its own hooks; a nested condition renders as its text in parentheses, so it starts with `(` and ends with `)` |
| Slots.Render | src/condition.ts:151-169 | `toString` of a slot sequence: "" when empty, the one slot's text when there is one |
| Slots.RenderTwo | src/condition.ts:151-169 | two slots render as the first text, the first join word between spaces, and the second text |
| Slots.RenderThree | src/condition.ts:151-169 | three slots render as three texts separated by the first two join words; the last join is never shown |
| Conditions.DumpSlot | src/condition.ts:116-118 | a record keeps the slot's join and exactly the payload the slot has |
| Conditions.Dump | src/condition.ts:116-118 | one record per slot, in order |
| Conditions.RestorePayload | src/condition.ts:136-144 | a nested record list wins over an expression; a record with neither is `Malformed` |
| Conditions.Replay | src/condition.ts:131-145 | a successful replay yields one slot per record; its only error is `Malformed` |
| Conditions.Condition.constructor | src/condition.ts:32-39 | a new condition is empty and keeps its hook set |
| Conditions.Condition.SetPreviousAs | src/condition.ts:41-44 | the content becomes `SetLast` of the old content |
| Conditions.Condition.AddExpression | src/condition.ts:46-59 | on acceptance the leaf is appended; on rejection the result is `ValidationFailed` and only the previous slot's join has changed |
| Conditions.Condition.AddCondition | src/condition.ts:61-69 | the child takes this condition's hook set and keeps its slots; a snapshot of them is appended |
| Conditions.Condition.And | src/condition.ts:78-86 | `and(key, op, value)` is `#addExpression` with join `and` |
| Conditions.Condition.AndCondition | src/condition.ts:78-86 | `and(condition)` is `#addCondition` with join `and` |
| Conditions.Condition.Or | src/condition.ts:95-103 | `or(key, op, value)` is `#addExpression` with join `or` |
| Conditions.Condition.OrCondition | src/condition.ts:95-103 | `or(condition)` is `#addCondition` with join `or` |
| Conditions.Condition.SetOperator | src/condition.ts:106-113 | an existing index gets the new join and nothing else changes; any other index gives `IndexNotFound(index)` and leaves the content unchanged |
| Conditions.Condition.ToJSON | src/condition.ts:116-118 | one record per slot, well-formed exactly when no nested condition is empty |
| Conditions.Condition.ToString | src/condition.ts:151-169 | "" when empty, otherwise the first slot's text, its join word and the rest |
| Conditions.Condition.Restore | src/condition.ts:126-148 | the loop's result is a fresh hook-less condition whose content is `Replay(dump)`, or `Malformed` exactly when the replay fails |
| Conditions.ReplayFailsOnPrefix | src/condition.ts:131-134 | a failure on a prefix aborts the whole restore |
| Conditions.ReplayShape | src/condition.ts:131-145 | replay succeeds iff every record does; slot i then holds record i's payload with record i+1's join |
| Conditions.ReplayFails | src/condition.ts:132-134 | restore throws exactly when some record at any depth has neither payload |
| Conditions.RestorePayloadFails | src/condition.ts:132-144 | one record fails exactly when it, or a record nested in it, has neither payload |
| Conditions.ReplayHookFree | src/condition.ts:127-143 | every restored leaf has the empty hook set |
| Conditions.WellFormedIsRestorable | src/condition.ts:137 | every snapshot of a condition with no empty nested condition meets restore's non-empty-nested requirement |
| Conditions.DumpWellFormed | src/condition.ts:116-118 | a snapshot is well-formed exactly when no nested condition is empty |
| Conditions.DumpSlotJoin | src/condition.ts:116-118 | changing a slot's join changes only its record's join |
| Conditions.ReplayShiftsJoins | src/condition.ts:135-143 | restoring a well-formed dump gives slot i record i+1's join, the last slot its own join, and slot 0 of a nested list its own join |
| Conditions.RestoredBody | src/condition.ts:136-144 | one restored record has the same payload as the dumped one, nested joins shifted |
| Conditions.ShiftedCopyExact | src/condition.ts:135-143 | a shifted copy equals the original iff the joins are steady |
| Conditions.ShiftedBodyExact | src/condition.ts:136-140 | a shifted record equals the original up to its join iff its nested joins are steady |
| Conditions.RestoreRoundTrip | src/condition.ts:126-148 | restore then toJSON gives back a well-formed dump iff its joins are steady (equal from slot 0 on, and from slot 1 on in nested lists) |
| Conditions.ConditionRoundTrip | src/condition.ts:116-148 | a condition survives toJSON then restore iff its dumped joins are steady |
| Conditions.RestoreCounterexample | src/condition.ts:135 | `and(a).or(b).and(c)` dumps joins [or, and, and] and restores as [and, and, and] |
| Conditions.RestoreTextCounterexample | src/condition.ts:135 | `a=b or c!=d and e<f` restores to the text `a=b and c!=d and e<f` |
| Conditions.ShiftExampleBuilt | src/condition.ts:78-103 | the calls `and`, `or`, `and` build the slots of that example |
| Conditions.IntendedPayloadsAt | src/condition.ts:136-144 | the corrected restore rebuilds each record's payload exactly |
| Conditions.IntendedPayloadBody | src/condition.ts:136-144 | the corrected restore rebuilds one record exactly |
| Conditions.RestoreIntendedRoundTrip | src/condition.ts:126-148 | the corrected restore is an exact inverse of toJSON on every record list with one payload per record, empty nested lists included |
| Conditions.DumpSinglePayload | src/condition.ts:116-118 | every condition's snapshot has one payload per record at every depth |
| Conditions.DumpSlotSinglePayload | src/condition.ts:116-118 | every slot's record has one payload at every depth |
| Conditions.IntendedRoundTripOnDumps | src/condition.ts:116-148 | with the corrected restore, toJSON after restore gives back every condition's snapshot |
| Conditions.EmptyNestedCounterexample | src/condition.ts:137 | `and(new Condition())` dumps an empty nested list that restore as written cannot replay and the corrected restore gives back |
| Conditions.RestoreIntended | src/condition.ts:126-148 | the corrected restore: one slot per record, each with exactly its recorded join; its only error is `Malformed` |
| Conditions.IntendedJoins | src/condition.ts:135 | with the previous record's join on each append and a final `setOperator` on the last slot, the corrected replay's slot i holds payload i with record i's own join |
| Conditions.RestoreIntendedHookFree | src/condition.ts:127-143 | the corrected restore builds only hook-less leaves |
| Conditions.HookFreeIsPlain | src/condition.ts:143 | leaves with no hooks carry no rendering hooks |
| Conditions.RenderByDump | src/condition.ts:116-169 | without rendering hooks, two conditions with equal snapshots render equal text |
| Conditions.TextByDump | src/condition.ts:155-161 | without rendering hooks, one slot's text is determined by its record |
| Conditions.RestoreIntendedKeepsText | src/condition.ts:126-169 | the corrected restore reproduces the text of every hook-less condition, empty nested conditions included |
| Conditions.RestoreKeepsTextWhenSteady | src/condition.ts:126-169 | restore as written reproduces the text when the dumped joins are steady |
| Conditions.ChainBuilt | src/condition.ts:78-103 | the three-level `and`/`or` chain holds the slots and joins the retroactive rule gives |
| Conditions.LeafTexts | src/expression.ts:148-155 | the example leaves render as `a=b`, `c!=d`, `e<f`, `g=h`, `i~*j`, `k!~*l` |
| Conditions.ChainInnerText | src/condition.ts:151-169 | the innermost level renders as `i~*j and k!~*l` |
| Conditions.ChainMiddleText | src/condition.ts:151-169 | the middle level renders as `e<f and g=h or (inner)` |
| Conditions.ChainText | src/condition.ts:151-169 | the top level renders as `a=b or c!=d or (middle)` |
| Conditions.ChainShape | src/condition.ts:116-118 | the chain has no empty nested condition and no rendering hooks |
| Conditions.ChainSteady | src/condition.ts:135-143 | the chain's dumped joins are steady |
| Conditions.ChainRoundTrip | src/condition.ts:116-169 | the chain survives toJSON then restore, as a snapshot and as text |
| Groups.LeafOptions | src/group.ts:14-40 | a group's leaf gets its key, value and operator hooks and no validator or whole-expression hook |
| Groups.ItemOf | src/group.ts:81 | a leaf contributes its `{key, operator, value}` and a nested group its own array |
| Groups.GroupJson | src/group.ts:76-85 | `toJSON` of a slot sequence: 2n-1 items for n slots, none when empty |
| Groups.GroupJsonShape | src/group.ts:76-85 | toJSON has 2n-1 items for n slots (none when empty), payloads at even positions, and slot i's join at position 2i+1 |
| Groups.GroupJsonNested | src/group.ts:81 | a nested group serialises recursively, in payload position |
| Groups.GroupJsonIgnoresLastJoin | src/group.ts:84 | the last slot's join never reaches toJSON |
| Groups.GroupJsonAppend | src/group.ts:76-85 | an append extends toJSON by the new join and payload and keeps everything before |
| Groups.Group.constructor | src/group.ts:14-23 | a new group is empty with operator `and` by default and keeps its options |
| Groups.Group.SetPreviousAs | src/group.ts:25-28 | the content becomes `SetLast` of the old content |
| Groups.Group.AddExpression | src/group.ts:30-43 | the leaf, built with the group's leaf hooks, is appended retroactively and never fails |
| Groups.Group.AddGroup | src/group.ts:45-50 | the child's `options.expression` becomes this group's; its slots are kept and appended as a snapshot |
| Groups.Group.And | src/group.ts:54-62 | `and(key, op, value)` is `#addExpression` with join `and` |
| Groups.Group.AndGroup | src/group.ts:54-62 | `and(group)` is `#addGroup` with join `and` |
| Groups.Group.Or | src/group.ts:66-74 | `or(key, op, value)` is `#addExpression` with join `or` |
| Groups.Group.OrGroup | src/group.ts:66-74 | `or(group)` is `#addGroup` with join `or` |
| Groups.Group.ToJSON | src/group.ts:76-85 | the alternating array: payloads at even positions, joins between them at odd positions |
| Groups.Group.ToString | src/group.ts:87-100 | the same reduce/slice/join as `Condition`, parentheses around nested groups: "" when empty, otherwise the first slot's text, its join word and the rest |
| Groups.TwoLeavesJson | src/group.ts:76-85 | `and(foo eq bar).or(baz neq bat)` serialises as `[{foo,eq,bar}, or, {baz,neq,bat}]` |
| Groups.TwoLeavesText | src/group.ts:87-100 | the same group renders as `foo=bar or baz!=bat` |
| Groups.GroupUsage | src/group.ts:40-47 | after attaching, the child has the parent's empty hooks, yet its earlier leaf still renders with its own value hook |

## Left out

- JSON text: `dump()` and the string overload of `restore` go through `JSON.stringify`/`JSON.parse`. The model works on the record structure itself, which is what `toJSON` returns.
- Values are opaque strings. JavaScript's `${value}` conversion of arbitrary values, and `${key}` of non-strings, are not modelled.
- The symbol lookup `OPERATOR_SYMBOL[operator]` is a plain map lookup. Prototype-chain names such as `constructor` and `toString` are not modelled.
- Hooks are total functions on the expression context. A hook that throws, has side effects, or returns a non-string is not modelled. A validator is modelled as accept (returns) or reject (throws).
- A call-site option explicitly set to `undefined` overrides the instance hook in the object spread. The model treats it as absent.
- Aliasing: a nested condition or group is captured as its slots at attach time. Later changes to an attached child, a child shared by two parents, and cycles are not modelled. Attaching requires `child != this`, since a self-attached condition makes `toString` recurse forever.
- Leaves hold a reference to their builder's options object (src/condition.ts:56, src/group.ts:40). In the source, later edits to that object, or to the hook set it names, reach leaves already built. The model copies the hook set into each leaf when the leaf is created.
- Conditions.Condition.Restore: requires that every nested record list be non-empty. The source reads `condition[0].operator` without checking and crashes with a `TypeError` on an empty list (see Findings).
- Conditions.Condition.Restore: record joins other than `and`/`or` are not representable, so the crash of `cond[method]` on an unknown name is not modelled.
- A record whose `condition` or `expression` holds a falsy non-object value is merged with "absent".
- `Condition` options are typed without `renderExpression`, but any hook set passed in reaches the leaves unchanged. The model passes the whole hook set.
- `Group` hooks are typed as taking a key, a value or an operator, but they are called with the whole context. The model types them by what they are called with.
- The test file in src/_tests is written against an older API (quoted values, `OPERATOR.not_eq`). No property is taken from it.

## Findings

| source | as written | input that shows it | evidently intended | confidence | as-written member | corrected member |
|---|---|---|---|---|---|---|
| src/condition.ts:135 | `restore` appends record i with record i's own join. That join was written AFTER slot i, so slot i ends up with record i+1's join; only the last slot, and slot 0 of a nested list, keep their own (see `Conditions.ReplayShiftsJoins`). | `new Condition().and(a).or(b).and(c)`: the dump holds joins [or, and, and], and the restored condition holds [and, and, and]. The text `a=b or c!=d and e<f` becomes `a=b and c!=d and e<f`. | Append record i with record i-1's join, then give the last slot its own recorded join back. `toJSON` after `restore` is then the identity on every dump of a condition with no empty nested condition, as the doc comment "Oposite of `dump`." (src/condition.ts:125) says. | not executed | Conditions.RestoreTextCounterexample | Conditions.RestoreIntendedRoundTrip |
| src/condition.ts:137 | a nested record list is read at index 0 without a length check. | `new Condition().and(new Condition())` dumps `[{operator: "and", condition: []}]`; `restore` of it throws a `TypeError`. | Restore an empty nested list as an empty nested condition, so that `toJSON` after `restore` is the identity on every dump `toJSON` produces. | not executed | Conditions.EmptyNestedCounterexample | Conditions.IntendedRoundTripOnDumps |
