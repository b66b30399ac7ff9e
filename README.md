# DocxTemplater node: tool filters and per-item rendering, in Dafny

This project models the core of the n8n DocxTemplater node
(`nodes/DocxTemplater/DocxTemplater.node.ts`): the bridge that turns the AI
tools connected to the node into template filters, and the per-item loop
that renders each input item and classifies render errors.

- `safe_name.dfy` — `transformSafeName`: lower-case the tool name, then three
  `replace` calls whose regular expressions have no `g` flag, so each rewrites
  only its first match (first `-` to `_`, first character outside `[a-z0-9_]`
  deleted, first run of two or more `_` collapsed).
- `tool_bridge.dfy` — the `wrapper` filter: how the piped value and the
  filter's extra arguments become the tool's payload, and how the tool's
  result is read back with `JSON.parse` (an abstract parameter here).
- `filter_registry.dfy` — `mapOfTools` (`Object.fromEntries`, later entries
  win) spread over the default filters `JSONstringify`, `JSONparse`, `length`.
- `render_errors.dfy` — the handler on `renderAsync` that unwraps a
  docxtemplater "Multi error" holding one error.
- `execution.dfy` — the `execute` loop, as a method: one entry per item, in
  input order, tagged with `pairedItem`, or an abort on the first failure.
- `json.dfy`, `decimal.dfy`, `wrappers.dfy` — JavaScript values, decimal text
  of integers (`arg${i}`, `String(n)`), Option and Result.

Where the source's own comments promise more than its code does, the model
follows the code:

- The comment at line 272 promises that a name like "Date & Time" becomes
  "date_time", and the comment at line 278 speaks of replacing runs of
  underscores. The `replace` calls rewrite first matches only:
  `SafeName.FirstMatchOnlyExample` shows "a&&b" becoming "a&b" and then "ab"
  (not idempotent), and `SafeName.SpacedNameExample` shows "Date & Time"
  becoming "date& time". The name n8n actually hands over, "Date_&_Time"
  (spaces already turned into underscores, as the comment at line 274 says),
  does become "date_time" (`SafeName.DateAndTimeExample`).
- The comment at line 315 says a single docxtemplater error is exposed at the
  top level; the handler as written throws a TypeError instead when that
  error has no `rootError` (see "## Findings"). The item loop composes the
  handler as written; `RenderErrors.Classify` is the corrected handler.

## Model

| member | source | states |
|---|---|---|
| `SafeName.LowerChar` | nodes/DocxTemplater/DocxTemplater.node.ts:275 | an upper-case ASCII letter becomes its own lower-case letter; any other character is unchanged |
| `SafeName.ToLower` | nodes/DocxTemplater/DocxTemplater.node.ts:275 | lower-casing keeps the length, turns each upper-case ASCII letter into its own lower-case letter and leaves every other character where it was |
| `SafeName.ReplaceFirstHyphen` | nodes/DocxTemplater/DocxTemplater.node.ts:276 | the hyphen step keeps the length |
| `SafeName.ReplaceFirstHyphenChars` | nodes/DocxTemplater/DocxTemplater.node.ts:276 | the hyphen step adds no character other than `_` |
| `SafeName.ReplaceFirstHyphenAt` | nodes/DocxTemplater/DocxTemplater.node.ts:276 | the first hyphen, and only it, becomes `_` |
| `SafeName.ReplaceFirstHyphenNone` | nodes/DocxTemplater/DocxTemplater.node.ts:276 | a name without a hyphen is unchanged by that step |
| `SafeName.StripFirstUnsafe` | nodes/DocxTemplater/DocxTemplater.node.ts:277 | the strip step deletes at most one character |
| `SafeName.StripFirstUnsafeChars` | nodes/DocxTemplater/DocxTemplater.node.ts:277 | the strip step adds no character |
| `SafeName.StripFirstUnsafeAt` | nodes/DocxTemplater/DocxTemplater.node.ts:277 | the strip step deletes exactly the first character outside `[a-z0-9_]` |
| `SafeName.StripFirstUnsafeNone` | nodes/DocxTemplater/DocxTemplater.node.ts:277 | a name of safe characters is unchanged by that step |
| `SafeName.DropLeadingUnderscores` | nodes/DocxTemplater/DocxTemplater.node.ts:278 | the greedy `_{2,}` match: what is left after a run of underscores is a suffix not starting with `_` |
| `SafeName.CollapseFirstRun` | nodes/DocxTemplater/DocxTemplater.node.ts:278 | the collapse step never lengthens the name |
| `SafeName.CollapseFirstRunChars` | nodes/DocxTemplater/DocxTemplater.node.ts:278 | the collapse step adds no character |
| `SafeName.CollapseFirstRunAt` | nodes/DocxTemplater/DocxTemplater.node.ts:278 | the leftmost run of two or more `_`, taken whole, becomes one `_`; the rest is untouched |
| `SafeName.CollapseFirstRunNone` | nodes/DocxTemplater/DocxTemplater.node.ts:278 | a name without `__` is unchanged by that step |
| `SafeName.TransformSafeName` | nodes/DocxTemplater/DocxTemplater.node.ts:273-278 | the filter name is never longer than the tool name and has no upper-case ASCII letter |
| `SafeName.CleanOnceLowered` | nodes/DocxTemplater/DocxTemplater.node.ts:273-278 | a name whose lower-cased form is clean becomes exactly that lower-cased form |
| `SafeName.CleanNameUnchanged` | nodes/DocxTemplater/DocxTemplater.node.ts:273-278 | a name made of `[a-z0-9_]` with no `__` comes back unchanged |
| `SafeName.DateAndTimeExample` | nodes/DocxTemplater/DocxTemplater.node.ts:272-278 | the commented example: "Date_&_Time" becomes "date_time" |
| `SafeName.FirstMatchOnlyExample` | nodes/DocxTemplater/DocxTemplater.node.ts:276-278 | first-match rewriting: "a&&b" becomes "a&b", which is not clean, and sanitizing again gives "ab" (not idempotent) |
| `SafeName.SpacedNameExample` | nodes/DocxTemplater/DocxTemplater.node.ts:273-278 | only the first space of "Date & Time" is removed: "date& time" |
| `SafeName.LengthExample` | nodes/DocxTemplater/DocxTemplater.node.ts:273-278 | a tool named "Length" gets the filter name "length" |
| `Decimal.NatToDecimal` | nodes/DocxTemplater/DocxTemplater.node.ts:234 | the decimal text of an index is a non-empty string of digits without a leading zero, one digit exactly for 0-9 |
| `Decimal.IntToDecimal` | nodes/DocxTemplater/DocxTemplater.node.ts:266 | `String(n)` of a number: `-` exactly when negative, followed by digits that read back as the magnitude of `n` |
| `Decimal.DecimalRoundTrip` | nodes/DocxTemplater/DocxTemplater.node.ts:234 | reading the decimal text of `n` back gives `n` |
| `Decimal.NatToDecimalInjective` | nodes/DocxTemplater/DocxTemplater.node.ts:234 | distinct numbers have distinct decimal texts |
| `ToolBridge.ArgKey` | nodes/DocxTemplater/DocxTemplater.node.ts:234 | the key `arg${k}` is "arg" followed by digits that read back as k |
| `ToolBridge.ArgFields` | nodes/DocxTemplater/DocxTemplater.node.ts:234 | one entry per extra argument, the k-th being `arg${k}` with the k-th argument |
| `ToolBridge.ExpectedKey` | nodes/DocxTemplater/DocxTemplater.node.ts:238-239 | the wrapping key is the schema's first key, or "undefined" for a shape without keys |
| `ToolBridge.Payload` | nodes/DocxTemplater/DocxTemplater.node.ts:234-240 | the piped value is always in the payload: under `input` with extra args, under the expected key for an object schema without args, or as the payload itself otherwise |
| `ToolBridge.ArgKeyInjective` | nodes/DocxTemplater/DocxTemplater.node.ts:234 | two argument positions get the same key exactly when they are the same position |
| `ToolBridge.PayloadWithArgs` | nodes/DocxTemplater/DocxTemplater.node.ts:234-236 | with n >= 1 extra args the payload is an object of n + 2 distinct keys with `input` = value, `args` = args, `arg_k` = args[k], whatever the schema |
| `ToolBridge.PayloadWithoutArgs` | nodes/DocxTemplater/DocxTemplater.node.ts:235-240 | with no extra arg an object schema gets `{firstKey: value}`, any other schema the value itself |
| `ToolBridge.TwoArgumentExample` | nodes/DocxTemplater/DocxTemplater.node.ts:234-235 | a filter call `name(a, b)` on a piped value sends `{input: value, args: [a, b], arg0: a, arg1: b}` |
| `ToolBridge.ParseOrKeep` | nodes/DocxTemplater/DocxTemplater.node.ts:261-268 | a result that `JSON.parse` accepts is replaced by its parse, otherwise it is returned as it was |
| `ToolBridge.ApplyFilter` | nodes/DocxTemplater/DocxTemplater.node.ts:231-270 | the filter rejects exactly when the tool's invocation rejects, with the same error; a parse failure never makes it reject |
| `ToolBridge.NumberResult` | nodes/DocxTemplater/DocxTemplater.node.ts:261-268 | a number result comes back as the same number when `JSON.parse` reads its decimal text as itself or rejects it |
| `ToolBridge.EchoRoundTrip` | nodes/DocxTemplater/DocxTemplater.node.ts:231-268 | a tool echoing its payload as JSON gives back the piped value, wrapped under the first key for an object schema |
| `FilterRegistry.DefaultFilters` | nodes/DocxTemplater/default-filters.ts:3-7 | the built-in filters are exactly `JSONstringify`, `JSONparse` and `length` |
| `FilterRegistry.MapOfTools` | nodes/DocxTemplater/DocxTemplater.node.ts:279-281 | the tool map's keys are exactly the sanitized tool names |
| `FilterRegistry.LaterToolWins` | nodes/DocxTemplater/DocxTemplater.node.ts:279-281 | among tools with the same sanitized name, the last one in the list is the one in the map |
| `FilterRegistry.Filters` | nodes/DocxTemplater/DocxTemplater.node.ts:283 | the merged keys are the default names plus the sanitized tool names |
| `FilterRegistry.ToolOverridesDefault` | nodes/DocxTemplater/DocxTemplater.node.ts:283 | a tool's filter overrides a default filter of the same name |
| `FilterRegistry.DefaultKept` | nodes/DocxTemplater/DocxTemplater.node.ts:283 | a default filter no tool is named after is kept |
| `FilterRegistry.OnlyLengthCanCollide` | nodes/DocxTemplater/default-filters.ts:3-7 | no tool can take the place of `JSONstringify` or `JSONparse`; only `length` can be overridden |
| `FilterRegistry.LengthToolOverrides` | nodes/DocxTemplater/DocxTemplater.node.ts:279-283 | a last tool named "Length" replaces the built-in `length` filter |
| `RenderErrors.IsSingleMultiError` | nodes/DocxTemplater/DocxTemplater.node.ts:316-319 | unwrapping is chosen only for a `TemplateError` "Multi error" carrying exactly one error |
| `RenderErrors.ClassifyAsWritten` | nodes/DocxTemplater/DocxTemplater.node.ts:314-335 | the handler as written: a TypeError exactly for a single wrapped error without `rootError`; otherwise a node error for the same item and cause |
| `RenderErrors.Classify` | nodes/DocxTemplater/DocxTemplater.node.ts:314-335 | a single wrapped error is unwrapped: message from `rootError.message`, else the inner message; description from `rootError.description`, else `explanation`; any other error keeps its message and gets the generic description; the item index is always `i` |
| `RenderErrors.CorrectedAgreesWithWritten` | nodes/DocxTemplater/DocxTemplater.node.ts:316-329 | wherever the written handler does not crash it yields the corrected handler's error |
| `RenderErrors.WrittenCrashesWithoutRootError` | nodes/DocxTemplater/DocxTemplater.node.ts:323-328 | a single wrapped error with an explanation and no `rootError` makes the written handler throw, while the corrected one reports its message and explanation |
| `Execution.RenderItem` | nodes/DocxTemplater/DocxTemplater.node.ts:228-341 | an item succeeds exactly when its render does, with the rendered bytes under the output file name; a rejected render goes through the handler as written (a node error carrying the item's index, or the handler's TypeError); another step's failure keeps its message |
| `Execution.RenderItemCrashOnlyWithoutRootError` | nodes/DocxTemplater/DocxTemplater.node.ts:314-336 | the item fails with the handler's TypeError exactly for a single wrapped error without `rootError`; every other classified failure equals the corrected handler's |
| `Execution.ErrorEntry` | nodes/DocxTemplater/DocxTemplater.node.ts:357-362 | the continue-on-fail entry carries `json.error` = 'Error while rendering', no binary, and the item's index |
| `Execution.Execute` | nodes/DocxTemplater/DocxTemplater.node.ts:200-368 | one entry per item in input order with `pairedItem` = index; success entries carry `json: {}` and the document under the output property; with continue-on-fail a failure adds the error entry and the run goes on; without it the first failing item aborts with that item's error; an operation other than `render` adds nothing |

## Left out

- `nodes/DocxTemplater/modules-loader.ts` and `nodes/DocxTemplater/sandbox/JavascriptSandbox.ts` (finding installed modules, `loadModule`, running option scripts in vm2): filesystem, dynamic `require` and a foreign sandbox; a failing module load is one of the failures `Execution.RenderRun.StepFailed` stands for.
- SafeName.StripFirstUnsafe: strings are sequences of Unicode scalar values, while the JavaScript regular expression (no `u` flag) works on UTF-16 code units; for a character outside the Basic Multilingual Plane (an emoji) the source deletes only its first surrogate and keeps the second, the model deletes the whole character. SafeName.ToLower and the other steps share this view.
- The functions behind the default filters (`JSON.stringify`, `JSON.parse`, `.length`) are foreign; only their names are modelled.
- `makeFilterContainer` is not defined in default-filters.ts, and the jexl parsers are not part of this model; the strict filter lookup and the resolvers (line 296 names an undefined `connectedResolvers`) are not modelled. Lines 295-296 declare `jexlparser` twice and use undefined names, so they are not modelled.
- `JSON.parse` is a parameter (`ToolBridge.JsonParse`); a number result is handed to it as its decimal text, as JavaScript coerces it.
- The debug-logging step of lines 252-260 forwards the value unchanged, so `ToolBridge.ApplyFilter` passes the tool's output straight to the parse step; logger calls and `console.log` are left out.
- Promises and `await`: each tool invocation and each render is one call whose result is either a value or a rejection; the order in which the template engine calls filters is the engine's.
- Docxtemplater, PizZip, `getBinaryDataBuffer`, `getNodeParameter`, `getInputConnectionData` and the node description table (lines 31-198) are foreign or configuration; rendering an item is the parameter `Execution.ItemParams.render`, which receives the merged filter map.
- `prepareBinaryData` is modelled as a record of the output file name and the rendered bytes; the mime type and other metadata it adds are not modelled.
- `NodeOperationError` and `NodeApiError` come from n8n-workflow: the model keeps the cause, item index, message and description passed at lines 321-334, 352-354 and 365, not how those constructors merge them.
- Execution.Execute: the continue-on-fail entry carries the message passed at line 354; n8n-workflow's `NodeOperationError` constructor returns a cause that is already a `NodeOperationError` unchanged, so an item whose render error was classified most likely records the classified message instead; that constructor is not modelled.
- `toLowerCase` lower-cases ASCII letters only; Unicode case mapping is not modelled.
- JavaScript numbers are modelled as integers; floating point is not modelled.
- A tool schema is seen only as "Zod object with these keys" or "anything else"; line 236 reads `t.schema._def.typeName`, which throws for a schema without `_def`, whereas `ToolBridge.OtherSchema` passes the value through.

## Findings

| source | as written | input that shows it | evidently intended | confidence | as-written member | corrected member |
|---|---|---|---|---|---|---|
| nodes/DocxTemplater/DocxTemplater.node.ts:323-328 | `properties?.rootError.message` reads `message` of an undefined `rootError`, and `properties.explanation` reads through an undefined `properties`; either throws a TypeError inside the `.catch` handler, so the single error is never unwrapped | a "Multi error" whose one inner error has `properties` with an `explanation` and no `rootError`; whether `renderAsync` rejects with such an error (rather than the constructor at line 300 throwing it) is up to docxtemplater | read every optional property with `?.`: message from `rootError.message`, else the inner message; description from `rootError.description`, else `explanation` | low; not executed | `RenderErrors.ClassifyAsWritten`, `RenderErrors.WrittenCrashesWithoutRootError` | `RenderErrors.Classify` |
