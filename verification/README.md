# postajaxify in Dafny

postajaxify is a jQuery plugin. It turns a WordPress filter form into a
live query. Each form control tagged with `data-taxfilter`,
`data-metafilter`, `data-textfilter` or `data-datefilter` puts its value
into one of four dictionaries: taxonomy, meta, text and date filters.
`updateFilters` rebuilds these dictionaries and POSTs them with the
configured `action` and `psottype`. It calls the user's `beforeSend`,
`afterSend`, `onSuccess` and `onError` hooks around the request, and
returns a promise that resolves with the response or rejects with
`{status, error}`. A change on a control or a submit of the form runs
`updateFilters`; the `type` argument chooses which one.

The model has these modules:

- `JsStrings` — JavaScript's `String.prototype.trim`, over the ECMAScript
  white space and line terminator code points.
- `FilterCollector` — one control's value extraction and its step on the
  four dictionaries (`Step`), and the whole pass as a fold (`Collected`).
- `CollectorProperties` — an independent, per-key description of the
  pass, and the theorems that connect it to `Collected`:
  - a taxonomy or meta entry is the last written string, or the array of
    all values written when every write came from a `multiple` control;
  - a text or date entry is the last value written;
  - the pass throws exactly when a `multiple` control writes to a key
    after a plain one;
  - controls with nothing to contribute are ignored;
  - the dictionaries hold no empty key, string or array.
- `RequestCoordinator` — the payload, and the sequence of hook calls and
  the settlement of the promise for a given transport outcome.
- `PostAjaxify` — the plugin instance as a class:
  - its configuration and its four dictionaries, which
    `CollectFilters` resets and refills in place with a loop proved equal
    to `Collected`; the loop body is the `.each` callback `ApplyControl`,
    proved equal to `Step`;
  - `UpdateFilters`;
  - the trigger selection.
- `Scenarios` — small concrete forms worked through the model.

The page is abstracted into a sequence of `Control` values in document
order. Each carries its category, its checked state, what `.val()`
returns, its four marker attributes (`""` when absent or empty) and
whether it has a `multiple` attribute. The transport is abstracted into
its outcome, given as input.

The settlement follows the code: a failure rejects with `{status, error}`,
where `status` is jQuery's text status (`"error"`, `"timeout"`, `"abort"`
or `"parsererror"`). For an HTTP error, `error` is the HTTP status text.
For a timeout or an abort it repeats the text status. For a parse error it
is the thrown exception, which the model reduces to a string. The numeric
HTTP status is not part of the rejection value; it is only reachable
through the `xhr` that `onError` receives.

## Model

| member | source | states |
|---|---|---|
| JsStrings.Trim | postajaxify.js:90 | `.trim()`: the input without its leading and trailing white space. The result is no longer than the input, and it neither starts nor ends with white space. |
| JsStrings.TrimCharacterized | postajaxify.js:90 | The trimmed value is a slice of the input. The parts cut off at both ends are entirely JavaScript white space. It neither starts nor ends with white space. It is empty exactly when the input is blank. |
| JsStrings.TrimIdempotent | postajaxify.js:90 | Trimming a trimmed value changes nothing. |
| FilterCollector.ExtractValue | postajaxify.js:82-98 | A control that is not skipped always contributes a non-empty value. |
| FilterCollector.ExtractValueRules | postajaxify.js:83-98 | A checkbox or radio contributes its raw value only when it is checked and the value is non-empty. A text, date or datetime-local input contributes its trimmed value, and is skipped exactly when that value is blank. Any other control contributes its untrimmed value unless it is empty. |
| FilterCollector.AddToList | postajaxify.js:101-126 | The step throws exactly when a `multiple` control writes to a key whose entry is a non-empty string, and the error names that dictionary and key. Otherwise only the written key is added or changed. A plain control leaves its string. A `multiple` control leaves the previous array with its value appended, or a fresh one-element array when the entry was missing or a string. |
| FilterCollector.PutText | postajaxify.js:129-132 | A non-empty key maps to the value. Every other entry is unchanged. |
| FilterCollector.PutDate | postajaxify.js:135-142 | A non-empty key maps to the value; the `''` placeholder never survives. Every other entry is unchanged. |
| FilterCollector.Step | postajaxify.js:79-142 | One run of the `.each` callback: extract the value, then update the taxonomy, meta, text and date dictionaries in that order. A skipped control changes nothing. A throw comes only from a `multiple` control, and names a non-empty key that the control carries. |
| FilterCollector.StateAtThrow | postajaxify.js:103-124 | The dictionaries left when a push throws. The meta, text and date dictionaries are untouched, and when the taxonomy push threw nothing has changed. When the meta push threw, the state is defined to include the same control's taxonomy write, which comes before it. |
| FilterCollector.Collected | postajaxify.js:72-143 | The whole pass: four empty dictionaries, then `Step` over the controls in document order, with the first throw ending it. An empty form gives four empty dictionaries. A thrown error names a non-empty key. |
| CollectorProperties.ListWrites | postajaxify.js:100-126 | The writes a pass makes to one taxonomy or meta key are at most one per control, none under the empty key, and all non-empty. |
| CollectorProperties.ScalarWrites | postajaxify.js:128-142 | The same, for a text or date key. |
| CollectorProperties.ErrorPersists | postajaxify.js:78-143 | Once a control has thrown, the outcome of the pass is that error, whatever controls follow. |
| CollectorProperties.InertControlIgnored | postajaxify.js:83-98 | A control that is skipped, or that carries no non-empty marker, can be removed from anywhere in the form without changing the outcome. |
| CollectorProperties.PushKeepsAgreement | postajaxify.js:103-108 | A successful push keeps a taxonomy or meta entry in agreement with the writes made to its key. |
| CollectorProperties.OverwriteKeepsAgreement | postajaxify.js:103-111 | A plain overwrite keeps a taxonomy or meta entry in agreement with the writes made to its key. |
| CollectorProperties.StepKeepsAgreement | postajaxify.js:101-126 | One control's successful step keeps that agreement for every key. |
| CollectorProperties.ListEntryCharacterized | postajaxify.js:72-126 | After a successful pass, a key is in the taxonomy or meta dictionary exactly when some control wrote to it. Its entry is the last value written when that write was a plain one. When it was a push, every write to that key was a push and the entry is the array of all of them in document order. |
| CollectorProperties.ScalarEntryIsLastWrite | postajaxify.js:128-142 | After a successful pass, a key is in the text or date dictionary exactly when some control wrote to it, and its entry is the last value written. |
| CollectorProperties.ScalarThenPushPersists | postajaxify.js:103-108 | Once a key has had a push after a plain write, later writes do not undo that. |
| CollectorProperties.ErrorNamesScalarThenPush | postajaxify.js:106-122 | When a pass throws, the key its error names had a `multiple` write after a plain one. |
| CollectorProperties.CollectFailsIffScalarThenPush | postajaxify.js:101-126 | A pass throws exactly when some taxonomy or meta key receives a `multiple` write after a plain one. |
| CollectorProperties.CollectedWellFormed | postajaxify.js:72-143 | After a successful pass, no dictionary has an empty key or an empty string, and no array is empty. |
| CollectorProperties.ListMapDeterminedByWrites | postajaxify.js:100-126 | Two forms that make the same writes to every key of the taxonomy or meta dictionary, and both succeed, produce the same dictionary. |
| CollectorProperties.ScalarMapDeterminedByWrites | postajaxify.js:128-142 | The same, for the text or date dictionary. |
| RequestCoordinator.BuildPayload | postajaxify.js:146-153 | The payload carries the configured action and post type, and the four dictionaries exactly as collected. |
| RequestCoordinator.PostSend | postajaxify.js:171-190 | The events once the transport has reported: one event for `afterSend` if present, plus one for the handler that matches the outcome if present. `afterSend` comes first when `complete` runs before the `.then` handlers, and last otherwise. |
| RequestCoordinator.PostSendCompletes | postajaxify.js:171-190 | After the send come `afterSend` once if present, and the one handler that matches the outcome once if present, and nothing else. |
| RequestCoordinator.Submit | postajaxify.js:155-197 | `beforeSend` is called with the payload and then without it, both before the request goes out. Then one POST of the payload to the configured URL, then the completion events. The promise resolves with the response, or rejects with the failure's status and error. |
| RequestCoordinator.SubmitCallbackCounts | postajaxify.js:155-176 | Over a whole submission, each of the two `beforeSend` calls happens once or not at all, the request is sent once, and `afterSend` fires once if present. |
| RequestCoordinator.SubmitFiresMatchingHandler | postajaxify.js:177-197 | Only the handler that matches the outcome fires, with the outcome's arguments, and it fires exactly when the hook is present. |
| RequestCoordinator.SchedulingOnlyReorders | postajaxify.js:171-197 | Running `complete` before or after the `.then` handlers changes only the order of the events after the send. It changes neither which events occur nor how the promise settles. |
| PostAjaxify.TriggerFor | postajaxify.js:201-228 | `'onChange'` selects the change event and `'onSubmit'` the submit event. Any other string binds nothing. |
| PostAjaxify.Refreshes | postajaxify.js:201-217 | Whether an occurrence runs `updateFilters`. A submit does so only when the instance was bound to the submit event. A change does so only when it was bound to the change event, and only on a control that the delegated selector of line 203 lists. |
| PostAjaxify.UnlistedControlChangeIgnored | postajaxify.js:203 | A change on a control outside the selector does not refresh the filters, even in change mode. |
| PostAjaxify.FilterForm.constructor | postajaxify.js:54-68 | The instance keeps its configuration and starts with four empty dictionaries. |
| PostAjaxify.FilterForm.CollectFilters | postajaxify.js:71-143 | The reset and the loop over the controls compute the same outcome as `Collected`. On success it leaves the dictionaries equal to the collected ones. When a push throws, it leaves the state the failing control produced up to the throw. |
| PostAjaxify.FilterForm.ApplyControl | postajaxify.js:79-142 | The `.each` callback on one control updates the dictionaries in place exactly as `Step` describes. When a push throws, it reports that error and stops in the state `StateAtThrow` describes. |
| PostAjaxify.FilterForm.AddListEntry | postajaxify.js:101-126 | On a non-empty key the in-place reset, push or overwrite of a taxonomy or meta entry gives the dictionary `AddToList` describes. On a push onto a string it throws the same error and changes nothing. |
| PostAjaxify.FilterForm.PutScalarEntries | postajaxify.js:128-142 | The in-place text and date writes, the `''` placeholder included, give the dictionaries `PutText` and `PutDate` describe. The other two dictionaries are unchanged. |
| PostAjaxify.FilterForm.UpdateFilters | postajaxify.js:71-197 | When the collection throws, no hook fires and nothing is sent, and the four dictionaries hold what the pass wrote before the failing push. Otherwise they hold the collected filters, and the submission is that of the payload built from them. |
| PostAjaxify.FilterForm.Handle | postajaxify.js:200-228 | An occurrence the trigger listens to runs `updateFilters` afresh: its outcome, and the four dictionaries as that pass leaves them, whether it succeeds or throws. Any other occurrence leaves the instance untouched and produces nothing. |
| PostAjaxify.ThrowEndsPass | postajaxify.js:103-122 | The first failing push decides the outcome of the whole pass. |
| Scenarios.LaterScalarWins | postajaxify.js:101-111 | Two plain controls on one taxonomy key: the later value wins. |
| Scenarios.MultipleValuesListed | postajaxify.js:115-122 | Two `multiple` controls on one meta key give an array of both values, in order. |
| Scenarios.UncheckedAddsNothing | postajaxify.js:83-88 | An unchecked checkbox between them adds nothing. |
| Scenarios.TrimExample | postajaxify.js:90 | Trimming `" 2024-01-01\n"` gives `"2024-01-01"`. |
| Scenarios.DateOnlyStep | postajaxify.js:89-141 | A text-like control tagged only as a date filter stores its trimmed value under its date key, and nothing else. |
| Scenarios.DateValueTrimmed | postajaxify.js:89-90 | A date input's value is stored trimmed. |
| Scenarios.PushOntoStringThrows | postajaxify.js:103-108 | A `multiple` control after a plain one on the same key throws. |
| Scenarios.ScalarReplacesList | postajaxify.js:103-111 | A plain control after a `multiple` one replaces its array with its string. |
| Scenarios.FailedRequestTrace | postajaxify.js:155-197 | A failed request with every hook present, and `complete` first: two `beforeSend` calls, the send, `afterSend`, `onError`, then rejection. |

## Left out

- Keys inherited from `Object.prototype` are not modelled: the dictionaries are plain maps. In the code, a marker such as `constructor` or `toString` reads a truthy inherited function at lines 103, 117 and 138. A push onto it then throws, and an overwrite shadows it.
- A `<select multiple>`, whose `.val()` is an array, is not modelled. The model reads every `.val()` as a string and a missing value as `""`.
- `.val()` on an element without a value gives `""`; the model takes what `.val()` returns as given.
- A checkbox or radio without a `value` attribute is not modelled specially. `.val()` gives `"on"` for it, and the model takes what `.val()` returns as given.
- A control's category is taken as given: a checkbox or radio, a text-like input, a select, or anything else. An `input` without a `type` attribute, a `search` input and a `textarea` are "anything else". So their values are not trimmed, and in change mode a change on them does not refresh the filters.
- An exception thrown by a user hook is not modelled.
- A hook that modifies the payload it receives is not modelled. Through that payload it would also modify the four dictionaries, and the POST body, which jQuery serialises only after `beforeSend` returns. Hooks are taken to leave the payload alone.
- A hook that modifies the `callbacks` object is not modelled. The code re-reads which hooks are present at every call, so such a change would alter which later calls happen. The model fixes the hooks at construction.
- A `beforeSend` that returns `false` is not modelled as cancelling the request. The code's wrapper returns `undefined`, so it cannot cancel.
- The relative order of `complete` and the `.then` handlers depends on the jQuery version. It is an input, and the properties hold for both orders.
- Console logging is I/O and is not modelled. The non-form guard (lines 59-62), which logs and binds nothing, is not modelled either.
- Event binding, `preventDefault`, concurrent or overlapping requests, and the handlers' own `.then` logging (lines 204-211, 219-226) are not modelled.
- The network and jQuery's parameter encoding of the payload are not modelled. The transport is reduced to its outcome.
- `$.Deferred` is reduced to the settlement value.
- Applying the plugin to several forms at once is modelled as independent `FilterForm` instances.
