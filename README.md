# web_progress in Dafny

A model of the progress-reporting core of the Odoo add-on `web_progress`, with proofs about it.

The add-on has two sides:

- **Server.** A long-running operation iterates with `report_progress_iter`. Every reported step
  appends a record to the transient model `web.progress`. A cancel request is also just a record,
  in state `cancel`. The reporting loop checks for one before storing a step and stops with a
  `UserError` when it finds one.
- **Browser.** `genericRelayEvents` tags each eligible JSON-RPC call with a fresh pseudo-UUID
  progress code. The `Loading` widget polls `get_progress` for that code on a timer. The
  blocking progress bar folds the parent-first list of levels it receives into one weighted
  percentage. `RelayResult` retires the code when the call's result arrives.

| file | models |
|---|---|
| `wrappers.dfy` | `Option` |
| `text.dfy` | decimal rendering of integers (Python `%s`, JavaScript string coercion) |
| `uuid.dfy` | `pseudo_uuid` of `ajax.js`, with `Math.random` as an oracle |
| `ajax.dfy` | call tagging, the `progress_codes` registry, `RelayRequest`, `RelayResult` |
| `loading.dfy` | the poll-timer registry of `loading.js`: pure step functions and the `LoadingWidget` class proved against them |
| `progress_bar.dfy` | the weighted fold of `showProgress`, the bar widget, `blockUI` and `unblockUI` |
| `progress_store.dfy` | `web.progress`: `cancel_progress`, `get_progress`, `record_progress`, `check_cancelled` |
| `reporting.dfy` | `base.py`: the percent and reporting-interval arithmetic, the log line, the recursion-depth counters, `report_progress_iter` |
| `wiring.dfy` | how the `rpc_progress_request` event reaches `add_progress` (see Findings) |

### Design choices

- **Stateful code becomes classes.** This covers the widgets, the `progress_codes` map, the
  parameters object the tagging mutates, the `_recur_depths` dictionary and the record table.
  Each method is specified by a pure function of the old state, for example
  `State() == AddStep(old(State()), code)`. The properties are proved about those functions.
- **The record table is a sequence in creation order.** `create_date desc, limit 1` becomes
  "the last matching record". Python's falsy empty recordset becomes `EmptyRecord`, whose fields
  read as unset or zero.
- **Timers, the RPC transport and the event bus are explicit state or inputs.** They are not
  executed. The browser's pending timeouts, the next handle, the list of sent RPCs and the
  multiset of polls in flight are fields of `Loading.Browser`. The order in which timeouts fire
  and responses arrive is a sequence of `Loading.Event`s.
- **Generators.** The generator `report_progress_iter` returns is the class
  `Reporting.ProgressIter`. It shares the depth counters and the record table with everything
  else. Its `Next` and `Close` methods are proved against the pure `Resume` and `Closing`. So
  whatever happens between two `next()` calls, such as a cancel record or a nested run of the
  same code, is seen by the following step. A generator that is never started never runs its
  body, and closing it stores nothing.

## Model

| member | source | states |
|---|---|---|
| Uuid.HexDigit | web_progress/static/src/js/ajax.js:18 | `toString(16)` of one nibble is a lower-case hex digit: `0`-`9` below ten, `a`-`f` above |
| Uuid.Scramble | web_progress/static/src/js/ajax.js:18 | the digit for placeholder `0` is the random nibble; for `8` it lies in 8..11 (the variant bits) |
| Uuid.Fill | web_progress/static/src/js/ajax.js:18 | the regex replacement keeps the template's length |
| Uuid.FillExpands | web_progress/static/src/js/ajax.js:18 | every output character is its template character or, for a placeholder, a hex digit (8..b for `8`) |
| Uuid.TemplateLayout | web_progress/static/src/js/ajax.js:18 | the template string has hyphens exactly at 8, 13, 18 and 23 and hex digits elsewhere |
| Uuid.PseudoUuid | web_progress/static/src/js/ajax.js:17-19 | the template filled from the random draws; its layout is stated by `Uuid.PseudoUuidShaped` |
| Uuid.FillShaped | web_progress/static/src/js/ajax.js:17-19 | filling such a template yields the version-4 UUID layout |
| Uuid.PseudoUuidShaped | web_progress/static/src/js/ajax.js:17-19 | whatever the random draws, `pseudo_uuid()` is 36 lower-case chars with version 4 and variant 8..b |
| Text.DigitChar | web_progress/models/base.py:94 | the character of a digit below ten denotes that digit |
| Text.Digits | web_progress/models/base.py:94 | decimal digits of a natural: their `Value` is the number; non-empty, no leading zero, a single digit below ten |
| Text.Decimal | web_progress/models/base.py:94 | decimal rendering of an integer: the digits denote its magnitude, with a leading `-` exactly for negatives |
| Ajax.Eligible | web_progress/static/src/js/ajax.js:55 | the guard shared with `RelayRequest` (line 25): a `/web/dataset/` URL, function `call`, and a model other than `web.progress`; `Ajax.Tag` is proved to tag only such calls |
| Ajax.SlotOf | web_progress/static/src/js/ajax.js:58-66 | where the code goes: the context when `kwargs` has one, no slot for `kwargs` without it, else the last argument when it is an object; `Ajax.KwargsWithoutContextNotTagged` and `Ajax.Tag` state the consequences |
| Ajax.Inject | web_progress/static/src/js/ajax.js:58-66 | `progress_code` is set in the context, or else in the last argument object; all other keys, arguments and kwargs are unchanged |
| Ajax.Extract | web_progress/static/src/js/ajax.js:37-43 | reads the code from the context, or else from the last argument; its round trip with `Inject` is `Ajax.InjectExtract` |
| Ajax.InjectExtract | web_progress/static/src/js/ajax.js:37-43 | round trip: `RelayResult` reads back exactly the code the tagging wrote |
| Ajax.Key | web_progress/static/src/js/ajax.js:44 | the property key a found value coerces to; `Ajax.OnlyStringsNameCodes` states which values can name a code |
| Ajax.OnlyStringsNameCodes | web_progress/static/src/js/ajax.js:37-44 | the `-1` default, `undefined`, numbers, booleans and `null` never coerce to a UUID-shaped key |
| Ajax.Resolve | web_progress/static/src/js/ajax.js:44-47 | a result is published iff its coerced code is registered; it is then deleted and nothing else changes |
| Ajax.ResolveIdempotent | web_progress/static/src/js/ajax.js:44-47 | a second result for the same call publishes nothing and changes nothing |
| Ajax.NonStringNeverResolves | web_progress/static/src/js/ajax.js:37-47 | with only UUID keys, a result without a string code publishes nothing |
| Ajax.Tag | web_progress/static/src/js/ajax.js:54-72 | a code is made iff the call is eligible and has a slot; a primitive last argument throws; an untagged call is unchanged; a tagged call's parameters are `Inject` of the old ones with `pseudo_uuid()`, readable by `RelayResult` |
| Ajax.KwargsWithoutContextNotTagged | web_progress/static/src/js/ajax.js:58-66 | `kwargs` without `context` is never tagged, even when `args` has an object |
| Ajax.ResolveRegistered | web_progress/static/src/js/ajax.js:44-47 | a registered code is resolved once and then forgotten |
| Ajax.TagThenResolve | web_progress/static/src/js/ajax.js:54-72 | end to end: a tagged and registered call's result publishes its code exactly once |
| Ajax.CallParams.SetCode | web_progress/static/src/js/ajax.js:58-66 | in-place tagging of the parameters object equals `Inject`; relays iff taggable; throws on a primitive last argument |
| Ajax.RelayRequest.OnRpcRequest | web_progress/static/src/js/ajax.js:24-29 | emits `(fct_name, params, code)` iff still listening and eligible, then stops listening, so at most once |
| Ajax.CodeRegistry.GenericRelayEvents | web_progress/static/src/js/ajax.js:54-72 | the parameters become `Tag(...).params`; exactly the generated code is registered, with a fresh listening relay |
| Ajax.CodeRegistry.Register | web_progress/static/src/js/ajax.js:67-69 | adds one key holding a fresh relay for the call; keeps every key a UUID with its relay |
| Ajax.CodeRegistry.OnResult | web_progress/static/src/js/ajax.js:36-47 | the handler's new map and published code are `Resolve` of the extracted code; a result without a string code publishes nothing and keeps the map |
| Loading.AddStep | web_progress/static/src/js/loading.js:67-74 | a new timeout polls the code and is stored under it; other keys are unchanged; the old handle is not cleared and every other pending timeout still polls its own code |
| Loading.RemoveStep | web_progress/static/src/js/loading.js:75-80 | a present key's timeout is cleared and the key dropped; an absent key changes nothing |
| Loading.FireStep | web_progress/static/src/js/loading.js:46-50 | a due timeout is consumed and sends one `get_progress` for its code; every other pending timeout stays, polling the same code; keys are unchanged |
| Loading.Emits | web_progress/static/src/js/loading.js:40-44 | a response is published iff it is non-empty and its first entry is ongoing or done; `Loading.ResultStep` ties publication to it |
| Loading.ResultStep | web_progress/static/src/js/loading.js:38-53 | publishes iff the poll was in flight and the first state is ongoing or done; a non-empty response for a code still keyed arms a new timeout for it under the key, and nothing else does |
| Loading.FailStep | web_progress/static/src/js/loading.js:34-38 | a failed poll ends its chain: nothing is rescheduled |
| Loading.CancelStep | web_progress/static/src/js/loading.js:59-66 | sends one `cancel_progress` for the code and changes no timer |
| Loading.DestroyStep | web_progress/static/src/js/loading.js:24-31 | every timeout stored under a key is cleared, others survive; keys stay |
| Loading.NoNewPollStep | web_progress/static/src/js/loading.js:67-80 | an unkeyed code gains no timeout from any event except adding it |
| Loading.NoNewPollRun | web_progress/static/src/js/loading.js:67-80 | the same over any run of events |
| Loading.RemoveStopsPolling | web_progress/static/src/js/loading.js:75-80 | after `remove_progress(c)`, until `c` is added again, no new timeout polls `c`: the key's own timeout is gone, and only timeouts orphaned before the removal can remain |
| Loading.DoneDoesNotStop | web_progress/static/src/js/loading.js:40-51 | a `done` state is published and still reschedules while the code is keyed |
| Loading.TrackedAdd | web_progress/static/src/js/loading.js:67-74 | adding an idle code keeps one poll chain per code |
| Loading.TrackedFire | web_progress/static/src/js/loading.js:46-50 | a firing timeout keeps one poll chain per code |
| Loading.TrackedResult | web_progress/static/src/js/loading.js:38-53 | a poll response keeps one poll chain per code |
| Loading.TrackedFail | web_progress/static/src/js/loading.js:34-38 | a failed poll keeps one poll chain per code |
| Loading.TrackedStep | web_progress/static/src/js/loading.js:32-80 | every event keeps one chain per code when codes are added only while idle |
| Loading.TrackedRun | web_progress/static/src/js/loading.js:32-80 | one chain per code survives any run of events in which every `add_progress` finds its code idle |
| Loading.DestroyClearsAll | web_progress/static/src/js/loading.js:24-31 | with one chain per code, `destroy` leaves no timeout pending |
| Loading.DestroyThenResultRearms | web_progress/static/src/js/loading.js:24-31 | `destroy` keeps the keys, so a poll in flight at that moment arms a new timeout when its response arrives |
| Loading.TrackedIsPerCode | web_progress/static/src/js/loading.js:32-80 | one chain per code overall gives one chain for each code |
| Loading.FreshStep | web_progress/static/src/js/loading.js:32-80 | every event keeps timeout handles fresh and distinct per key |
| Loading.FreshAdd | web_progress/static/src/js/loading.js:67-74 | adding a code takes a handle no key or timer holds yet |
| Loading.PerCodeAdd | web_progress/static/src/js/loading.js:67-74 | adding an idle code starts its one chain |
| Loading.PerCodeAddOther | web_progress/static/src/js/loading.js:67-74 | adding any other code leaves the one chain of `c` intact |
| Loading.PerCodeResult | web_progress/static/src/js/loading.js:38-53 | a poll response, for `c` or another code, with or without rescheduling, leaves the one chain of `c` intact |
| Loading.PerCodeStep | web_progress/static/src/js/loading.js:32-80 | no event other than adding `c` again, whatever other codes do, breaks the one chain of `c` |
| Loading.PerCodeRun | web_progress/static/src/js/loading.js:32-80 | the same over any run of events that does not add `c` |
| Loading.PerCodeRemove | web_progress/static/src/js/loading.js:75-80 | while its chain is intact, removing `c` leaves no timeout polling it |
| Loading.AddOrphans | web_progress/static/src/js/loading.js:67-74 | adding a code whose timeout is pending orphans that timeout: it survives a later `destroy` |
| Loading.LoadingWidget.AddProgress | web_progress/static/src/js/loading.js:67-74 | the widget and browser state after the call is `AddStep` of the state before |
| Loading.LoadingWidget.RemoveProgress | web_progress/static/src/js/loading.js:75-80 | the new state is `RemoveStep` of the old |
| Loading.LoadingWidget.Progress | web_progress/static/src/js/loading.js:32-38 | sends exactly one `get_progress` for the code, now in flight |
| Loading.LoadingWidget.OnTimeout | web_progress/static/src/js/loading.js:46-50 | the new state is `FireStep` of the old |
| Loading.LoadingWidget.OnPollResult | web_progress/static/src/js/loading.js:38-53 | the new state and the published list are `ResultStep` of the old state |
| Loading.LoadingWidget.OnPollFailed | web_progress/static/src/js/loading.js:34-38 | the new state is `FailStep` of the old |
| Loading.LoadingWidget.CancelProgress | web_progress/static/src/js/loading.js:59-66 | the new state is `CancelStep` of the old |
| Loading.LoadingWidget.Destroy | web_progress/static/src/js/loading.js:24-31 | the loop over keys leaves `DestroyStep` of the old state |
| ProgressBar.SingleLevel | web_progress/static/src/js/progress_bar.js:45-50 | one level shows its own progress; the next weight is 100/total |
| ProgressBar.Step | web_progress/static/src/js/progress_bar.js:41-51 | one level keeps the bar cancellable only if it is; a level with zero progress or total adds no share, and a zero total leaves the weight alone |
| ProgressBar.Aggregate | web_progress/static/src/js/progress_bar.js:38-52 | the fold of `Step` over the levels, outermost first; `ProgressBar.ProgressBarWidget.Fold` is proved equal to it, and `CancellableIffAll`, `WeightPositive`, `WeightNonincreasing` and `AggregateNonNegative` state its properties |
| ProgressBar.NoNegativeShare | web_progress/static/src/js/progress_bar.js:45-50 | a level with no negative progress or total never lowers the bar nor makes the weight negative |
| ProgressBar.AggregateNonNegative | web_progress/static/src/js/progress_bar.js:38-52 | over any stack of such levels the shown progress and the weight stay non-negative |
| ProgressBar.ZeroLevelAddsNothing | web_progress/static/src/js/progress_bar.js:45-47 | a level with zero progress or zero total adds nothing |
| ProgressBar.CancellableIffAll | web_progress/static/src/js/progress_bar.js:40-51 | the bar is cancellable iff every level is |
| ProgressBar.WeightNonincreasing | web_progress/static/src/js/progress_bar.js:48-50 | with totals of at least 1 the weight stays positive and never grows |
| ProgressBar.WeightPositive | web_progress/static/src/js/progress_bar.js:48-50 | with totals of at least 1 every prefix has positive weight |
| ProgressBar.WorkedExample | web_progress/static/src/js/progress_bar.js:38-52 | outer 50% of 2 with a complete inner level shows 100% |
| ProgressBar.ProgressBarWidget.DefineProgressCode | web_progress/static/src/js/progress_bar.js:28-30 | sets the followed code and nothing else |
| ProgressBar.ProgressBarWidget.Fold | web_progress/static/src/js/progress_bar.js:38-52 | the loop computes `Aggregate` of the levels |
| ProgressBar.ProgressBarWidget.ShowProgress | web_progress/static/src/js/progress_bar.js:31-70 | fails on an empty list; ignores another code's list; otherwise shows the aggregate with its cancellability |
| ProgressBar.ProgressBarWidget.Destroy | web_progress/static/src/js/progress_bar.js:84 | the `destroy` that `unblockUI` invokes on each bar: marks it destroyed and keeps its code and display |
| ProgressBar.Overlay.BlockUI | web_progress/static/src/js/progress_bar.js:75-81 | appends one fresh empty bar |
| ProgressBar.Overlay.UnblockUI | web_progress/static/src/js/progress_bar.js:83-87 | destroys every listed bar and empties the list |
| ProgressStore.CancelRecord | web_progress/models/web_progress.py:35-39 | the record `cancel_progress(code)` creates: the code, state `cancel`, every other field unset, the depth column NULL; `ProgressStore.CancelThenChecked` shows it cancels its code and `ProgressStore.CancelIsNoParent` that it is never found as a parent |
| ProgressStore.FiltersCode | web_progress/models/web_progress.py:52-53 | `if code:`: only a non-empty code adds a code condition to the domain |
| ProgressStore.Matches | web_progress/models/web_progress.py:49-53 | the domain: the depth column equal to the given depth (a NULL column never matches), and the code when it filters; `ProgressStore.LatestMatch` searches with it |
| ProgressStore.ReadDepth | web_progress/models/web_progress.py:59-60 | `progress_id.recur_depth`: the stored depth, NULL and the empty recordset read as 0; `Stack` counts parents with it |
| ProgressStore.EntryOf | web_progress/models/web_progress.py:62-70 | `progress_vals`: the seven fields copied from the record; `ProgressStore.StackEndsWithLatest` states which record supplies them |
| ProgressStore.LatestMatch | web_progress/models/web_progress.py:55 | the index found matches the domain and no later record does; none means no record matches |
| ProgressStore.Locate | web_progress/models/web_progress.py:50-57 | `progress_id`: the empty recordset when the domain is empty or nothing matches, otherwise the latest record matching the domain |
| ProgressStore.IsCancelled | web_progress/models/web_progress.py:105-109 | true iff some record of the code is in state `cancel` |
| ProgressStore.StackWithoutFilter | web_progress/models/web_progress.py:52-57 | with no code and no depth the answer is the single empty entry |
| ProgressStore.Stack | web_progress/models/web_progress.py:42-74 | the list `get_progress` returns; `GetProgress` is proved to return it and the lemmas below state its shape |
| ProgressStore.Parents | web_progress/models/web_progress.py:59-61 | the lists of the parent depths 0..d-1 in loop order; its length and block layout are `ParentsLength` and `ParentBlockEnd` |
| ProgressStore.StackEndsWithLatest | web_progress/models/web_progress.py:55-72 | with a non-empty domain, if record i matches and no later record does, the last entry is record i's |
| ProgressStore.StackOfUnknownCode | web_progress/models/web_progress.py:52-72 | a code no record carries yields the single empty entry |
| ProgressStore.StackOfTopLevel | web_progress/models/web_progress.py:59-72 | a located record of depth 0 gives a one-entry list |
| ProgressStore.CancelIsNoParent | web_progress/models/web_progress.py:50-61 | a cancel stored between a depth-0 record and a nested depth-1 record of the same code is skipped by the parent search: the answer is the depth-0 record's entry, then the depth-1 record's |
| ProgressStore.HasDepthIffRecord | web_progress/models/web_progress.py:55 | the depth-filtered search finds a record exactly when one whose depth column holds that depth, and of that code, exists; a row with a NULL depth, such as a cancel, is never found |
| ProgressStore.LocateAtDepth | web_progress/models/web_progress.py:50-57 | a depth-filtered search finds a record of that depth |
| ProgressStore.StackLength | web_progress/models/web_progress.py:59-72 | with records at every depth 0..d the answer for depth d has 2^d entries |
| ProgressStore.ParentsLength | web_progress/models/web_progress.py:60-61 | with records at every depth below d, the parent part for depth d has 2^d - 1 entries |
| ProgressStore.ParentsPrefix | web_progress/models/web_progress.py:60-61 | each loop turn appends: the entries already collected keep their positions |
| ProgressStore.ParentsLastBlock | web_progress/models/web_progress.py:60-61 | the block appended for depth k ends, at position 2^(k+1) - 2, with the entry of the latest record of depth k |
| ProgressStore.ParentBlockEnd | web_progress/models/web_progress.py:60-61 | in the parent part for depth d, position 2^(k+1) - 2 holds the entry of depth k, for every k < d |
| ProgressStore.StackSplit | web_progress/models/web_progress.py:59-72 | the answer is the parents' answers followed by the record's own entry |
| ProgressStore.StackIsParentFirst | web_progress/models/web_progress.py:59-72 | parent-first order: position 2^(k+1) - 2 holds the entry of depth k |
| ProgressStore.CancelIsPermanent | web_progress/models/web_progress.py:92-109 | records are only appended, so a cancel stays visible |
| ProgressStore.CancelThenChecked | web_progress/models/web_progress.py:30-39 | after `cancel_progress(code)`, `check_cancelled(code)` is true |
| ProgressStore.ProgressTable.CancelProgress | web_progress/models/web_progress.py:30-39 | for a code, appends one `CancelRecord` of it; for the default `code=None` the `code` column, required at line 14, refuses the create, so nothing is stored |
| ProgressStore.ProgressTable.RecordProgress | web_progress/models/web_progress.py:81-89 | appends exactly the given record when it carries a code; a record without one is refused and nothing is stored |
| ProgressStore.ProgressTable.CheckCancelled | web_progress/models/web_progress.py:92-110 | true iff a cancel record of the code exists |
| ProgressStore.ProgressTable.GetProgress | web_progress/models/web_progress.py:42-74 | the loop-plus-recursion returns `Stack` |
| Reporting.OnePer | web_progress/models/base.py:67-73 | the reporting interval is at least 1: a tenth of the total up to 200, a hundredth above |
| Reporting.Reports | web_progress/models/base.py:74 | whether element `num` is on the reporting interval; `Reporting.ReportsFirstAndEvery` states its cases |
| Reporting.TruncDiv | web_progress/models/base.py:77 | Python's `int()` of a true division, truncating toward zero rather than flooring |
| Reporting.Percent | web_progress/models/base.py:77 | the stored percent, `TruncDiv(100 * num, total)` plus one for a non-zero `num`; `Reporting.PercentBounds` and `Reporting.PercentMonotone` state its range and order |
| Reporting.ReportsFirstAndEvery | web_progress/models/base.py:73-74 | the first element is always reported, and every element of a total below 20 |
| Reporting.PercentBounds | web_progress/models/base.py:77 | for an element inside the range the percent is in 0..100 and 0 only for the first |
| Reporting.PercentMonotone | web_progress/models/base.py:77 | later elements never report a smaller percent |
| Reporting.Repeat | web_progress/models/base.py:99 | `">" * depth` has length `max(depth, 0)` and only `>` |
| Reporting.ProgressRecord | web_progress/models/base.py:100-109 | the `vals` of `_report_progress_store`: message, code, depth, percent, done, total, state and cancellability; `Reporting.Reporter.Store` appends it |
| Reporting.MessageSuffix | web_progress/models/base.py:94 | `msg and (' %s.' % msg) or ''`: a space, the message and a full stop, or nothing for an empty message; `Reporting.LogLineSuffix` states it |
| Reporting.Counts | web_progress/models/base.py:94 | the `%s%% (%s/%s)` part, each number rendered by `Text.Decimal` |
| Reporting.LogLine | web_progress/models/base.py:94-99 | the logged text; `Reporting.LogLinePrefix` and `Reporting.LogLineSuffix` state its shape |
| Reporting.LogLinePrefix | web_progress/models/base.py:94-99 | the log line starts with `depth` `>`s followed by ` Progress ` |
| Reporting.LogLineSuffix | web_progress/models/base.py:94 | the line ends with ` msg.` for a message and with `)` without one |
| Reporting.DoPercent | web_progress/models/base.py:54-79 | silent iff total <= 0 or not on the interval; raises iff reported, cancellable and cancelled; otherwise stores an ongoing record of this code, depth, message and cancellability with `Percent` |
| Reporting.IterRun | web_progress/models/base.py:43-45 | the loop's element count stays within num..steps |
| Reporting.IterRunStep | web_progress/models/base.py:43-45 | one element either raises and stops or continues with the table it leaves |
| Reporting.IterRunFacts | web_progress/models/base.py:42-48 | the table only grows; new records are ongoing, of this code and depth, with percent 0..100; no cancel means every element is yielded; a raise needs `cancellable` |
| Reporting.OperationCode | web_progress/models/base.py:32 | the context's `progress_code` unless absent or empty, else the thread id; stated through `Begin` |
| Reporting.EnterDepths | web_progress/models/base.py:33-38 | the counter update on entry; `Reporting.ExitUndoesEnter` states it |
| Reporting.ExitDepths | web_progress/models/base.py:49-52 | the counter update on exit; `Reporting.ExitUndoesEnter` states it |
| Reporting.ExitUndoesEnter | web_progress/models/base.py:33-52 | entering increments the code's counter, and leaving restores the dictionary exactly |
| Reporting.Reporter.Enter | web_progress/models/base.py:33-38 | returns the previous depth and increments the counter |
| Reporting.Reporter.Exit | web_progress/models/base.py:49-52 | decrements the counter, deleting it at zero |
| Reporting.Reporter.Store | web_progress/models/base.py:81-110 | returns the log line and appends the record with exactly these values |
| Reporting.Reporter.DoPercentStep | web_progress/models/base.py:54-79 | raises and appends as `DoPercent` says |
| Reporting.Begin | web_progress/models/base.py:30-41 | the first `next()` fixes the code, takes the depth stored for it (0 if none) and bounds the loop by `total` and `len(data)` |
| Reporting.DoneRecord | web_progress/models/base.py:48 | the `done` record: 100 percent with `total` of `total` done, at the generator's depth |
| Reporting.Finally | web_progress/models/base.py:46-52 | the `finally` block: the generator ends, the `done` record is stored and the counter released; `Reporting.Advance` and `Reporting.Closing` state when it runs |
| Reporting.Advance | web_progress/models/base.py:42-52 | one resumption: either yields element `num` after reporting it on the current table, or ends (exhausted or raised) by storing the `done` record and releasing the counter |
| Reporting.Resume | web_progress/models/base.py:21-52 | `next()`: a raise needs `cancellable` and a cancel record of the code in the table as it stands; a yield gives the next element; the table only grows, by at most one record; counters stay positive |
| Reporting.Closing | web_progress/models/base.py:46-52 | `close()`: a suspended generator stores the `done` record and releases the counter; one not started or finished changes nothing |
| Reporting.CancelBetweenYields | web_progress/models/base.py:42-52 | a cancel recorded while the generator is suspended raises at the next reported element, storing `done` and releasing the counter |
| Reporting.NestedRunIsDeeper | web_progress/models/base.py:33-38 | a nested run of the same code started while the outer one is suspended gets the next depth; closing it restores the outer counters |
| Reporting.ResumeThenCloseRestores | web_progress/models/base.py:33-52 | starting a generator and closing it leaves the counters as they were |
| Reporting.ConsumeSuspended | web_progress/models/base.py:42-52 | left alone between `next()` calls, a suspended generator does what `IterRun` says, then stores `done` and releases the counter |
| Reporting.AdvanceIsLoopTurn | web_progress/models/base.py:42-52 | one `next()` on a suspended generator with items left is one turn of the loop: `_report_progress_do_percent`, then either the cancel path or the next item with the record it stored |
| Reporting.ConsumeFromStart | web_progress/models/base.py:21-52 | drained from the start: `IterRun`'s elements and raise, always the `done` record, and the counters restored |
| Reporting.ProgressIter.constructor | web_progress/models/base.py:21 | calling `report_progress_iter` runs nothing of its body |
| Reporting.ProgressIter.Next | web_progress/models/base.py:30-45 | `next()` leaves the state `Resume` gives and returns its element or raise |
| Reporting.ProgressIter.Start | web_progress/models/base.py:30-41 | the first `next()` leaves `Begin` and the entered counters |
| Reporting.ProgressIter.Step | web_progress/models/base.py:42-52 | one loop turn leaves the state `Advance` gives |
| Reporting.ProgressIter.Close | web_progress/models/base.py:46-52 | `close()` leaves the state `Closing` gives |
| Reporting.ProgressIter.RunFinally | web_progress/models/base.py:46-52 | appends the `done` record and leaves the counter |
| Wiring.AddArgumentAsWritten | web_progress/static/src/js/ajax.js:26 | as written, `add_progress` receives the trigger's first argument, the function name; `Wiring.AsWrittenTimerSurvives` shows the effect |
| Wiring.AddArgument | web_progress/static/src/js/loading.js:67 | the intended argument, the injected code; `Wiring.CorrectedPollingEnds` is proved for it |
| Wiring.AsWrittenTimerSurvives | web_progress/static/src/js/ajax.js:26 | as written, the timer is keyed `"call"`, so removing the code leaves it pending |
| Wiring.AsWrittenPollsForever | web_progress/static/src/js/loading.js:40-51 | polling a code no record has publishes nothing and reschedules |
| Wiring.UnsetEntryReschedules | web_progress/static/src/js/loading.js:40-51 | the single unset entry is not published but the chain is renewed |
| Wiring.CorrectedPollingEnds | web_progress/static/src/js/loading.js:67-80 | added under its own code while idle, then removed after any events that do not add it again, the code has no key and no pending timeout, and nothing short of adding it again polls it |

## Left out

- Python's locks, threads, the fresh cursor and the commit of `record_progress` and
  `check_cancelled` are not modelled. The table is one sequence; the isolation those give is not
  modelled.
- Log levels and the logger lookup of `_report_progress_store` are not modelled: only the line's
  text is.
- `total` is modelled as a given integer, and `len(data)` as the length of a sequence. A
  generator without `len` is not modelled.
- `web.progress` fields other than those `get_progress` and `check_cancelled` read are not
  modelled (`create_date`, the `name` translation, and so on).
- The progress bar's HTML message, jQuery animation, cancel-button DOM wiring and the
  `rpc_progress_cancel` event it triggers are not modelled: only the width and cancellability
  shown. JavaScript doubles are exact reals.
- `ProgressBar.ProgressBarWidget.ShowProgress`: on an empty list the source throws a `TypeError`
  reading `progress_list[0]`; the model returns `failed`.
- `Ajax.Tag`: a `null` context or a `null` last argument makes the source throw. The model only
  knows primitive last arguments (`threw`) and absent keys.
- `Ajax.Resolve`: keys inherited from `Object.prototype` (`progress_codes["constructor"]` and the
  like) are not modelled. The same holds for `Ajax.CodeRegistry.OnResult` and for the
  `progress_timers` lookup of `remove_progress` (loading.js line 76).
- `ProgressStore.ProgressTable.CancelProgress`: with the default `code=None` the source's create
  raises, because `code` is a required column. The model returns `stored == false` and appends
  nothing, which is what the rolled-back transaction leaves; the exception itself is not modelled.
  `ProgressStore.ProgressTable.RecordProgress` does the same for a record without a code.
- `Reporting.ExitDepths`: leaving a code that has no counter raises `KeyError` in the source. The
  model leaves the map unchanged. This cannot happen after a matching entry
  (`Reporting.ExitUndoesEnter`).
- `Reporting.Args`: the context code and the thread id are fixed when the generator is created.
  The source reads them at the first `next()`, in the thread that calls it.
- `Text.Decimal`: JavaScript renders numbers of 1e21 and more in exponent form. The model
  coerces integers only.
- `Math.random` is an oracle `nat -> nibble`. Real timers, the RPC transport, the `core.bus`
  event system and the `'progress' in self` check are modelled as state and events, not
  executed.
- `destroy` of the `Loading` widget does not detach its bus handlers. Later events are not
  modelled.
- `move_to_background` only resets a counter that nothing else reads, so it is not modelled.
- `progress_menu.js`, `rpc_service.js`, the controller, `base_import.py` and
  `ir_actions_report.py` are not part of this model. They only call the core.
- Python closes a generator when it is garbage-collected, which runs the `finally` block. The
  model runs it only on an explicit `Close`. A generator that is dropped while suspended keeps
  its depth counter.
- An exception raised by the consumer's own loop body is not modelled.

`destroy` clears every timeout stored under a key, but that does not end all polling. There are
two ways polling goes on:

- `add_progress` overwrites a key without clearing its old timeout, and that timeout survives
  `destroy` (`Loading.AddOrphans`).
- `destroy` keeps the keys, so a poll in flight when it runs arms a new timeout when its response
  arrives (`Loading.DestroyThenResultRearms`).

So `destroy` leaves nothing pending only while codes are added when idle
(`Loading.DestroyClearsAll`), and only until a response to an earlier poll arrives. The model
follows the code.

## Findings

| source | as written | input that shows it | evidently intended | confidence | as-written member | corrected member |
|---|---|---|---|---|---|---|
| web_progress/static/src/js/ajax.js:26 | `rpc_progress_request` is triggered with `(fct_name, params, progress_code)`, while the `Loading` handler `add_progress(progress_code)` takes the code as its first argument, so the timer is keyed by the function name `"call"`; `remove_progress(code)` then finds nothing and the timer polls `get_progress("call")` forever | any eligible call, e.g. `/web/dataset/call_kw` with `kwargs.context = {}` | the timer is keyed by the injected progress code, so the result's `remove_progress(code)` stops it | not executed; high | Wiring.AsWrittenTimerSurvives | Wiring.CorrectedPollingEnds |
