# Agentic dashboard: the filter store, the tool-call dispatcher and the record filter

This project models the core of a business dashboard with a chat assistant. The assistant's
reply may carry tool calls (`filterData`, `changeView`, `clearFilters`). The chat panel applies
them one by one to a shared store that holds four fields:

- the sales records;
- a flat filter bag with the keys `minAmount`, `maxAmount`, `category`, `region` and `search`;
- a view mode;
- a loading flag.

The data panel then filters the records with a five-part predicate. Each part is guarded by
JavaScript truthiness.

Modules (one per source file, plus two small ones):

- `JsValues` (`js_values.dfy`) holds the JavaScript notions the code relies on:
  - primitive values and their truthiness;
  - optional properties (`Prop`): a key can be absent, or present holding `undefined`, `null` or a value;
  - object spread on one key.
- `Store` (`store.dfy`, from `src/lib/store.ts`) holds the records, the filter bag and the spread
  merge `Merge`. The store itself is the class `DashboardStore`, whose five actions overwrite its
  fields. Each action's postcondition gives the whole new state as the old state with one field
  replaced.
- `Chat` (`chat_interface.dfy`, from `src/components/dashboard/ChatInterface.tsx`) holds:
  - the message and tool-call shapes;
  - the `undefined`-key clean-up loop;
  - the dispatch as a fold of tool calls over the store state (`ApplyCall`, `ApplyCalls`, `Dispatch`);
  - the class `ChatSession`, whose `OnSuccess` runs the `forEach` loop and `HandleSubmit` the form handler.
- `DataView` (`data_view.dfy`, from `src/components/dashboard/DataView.tsx`) holds:
  - the record predicate `Keep` and the filtered list `Filtered`;
  - the badge row and the "Showing all data" label.
- `Scenarios` (`scenarios.dfy`) holds end-to-end consequences on the seed records.

Dispatch behaviours of the code that the model keeps:

- When `JSON.parse` throws on a call's arguments, the exception leaves the `forEach`
  (ChatInterface.tsx:54). Earlier calls stay applied, and that call and every later one are
  skipped (`Dispatch`, `DispatchStopsAtParseFailure`).
- `changeView` stores `args.mode` with no check that it is `table` or `chart`
  (ChatInterface.tsx:63). `"pie"`, `null` or a missing `mode` all end up in `viewMode`. So the
  store's `viewMode` is modelled as an arbitrary JavaScript value (`ChangeViewUnchecked`).
- A call with an unknown tool name is logged like every call whose arguments parse
  (ChatInterface.tsx:56; the model omits the log). Otherwise it has no effect (`UnknownToolIgnored`).

Facts about the code that the proofs bring out:

- A filter key holding a falsy value (`region: ""`, `minAmount: 0`, `null`) counts as a key for
  `Object.keys`. So the panel shows neither a badge nor "Showing all data", yet every record is
  listed (`FalsyKeyHidesLabel`). For `minAmount: 0` or `maxAmount: 0` the expression
  `value && <Badge …/>` evaluates to `0`, which React renders as a stray "0" text in the badge row.
  The model's badge set (`BadgeKeys`) does not include that text.
- Text from `JSON.parse` never contains `undefined`, so the clean-up at ChatInterface.tsx:60 can
  only matter for arguments built in code. The model keeps it: `FilterDataMerges` proves that an
  `undefined` key never overwrites a filter, whereas `Store.Merge` alone (a direct `setFilter`)
  would store the `undefined`.

## Model

| member | source | states |
|---|---|---|
| `Store.Merge` | src/lib/store.ts:55-56 | The merged bag owns the union of both key sets; every key of the partial takes the partial's value (even `undefined`); every other key keeps its old value |
| `Store.MergeEmptyPartial` | src/lib/store.ts:55-56 | `setFilter({})` leaves the filters unchanged |
| `Store.MergeIntoEmpty` | src/lib/store.ts:55-57 | Merging into the empty bag yields exactly the partial |
| `Store.MergeIdempotent` | src/lib/store.ts:55-56 | Applying the same partial twice equals applying it once |
| `Store.MergeAssociative` | src/lib/store.ts:55-56 | Two consecutive `setFilter` calls equal one call with the merged partial |
| `Store.InitialDataWellFormed` | src/lib/store.ts:37-46 | There are eight seed records, with pairwise-distinct ids and non-negative amounts |
| `Store.DashboardStore.constructor` | src/lib/store.ts:48-52 | Initial state: the seed records, no filter keys, the `table` view, not loading |
| `Store.DashboardStore.SetData` | src/lib/store.ts:54 | Replaces the records; the other three fields are unchanged |
| `Store.DashboardStore.SetFilter` | src/lib/store.ts:55-56 | Filters become the spread merge; keys present in the partial take its values, absent keys keep theirs; data, view mode and loading unchanged |
| `Store.DashboardStore.ClearFilters` | src/lib/store.ts:57 | Filters become `{}` (no keys) from any prior state; data, view mode and loading unchanged |
| `Store.DashboardStore.SetViewMode` | src/lib/store.ts:58 | View mode becomes exactly the argument; nothing else changes |
| `Store.DashboardStore.SetLoading` | src/lib/store.ts:59 | Loading flag becomes the argument; nothing else changes |
| `Chat.Delete` | src/components/dashboard/ChatInterface.tsx:60 | `delete args[k]` removes exactly key `k` and keeps every other entry |
| `Chat.StripUndefined` | src/components/dashboard/ChatInterface.tsx:60 | The cleaned arguments own exactly the keys whose value is not `undefined`, with their original values |
| `Chat.DeleteUndefinedKeys` | src/components/dashboard/ChatInterface.tsx:60 | The key-by-key delete loop yields exactly `StripUndefined` of its input |
| `Chat.ApplyCall` | src/components/dashboard/ChatInterface.tsx:58-66 | No tool call touches the records or the loading flag |
| `Chat.ApplyCalls` | src/components/dashboard/ChatInterface.tsx:51-67 | A run of parsed calls never touches the records or the loading flag |
| `Chat.FirstParseFailure` | src/components/dashboard/ChatInterface.tsx:51-54 | None exactly when every call parses; otherwise the index of a call that fails to parse, with all calls before it parsing |
| `Chat.Dispatch` | src/components/dashboard/ChatInterface.tsx:50-67 | The dispatch of a reply leaves the records and the loading flag as they were |
| `Chat.ApplyCallsAppend` | src/components/dashboard/ChatInterface.tsx:51-67 | Calls apply in list order: applying `a ++ b` equals applying `a` and then `b` |
| `Chat.DispatchStopsAtParseFailure` | src/components/dashboard/ChatInterface.tsx:51-54 | If call `i` fails to parse, the calls before it stay applied, `i` is reported, and no later call has any effect |
| `Chat.FirstFailureIs` | src/components/dashboard/ChatInterface.tsx:51-54 | The first call that fails to parse is the one the loop stops at |
| `Chat.DispatchAllParsed` | src/components/dashboard/ChatInterface.tsx:51-67 | When every call parses, all are applied in order and no failure is reported |
| `Chat.DispatchNoCalls` | src/components/dashboard/ChatInterface.tsx:50 | A reply without tool calls leaves the store unchanged |
| `Chat.FilterDataMerges` | src/components/dashboard/ChatInterface.tsx:58-61 | `filterData`: a key with a non-`undefined` value overwrites; a key that is missing or `undefined` keeps the old filter; the view mode is untouched |
| `Chat.ChangeViewUnchecked` | src/components/dashboard/ChatInterface.tsx:62-63 | `changeView` stores `args.mode` as it is (a missing mode stores `undefined`), leaves the filters alone, and is idempotent |
| `Chat.ClearFiltersIgnoresArgs` | src/components/dashboard/ChatInterface.tsx:64-65 | `clearFilters` gives the same state whatever its arguments: no filters, view mode unchanged |
| `Chat.UnknownToolIgnored` | src/components/dashboard/ChatInterface.tsx:58-66 | A tool with any other name leaves the store unchanged |
| `Chat.FilterThenClear` | src/components/dashboard/ChatInterface.tsx:51-67 | `filterData` followed by `clearFilters` ends with no filter keys |
| `Chat.ClearThenFilter` | src/components/dashboard/ChatInterface.tsx:51-67 | `clearFilters` followed by `filterData(a)` ends with exactly the non-`undefined` keys of `a`, with `a`'s values |
| `Chat.TrimStart` | src/components/dashboard/ChatInterface.tsx:74 | The result is a suffix of the input that does not start with white space, and everything dropped is white space |
| `Chat.TrimEnd` | src/components/dashboard/ChatInterface.tsx:74 | The result is a prefix of the input that does not end with white space, and everything dropped is white space |
| `Chat.TrimEmptyIffBlank` | src/components/dashboard/ChatInterface.tsx:74 | `input.trim()` is empty exactly when every character of the input is white space |
| `Chat.ChatSession.constructor` | src/components/dashboard/ChatInterface.tsx:26-29 | The history starts with the greeting alone and the input is empty |
| `Chat.ChatSession.SetInput` | src/components/dashboard/ChatInterface.tsx:146 | Typing replaces the input and leaves the history alone |
| `Chat.ChatSession.HandleSubmit` | src/components/dashboard/ChatInterface.tsx:72-83 | Blank input: history and input unchanged, nothing sent. Otherwise: history grows by one user message holding the untrimmed input, the input is cleared, and the new history is sent |
| `Chat.ChatSession.OnSuccess` | src/components/dashboard/ChatInterface.tsx:45-68 | The reply is appended to the history exactly once, with or without tool calls; the store ends in the state `Dispatch` gives, and the index of a call that threw in `JSON.parse` is returned |
| `DataView.AmountBound` | src/components/dashboard/DataView.tsx:15-16 | An amount key constrains exactly when its value is truthy, i.e. a non-zero number |
| `DataView.TextBound` | src/components/dashboard/DataView.tsx:17-19 | A string key constrains exactly when its value is truthy, i.e. a non-empty string |
| `DataView.IncludesIff` | src/components/dashboard/DataView.tsx:19 | `includes` holds exactly when the needle occurs at some position of the haystack |
| `DataView.KeepIff` | src/components/dashboard/DataView.tsx:15-20 | A record is kept exactly when it meets every truthy key: amount ≥ `minAmount`, amount ≤ `maxAmount`, equal category, equal region, lower-cased product containing lower-cased `search` |
| `DataView.Filtered` | src/components/dashboard/DataView.tsx:14-21 | The filtered list is no longer than the data, holds only records of the data, and every record in it passes the predicate (soundness) |
| `DataView.FilteredIsSubsequence` | src/components/dashboard/DataView.tsx:14 | The filtered list is an order-preserving subsequence of the data |
| `DataView.FilteredCounts` | src/components/dashboard/DataView.tsx:14-21 | Soundness and completeness with multiplicity: a kept record occurs as often as in the data, a rejected one never |
| `DataView.FilteredMembership` | src/components/dashboard/DataView.tsx:14-21 | A record is listed exactly when it is in the data and passes the predicate |
| `DataView.UnconstrainedShowsAll` | src/components/dashboard/DataView.tsx:15-19 | A bag with no truthy key lists all the data, in order |
| `DataView.NoFiltersShowsAll` | src/components/dashboard/DataView.tsx:14-21 | The empty filter bag lists exactly the data |
| `DataView.SameConstraintsSameList` | src/components/dashboard/DataView.tsx:15-19 | Bags with the same truthy constraints (search compared lower-cased) give the same list |
| `DataView.FalsyValuesImposeNothing` | src/components/dashboard/DataView.tsx:15-19 | A `minAmount`/`maxAmount` of 0, or an empty `category`/`region`/`search`, filters exactly like an absent key |
| `DataView.SearchIgnoresCase` | src/components/dashboard/DataView.tsx:19 | Two searches that agree after lower-casing give the same list |
| `DataView.FilteredMonotone` | src/components/dashboard/DataView.tsx:14-21 | A bag that keeps every truthy constraint of another and adds more lists a subsequence of the other's list |
| `DataView.MergeNewConstraintsShrinks` | src/components/dashboard/DataView.tsx:14-21 | A `setFilter` that sets only keys unconstrained so far can only shrink the listed records |
| `DataView.BadgesAreConstraints` | src/components/dashboard/DataView.tsx:26-28 | A badge is shown for a key (an own entry with a truthy value) exactly when the record filter applies a bound for that key |
| `DataView.ShowsAllDataIff` | src/components/dashboard/DataView.tsx:26-29 | "Showing all data" appears exactly when the bag has no keys; then there are no badges and every record is listed |
| `DataView.FalsyKeyHidesLabel` | src/components/dashboard/DataView.tsx:26-29 | A bag whose only key is falsy shows neither a badge nor the label, yet lists every record |
| `Scenarios.NorthScenario` | src/components/dashboard/ChatInterface.tsx:51-61 | From the initial state, `filterData({region: "North"})` leaves exactly that filter and the panel lists the two northern seed records |
| `Scenarios.NorthRecords` | src/components/dashboard/DataView.tsx:14-21 | Filtering the seed records by region "North" keeps records 1 and 5, in that order |
| `Scenarios.ChartScenario` | src/components/dashboard/ChatInterface.tsx:62-63 | From the initial state, `changeView({mode: "chart"})` switches the view mode from `table` to `chart` and leaves the filters empty |
| `Scenarios.UnknownToolScenario` | src/components/dashboard/ChatInterface.tsx:58-66 | A `deleteAllData` call leaves the store unchanged and reports no failure |
| `Scenarios.MalformedCallHidesLaterClear` | src/components/dashboard/ChatInterface.tsx:51-54 | A malformed first call stops the loop, so a valid `clearFilters` after it has no effect |

## Left out

- The completion endpoint (`src/app/api/chat/route.ts`) is not part of this model. It makes the network call to the model provider, holds the credential, the fixed system prompt and the tool schema, and maps errors to a server error.
- The asynchronous request (`fetch`, `isPending`, network errors at ChatInterface.tsx:36-44) is not modelled. `HandleSubmit` returns the history it would send, and `OnSuccess` takes the reply as a parameter.
- What the query library does with the exception thrown by `JSON.parse` is not modelled. `OnSuccess` returns the index of the failing call instead.
- Real JSON parsing is replaced by already-parsed arguments: `None` when `JSON.parse` throws, otherwise a record of the five filter keys and `mode`.
- Parsed arguments are assumed to be objects holding only the declared keys, each with a value of its declared type, `null` or `undefined`. Unknown keys are not modelled, although `setFilter` would copy them into the bag. Wrongly typed values and arguments that parse to `null`, a number or an array are not modelled either.
- Chat.ApplyCall: a `mode` key on a `filterData` call is dropped, although `setFilter` would copy it into the filter bag. There it would add a `mode` badge and hide "Showing all data". The bag holds only the five declared keys. Chat.ClearThenFilter inherits this: its "exactly the keys of `a`" covers only those five.
- Chat.DeleteUndefinedKeys: visits all five keys, not `Object.keys(args)`. Deleting an absent key is a no-op, so the result is the same. It works on a local value rather than the parsed object in place. Nothing else holds that object, so the difference cannot be observed.
- Chat.ChatSession.OnSuccess: appends the reply at once. React queues the `setMessages` update, but the value appended is the same. The `console.log` at line 56 is omitted.
- Message `content` collapses `null` and a missing value into `None`.
- Amounts are integers. JavaScript numbers with fractions, `NaN` and infinities are not modelled, because the code only compares amounts.
- DataView.Keep: lower-cases ASCII letters only. Full Unicode `toLowerCase` is not modelled.
- The badge row is modelled as the set of keys that get a badge. The badges' order (the keys' insertion order) and their text are left out.
- Rendering is left out: JSX, the table and the chart, date formatting, the scroll-to-bottom effect (ChatInterface.tsx:85-89), the layout and page files.
- The store library's subscriber notifications are left out.
