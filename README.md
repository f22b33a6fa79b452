# School lost-and-found coding system — Dafny model

This project models the logic of a school lost-and-found web app. Staff map item
categories and campus locations to one-character codes. They register found items,
each of which receives a composed identifier `T-LF-YYMMDDHHMM-GCCNN`:

- category code;
- location code plus floor;
- a ten-digit time code;
- the finder's grade, class and student number.

Staff then search the item list, record claims, read dashboard statistics, print a label
that splits the identifier back into its four parts, and practise the code prefix in a quiz.

One Dafny module per source file:

| module | file | form |
|---|---|---|
| `Types` | types.ts | datatypes for rules, records, the global state and the enumerations; class `Store`, the state cell `state`/`setState` every view receives |
| `RuleConfig` | RuleConfigManager.tsx | pure table transforms (`AddRule`, `UpdateCode`, `SetLabel`, `RemoveRule`) with the namespace invariant; class `RuleConfigManager` whose handlers update the store |
| `EntryForm` | StandardEntryForm.tsx | floor and finder domains, `TimeCode`, `ComposeCode`, the submit decision `SubmitItem`; class `StandardEntryForm` with the form fields and `Submit` |
| `ItemTable` | views/ItemDataTable.tsx | the filter, `ClaimById`, the name lookups; class `ItemDataTable` with the dialog state and `SubmitClaim` |
| `Dashboard` | views/Dashboard.tsx | counts, the rounded claim rate, the chart distributions, the activity log |
| `QRLabel` | components/QRCodeLabel.tsx | `Split` (JavaScript `split`), `Decompose`, the download name |
| `Learn` | views/Learn.tsx | question generation, the answer check; class `Quiz` with the streak |
| `App` | App.tsx | the preset tables and the load-or-default initializer |

Two helper modules hold what the source takes from the JavaScript runtime:

- `Text` has the ASCII case maps, `trim` with the ECMAScript white-space set, and `includes`.
- `Seqs` has `filter`, order-preserving subsequences and pairwise predicates.

A TypeScript interface becomes a `datatype`. A `useState` field becomes a field of the
component's class. A handler that calls `setState(prev => ...)` becomes a method that
assigns `store.state`; its `ensures` gives the new state through the pure transform and
states that the invariant is kept. Clock readings, parsed timestamps, fresh ids and random
draws are parameters.

What the proofs establish:

- Each namespace keeps the table invariant under every rule handler. The invariant is: no
  two rules share a non-empty code, ids are distinct, and every code has at most one
  character. A rejected change leaves the table as it was, and rule handlers never touch
  the item list.
- The composed identifier splits back into exactly its segments when no rule code
  contains `-` and the date-time field is empty or of the form `YYYY-MM-DDTHH:mm`
  (`QRLabel.StoredCodeRoundTrip`). A code `-` is accepted by normalisation and
  breaks this (`QRLabel.DashCodeBreaksRoundTrip`).
- Submit prepends one `lost` record with no claim details, or changes nothing. A claim
  changes only the status and claim fields of the matching record. Both keep the item
  list consistent: distinct ids, and claim details exactly on claimed records.
- Dashboard: `lost + claimed = total`. The rate is the nearest whole percentage. The
  category bars add up to the records whose category still exists.
- Quiz: answers are checked up to case and surrounding white space. An answer that
  begins with white space, as one built from a code `" "` does, can never be entered.
  The quiz screen can show while no question can be drawn.

Behaviour of the code worth knowing:

- Claiming has no "already claimed" or "not found" error. `submitClaim` never checks
  status. Only `lost` rows offer the action, so `SubmitClaim` requires the record to be
  `lost`. Claiming an absent id changes nothing (`ItemTable.ClaimAbsentIsNoop`).
- The defaults are three categories and eight locations, all with empty codes.
- The claim rate is a whole percentage between 0 and 100.
- A missing rule and a rule with an empty code give the same submit error.
- A name lookup gives 未知 for a dangling id and also for a rule whose label is empty.

The `label` field of `EncodingRule` is named `labelText`, because `label` is a Dafny keyword.

## Model

| member | source | states |
|---|---|---|
| Types.Store.constructor | types.ts:38-42 | the shared state cell starts with the given global state |
| RuleConfig.Normalize | RuleConfigManager.tsx:12 | a normalised code has at most one character, is empty exactly when the input is, and is the upper-cased first character |
| RuleConfig.FindById | StandardEntryForm.tsx:64-65 | `find` by id: the result is the first rule with that id; a found rule is in the table with that id; nothing is found exactly when no rule has the id |
| RuleConfig.FindByIdAt | StandardEntryForm.tsx:64-65 | with distinct ids, looking up a rule's id finds that rule |
| RuleConfig.AddRule | RuleConfigManager.tsx:10-25 | ignored exactly when label or raw code is empty; rejected with the normalised code exactly when a rule already holds it; otherwise the table gains exactly one rule at its end |
| RuleConfig.SetLabel | RuleConfigManager.tsx:52-57 | only the labels of rules with the id change; ids, codes and length are kept; labels are not checked for uniqueness |
| RuleConfig.UpdateCode | RuleConfigManager.tsx:36-50 | never ignored; rejected exactly when the normalised code is non-empty and held by a rule with another id; otherwise only the code of the rules with the id changes |
| RuleConfig.RemoveRule | RuleConfigManager.tsx:31-33 | the result is an order-preserving subsequence holding exactly the rules without that id, each as many times as in the table |
| RuleConfig.RemoveUnknownIsNoop | RuleConfigManager.tsx:31-33 | removing an id no rule has returns the table unchanged |
| RuleConfig.RemoveRuleKeepsWellFormed | RuleConfigManager.tsx:31-33 | removal keeps the namespace invariant |
| RuleConfig.AddRuleKeepsWellFormed | RuleConfigManager.tsx:15-25 | with a fresh id, adding keeps the namespace invariant |
| RuleConfig.UpdateCodeKeepsWellFormed | RuleConfigManager.tsx:39-50 | a code update keeps the namespace invariant |
| RuleConfig.SetLabelKeepsWellFormed | RuleConfigManager.tsx:52-57 | a label update keeps the namespace invariant |
| RuleConfig.ClearOrOwnCodeAccepted | RuleConfigManager.tsx:39-40 | in a well-formed table, clearing a rule's code or re-setting its own code is never rejected |
| RuleConfig.SharedIdBreaksUniqueness | RuleConfigManager.tsx:45-50 | two rules sharing an id both take a new code, so distinct ids are needed for code uniqueness |
| RuleConfig.RuleConfigManager.constructor | RuleConfigManager.tsx:6-7 | both form fields start empty |
| RuleConfig.RuleConfigManager.SetNewCatLabel | RuleConfigManager.tsx:110 | the label field takes the typed value |
| RuleConfig.RuleConfigManager.SetNewCatCode | RuleConfigManager.tsx:118 | the code field takes the typed value |
| RuleConfig.RuleConfigManager.AddCategory | RuleConfigManager.tsx:9-29 | the store's categories become the `AddRule` outcome and nothing else changes; error note on rejection, success note and cleared fields on success; the invariant is kept |
| RuleConfig.RuleConfigManager.RemoveCategory | RuleConfigManager.tsx:31-33 | only the categories change, to `RemoveRule`; the invariant is kept |
| RuleConfig.RuleConfigManager.UpdateCategory | RuleConfigManager.tsx:35-59 | a label edit applies `SetLabel`; a code edit applies `UpdateCode` or leaves the state unchanged with a conflict note; the invariant is kept |
| RuleConfig.RuleConfigManager.UpdateLocationCode | RuleConfigManager.tsx:61-76 | only the locations change, checked among locations alone; conflict note on rejection; the invariant is kept |
| EntryForm.DefaultFloor | StandardEntryForm.tsx:199-209 | the floor chosen on a location change is always an offered option, and is "0" exactly for outdoor locations |
| EntryForm.TwoDigits | StandardEntryForm.tsx:128-129 | `padStart(2, '0')` gives two digits whose value is the number |
| EntryForm.PersonCodeShape | StandardEntryForm.tsx:127-129 | a finder from the grade, class and student domains gives a five-digit person segment |
| EntryForm.Slice | StandardEntryForm.tsx:52-56 | `slice` clamped to the string: the substring `[from, to)` when it lies inside the string, the rest of the string from `from` when `to` runs past the end, empty when `from` does; never longer than the requested range |
| EntryForm.TimeCode | StandardEntryForm.tsx:49-58 | the sentinel "0000000000" for an empty field; never longer than ten characters |
| EntryForm.TimeCodeOfLocalDateTime | StandardEntryForm.tsx:51-57 | for a `YYYY-MM-DDTHH:mm` field the time code is ten digits: year without century, month, day, hour, minute |
| EntryForm.CodeOrUnset | StandardEntryForm.tsx:68-69 | the rule's code when the rule exists and has one, "?" otherwise |
| EntryForm.SubmitItem | StandardEntryForm.tsx:90-114 | skipped exactly when name, type or location is empty; an error exactly when either rule is missing or unconfigured; otherwise a `lost` record with the fresh id, the given code, the finder label and no claim details |
| EntryForm.StoredCodeUsesRuleCodes | StandardEntryForm.tsx:93-99 | a record stored from the current preview carries the real rule codes, never "?", in the type and location positions |
| EntryForm.StoreKeepsItemsConsistent | StandardEntryForm.tsx:101-119 | prepending a fresh `lost` record keeps ids distinct and claim details consistent |
| EntryForm.StandardEntryForm.constructor | StandardEntryForm.tsx:7-24 | the initial fields, which satisfy the domain invariant |
| EntryForm.StandardEntryForm.RefreshCode | StandardEntryForm.tsx:63-76 | the preview becomes the code composed from the current fields and rules |
| EntryForm.StandardEntryForm.SetItemName | StandardEntryForm.tsx:167 | the name field takes the typed value |
| EntryForm.StandardEntryForm.SelectType | StandardEntryForm.tsx:176 | the category selection takes the chosen id |
| EntryForm.StandardEntryForm.SelectLocation | StandardEntryForm.tsx:199-209 | the location changes and the floor resets to the default for it; the form stays within its domains |
| EntryForm.StandardEntryForm.SelectFloor | StandardEntryForm.tsx:226 | an offered floor is selected; the form stays within its domains |
| EntryForm.StandardEntryForm.SelectGrade | StandardEntryForm.tsx:282 | an offered grade is selected; the form stays within its domains |
| EntryForm.StandardEntryForm.SelectClass | StandardEntryForm.tsx:292 | an offered class is selected; the form stays within its domains |
| EntryForm.StandardEntryForm.SelectStudent | StandardEntryForm.tsx:302 | an offered student number is selected; the form stays within its domains |
| EntryForm.StandardEntryForm.HandleTimeChange | StandardEntryForm.tsx:78-81 | typing a time switches the clock off and stores the value |
| EntryForm.StandardEntryForm.ResetAutoTime | StandardEntryForm.tsx:83-86 | the clock is switched back on and the field takes the current time |
| EntryForm.StandardEntryForm.Submit | StandardEntryForm.tsx:88-124 | on success exactly one record is prepended, the name is cleared and the clock restarts; otherwise the store is unchanged; the matching notes; stored fields lie in the form's domains; the item-list invariant is kept |
| ItemTable.FilteredItems | views/ItemDataTable.tsx:18-25 | the shown rows are an order-preserving subsequence holding exactly the records that match both the category filter and the search, each as many times as in the list |
| ItemTable.EmptySearchShowsAll | views/ItemDataTable.tsx:20-23 | with filter "all" and an empty term every record is shown, in order |
| ItemTable.SearchIgnoresCase | views/ItemDataTable.tsx:20-23 | upper-casing the term does not change which records match |
| ItemTable.ClaimById | views/ItemDataTable.tsx:41-51 | same length; records with other ids unchanged; the matching record becomes `claimed` with the claimer and time, all its other fields kept |
| ItemTable.ClaimKeepsCodesAndClaims | views/ItemDataTable.tsx:41-51 | a claim never changes an id or a generated code and never turns a claimed record back to lost |
| ItemTable.ClaimKeepsItemsConsistent | views/ItemDataTable.tsx:41-51 | a claim keeps ids distinct and claim details exactly on claimed records |
| ItemTable.ClaimAbsentIsNoop | views/ItemDataTable.tsx:43-50 | claiming an id no record has changes nothing |
| ItemTable.NameOrUnknown | views/ItemDataTable.tsx:57-58 | the name is the label of the first rule with the id, or 未知 when that label is empty; 未知 for a dangling id; never empty |
| ItemTable.ItemDataTable.constructor | views/ItemDataTable.tsx:7-16 | filter "all", empty search, no dialogs open |
| ItemTable.ItemDataTable.Rows | views/ItemDataTable.tsx:18-25 | the table rows are a subsequence of the item list |
| ItemTable.ItemDataTable.SetSearchTerm | views/ItemDataTable.tsx:72 | the term changes and the rows become the filter over the new term |
| ItemTable.ItemDataTable.SetFilterType | views/ItemDataTable.tsx:82 | the category filter changes and the rows become the filter over it |
| ItemTable.ItemDataTable.ShowLabel | views/ItemDataTable.tsx:143 | the label dialog opens on the row's record |
| ItemTable.ItemDataTable.CloseLabel | views/ItemDataTable.tsx:194 | the label dialog closes |
| ItemTable.ItemDataTable.SetClaimerName | views/ItemDataTable.tsx:236 | the claimer field takes the typed value |
| ItemTable.ItemDataTable.SetClaimDate | views/ItemDataTable.tsx:251 | the claim-date field takes the typed value |
| ItemTable.ItemDataTable.CancelClaim | views/ItemDataTable.tsx:259 | the claim dialog closes |
| ItemTable.ItemDataTable.OpenClaimModal | views/ItemDataTable.tsx:27-35 | reachable only for a `lost` record: the dialog opens on it with an empty claimer and the current time |
| ItemTable.ItemDataTable.SubmitClaim | views/ItemDataTable.tsx:37-55 | nothing changes without a record, claimer or date; otherwise the item list becomes `ClaimById`, the dialog closes and the success note names the item; the item-list invariant is kept |
| Dashboard.CountsPartition | views/Dashboard.tsx:11-13 | lost count plus claimed count equals the total |
| Dashboard.RoundedPercent | views/Dashboard.tsx:14 | 0 for an empty list; otherwise at most 100 and the nearest whole percentage, halves rounded up |
| Dashboard.ClaimRate | views/Dashboard.tsx:14 | the claim rate is in [0,100], 0 for an empty list, and otherwise the rounded percentage of claimed records |
| Dashboard.CategoryData | views/Dashboard.tsx:17-20 | one bar per category in table order, zero counts included, each counting the records with that `typeId` |
| Dashboard.LocationData | views/Dashboard.tsx:23-27 | one spoke per location in table order, full mark 20, each counting the records with that `locId` |
| Dashboard.CategoryCountsCoverKnownItems | views/Dashboard.tsx:17-20 | with distinct ids, the bars add up to the records whose category exists, never more than the total, and to the total when every reference resolves |
| Dashboard.LocationCountsCoverKnownItems | views/Dashboard.tsx:23-27 | the same for locations |
| Dashboard.RecentLog | views/Dashboard.tsx:304 | the log is the first min(10, n) records, the newest |
| Dashboard.SubmitAddsOneLost | views/Dashboard.tsx:11-13 | a stored record adds one to the lost count, none to the claimed count, and heads the log |
| Dashboard.ClaimMovesOneRecord | views/Dashboard.tsx:11-13 | with distinct ids, claiming a `lost` record keeps the total and moves exactly one record from lost to claimed |
| QRLabel.Split | components/QRCodeLabel.tsx:17 | `split` on one character: at least one part, and no part contains the separator |
| QRLabel.SplitJoin | components/QRCodeLabel.tsx:17 | splitting a join of separator-free parts returns the parts |
| QRLabel.JoinSplit | components/QRCodeLabel.tsx:17 | joining the parts of any string returns the string |
| QRLabel.Decompose | components/QRCodeLabel.tsx:17-21 | all four parts are non-empty and free of `-`; the lemmas below give the parts for each number of segments |
| QRLabel.OneSegment | components/QRCodeLabel.tsx:17-21 | a code without `-` is the type part; location, time and person read "?" |
| QRLabel.TwoSegments | components/QRCodeLabel.tsx:17-21 | a two-segment code gives the type and location parts; time and person read "?" |
| QRLabel.ThreeSegments | components/QRCodeLabel.tsx:17-21 | a three-segment code gives type, location and time; the person part reads "?" |
| QRLabel.DecomposeComposed | components/QRCodeLabel.tsx:17-21 | a composed code with `-`-free segments decomposes into type code, location code plus floor, time code and person code |
| QRLabel.ExtraSegmentsIgnored | components/QRCodeLabel.tsx:17-21 | segments after the fourth do not change the label |
| QRLabel.StoredCodeRoundTrip | components/QRCodeLabel.tsx:17-21 | a stored record with `-`-free rule codes, an empty or well-formed date and a finder from the domains decomposes into exactly its rule codes, floor, time code and person code |
| QRLabel.DashCodeBreaksRoundTrip | components/QRCodeLabel.tsx:17-21 | the code "-" passes normalisation, and then the type and location parts read "?" while the other segments shift |
| QRLabel.DownloadName | components/QRCodeLabel.tsx:38 | the file name is "QR-", the code, then ".png" |
| Learn.ConfiguredRules | views/Learn.tsx:13-14 | an order-preserving subsequence holding exactly the rules with a code, each as many times as in the table |
| Learn.QuizFloor | views/Learn.tsx:20 | the quiz floor is one of "0".."4" |
| Learn.NextQuestion | views/Learn.tsx:11-27 | no question exactly when no category or no location has a code; otherwise the labels and answer of a configured category and location with a floor "0".."4" |
| Learn.PaddedAnswerAccepted | views/Learn.tsx:38-40 | any casing of the answer, padded with white space, is accepted |
| Learn.BlankEdgedAnswerRejected | views/Learn.tsx:38-40 | an answer beginning or ending with white space is never accepted |
| Learn.AnswerIsCodePrefix | views/Learn.tsx:26 | the answer is the `T-LF` prefix of the code the entry form composes |
| Learn.QuizFloorsDifferFromForm | views/Learn.tsx:20 | for an indoor location the quiz can ask floor "0", which the form never offers, and never asks floor "5", which the form offers |
| Learn.ConfigShownWithoutQuestion | views/Learn.tsx:50 | with categories all unconfigured and a configured location, the quiz screen shows but no question is drawn |
| Learn.Quiz.constructor | views/Learn.tsx:6-9 | no question, empty input, no feedback, streak 0 |
| Learn.Quiz.GenerateQuestion | views/Learn.tsx:11-30 | a drawn question replaces the old one and clears input and feedback; with no configured rules nothing changes |
| Learn.Quiz.SetUserAnswer | views/Learn.tsx:90 | the input takes the typed value |
| Learn.Quiz.CheckAnswer | views/Learn.tsx:36-48 | feedback is correct exactly when the answer is accepted; the streak grows by one on a correct answer and resets to 0 otherwise |
| App.InitialState | App.tsx:32-46 | the defaults when no snapshot loads; the parsed snapshot as it is otherwise |
| App.PresetCategoriesWellFormed | App.tsx:12-16 | the preset categories satisfy the namespace invariant |
| App.PresetLocationsWellFormed | App.tsx:19-28 | the fixed locations satisfy the namespace invariant |
| App.DefaultStateConsistent | App.tsx:41-45 | three categories and eight locations, all codes empty, both outdoor ids present, no records; the state invariant holds |
| App.SnapshotNotValidated | App.tsx:33-37 | a snapshot whose categories share a code is installed unchanged |

## Left out

- React rendering, hooks and routing are not modelled. This covers JSX, the effects' timing, the one-second clock refresh, the notification timeout, the view switch and the static sidebar. The effect that recomputes the preview is a method the caller invokes (`RefreshCode`).
- `setState` batching and stale closures are not modelled: each handler runs atomically on the current state.
- Date handling is not modelled: `getLocalISOString`, `new Date(...).getTime()` and `toLocaleString`. The date-time field is a string input, and timestamps are opaque integers passed in by the caller.
- EntryForm.TimeCode: its own contract gives only the sentinel and the length bound; the slices themselves are stated for a `YYYY-MM-DDTHH:mm` field, in `TimeCodeOfLocalDateTime`.
- EntryForm.TimeCodeOfLocalDateTime: the ten-digit shape holds only for a four-digit year. A field such as `20245-05-01T14:30` yields a time code holding `-`, which shifts the label's time and person parts; `QRLabel.StoredCodeRoundTrip` therefore requires an empty or well-formed field.
- RuleConfig.Normalize: strings are sequences of Unicode characters, not UTF-16 code units. For a character outside the Basic Multilingual Plane, `slice(0, 1)` keeps a lone surrogate where the model keeps the whole character, so two such codes that clash in the app stay distinct in the model.
- Fresh ids are parameters with a freshness precondition: `crypto.randomUUID()` and `` `c-${Date.now()}` ``.
- `localStorage`, `JSON.parse` and `JSON.stringify` are foreign I/O. Loading is an `Option<GlobalState>` input, where None covers a missing, empty or malformed entry.
- The canvas particle animation and the chart and bar rendering are floating-point presentation.
- The claim rate uses the integer formula `(200c + t) / (2t)`. It can differ from the float `Math.round` only at floating-point ties.
- The QR payload text, `encodeURIComponent`, the QR service URL, the download through `fetch` and printing are external services and browser APIs. Only the decomposition and the file name are modelled.
- The three `Math.random` draws of the quiz are parameters. The two-second `setTimeout` that draws the next question after a correct answer is left to the caller (`GenerateQuestion`).
- The case maps are ASCII-only: `toUpperCase` and `toLowerCase` are not modelled for letters outside ASCII.
- The `maxLength` limits of the inputs (one character for a new code, six for a quiz answer) are browser constraints on typing and are not modelled.
