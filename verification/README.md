# Custom Opportunity Related List, modelled in Dafny

This project models the Lightning Web Component `customOpportunityRelatedList`. The component shows an account's opportunities in an editable datatable. Its model has three parts.

- **Column builder and label formatter** (`strings.dfy`, `labels.dfy`, `columns.dfy`).
  - `initializeColumns` splits the comma-separated `customFields` list and trims each piece.
  - Each piece becomes one column descriptor. The type comes from a fixed, case-sensitive table: `Amount` is currency, `CloseDate` is date, `StageName` is a picklist, and anything else is text.
  - `formatLabel` derives the column label. It puts a space before every ASCII capital and then trims.
  - JavaScript's `split`, `join` and `trim` are modelled in `strings.dfy`. `trim` uses the full ECMAScript whitespace set.
- **Record transformations** (`records.dfy`).
  - The data branch of the wire handler copies each fetched record and sets its `stageNameOptions` property to the one shared options list.
  - The save handler turns each draft into an update entry `{ fields }`.
  - Field values are abstract (a type parameter `V`).
- **The component** (`component.dfy`).
  - A class holds the component's fields: `columns`, `opportunities`, `draftValues` and the last wire result. It also holds logs of the toasts shown, the update payloads sent and the refreshes requested.
  - Its methods are the lifecycle hook, the wire handler, the save handler, the save handler's two promise continuations, and the whole chain they form.
  - The invariant `Valid` holds after every method. It states four things:
    - the columns are either not built yet or built from the field list;
    - the displayed records all share one options list;
    - `draftValues` is empty, since the component only ever assigns `[]` to it;
    - every toast shown is one the component defines.

The server endpoints are not called. What the component sends them is appended to a log. What they answer is passed to the model as a parameter:
- the `WireResult` handed to `WiredOpportunities`;
- the `SaveOutcome` handed to `SaveSettled`. The update can be rejected. Or it is accepted, and the refresh that the `.then` continuation returns is then accepted or rejected.

`SaveSucceeded` models the `.then` continuation and `SaveFailed(message)` the `.catch`. The `.catch` is chained behind the `.then`, so a save is not all-or-nothing. When the refresh is rejected after an accepted update, both continuations run: the trace is `SaveSucceeded(); SaveFailed(message)`. The user first sees the success toast, then an update-error toast, and the drafts are already cleared. `SaveSettled` states this trace; see "## Findings".

## Model

| member | source | states |
|---|---|---|
| Strings.Split | customOpportunityRelatedList.js:21 | `split(',')` returns one more piece than there are separators, and no piece contains the separator |
| Strings.JoinSplit | customOpportunityRelatedList.js:21 | joining the pieces of a split with the separator gives the original string back |
| Strings.SplitJoin | customOpportunityRelatedList.js:21 | splitting a join of separator-free pieces (at least one) gives exactly those pieces back |
| Strings.Trim | customOpportunityRelatedList.js:21 | `trim()` returns the contiguous part of the string after the leading whitespace; all that is cut off at either end is whitespace; a non-empty result neither starts nor ends with whitespace |
| Strings.TrimUnchanged | customOpportunityRelatedList.js:21 | a string with no whitespace at its ends is left unchanged by `trim()` |
| Strings.TrimLeadingSpace | customOpportunityRelatedList.js:49 | `trim()` removes exactly the one space put in front of a string whose ends are not whitespace |
| Strings.TrimIdempotent | customOpportunityRelatedList.js:21 | trimming twice is trimming once |
| Labels.SpaceBeforeCapitals | customOpportunityRelatedList.js:49 | the replace of `[A-Z]` by a space and the letter lengthens the name by its number of capitals; for a name without spaces, deleting the spaces gives the name back |
| Labels.FormatLabel | customOpportunityRelatedList.js:48-50 | the label never starts or ends with whitespace, and is at most as long as the name plus its number of capitals |
| Labels.FormatLabelBetweenNonBlanks | customOpportunityRelatedList.js:48-50 | for any non-empty name whose first and last characters are not whitespace, including one with inner whitespace such as `Close Date`, replace-then-trim equals the reference label `SpacedLabel` |
| Labels.FormatLabelIsSpaced | customOpportunityRelatedList.js:48-50 | for a name without whitespace, replace-then-trim equals the reference definition `SpacedLabel`: the name's characters with a space before every capital except a leading one |
| Labels.LabelEnds | customOpportunityRelatedList.js:48-50 | for a name without whitespace, the label is empty exactly when the name is; otherwise it starts and ends with the name's own first and last characters, so never with a space |
| Labels.LabelRemoveSpaces | customOpportunityRelatedList.js:48-50 | for a name without whitespace, deleting the label's spaces gives the name back |
| Labels.LabelLength | customOpportunityRelatedList.js:48-50 | for a name without whitespace, the label's length is the name's length plus its number of capitals, minus one if the name starts with a capital |
| Labels.LabelNoCapitals | customOpportunityRelatedList.js:48-50 | a name without whitespace and without capitals is its own label |
| Labels.CamelCaseLabel | customOpportunityRelatedList.js:48-50 | a name made of one or more capitalised words is labelled by those words joined with single spaces |
| Labels.LabelExampleName | customOpportunityRelatedList.js:48-50 | `Name` is labelled `Name` |
| Labels.LabelExampleCloseDate | customOpportunityRelatedList.js:48-50 | `CloseDate` is labelled `Close Date` |
| Columns.ColumnFor | customOpportunityRelatedList.js:22-45 | the descriptor of one trimmed field name carries that name, its formatted label and `editable`. It is currency iff the name is `Amount`, date iff `CloseDate`, picklist iff `StageName`, and text iff none of the three. It has type attributes iff it is the picklist, and those are exactly placeholder `Choose Stage`, options from `stageNameOptions` and value from `StageName` |
| Columns.Fields | customOpportunityRelatedList.js:21 | the trimmed pieces of the field list: one more than the number of commas, each the trim of the piece at the same position |
| Columns.InitializeColumns | customOpportunityRelatedList.js:20-46 | one column per comma-separated piece (commas + 1), in input order; the i-th column's field name is the trimmed i-th piece and the column is `ColumnFor` of that name |
| Columns.FieldNamesAreSplit | customOpportunityRelatedList.js:21-22 | for a field list without whitespace, the columns' field names are exactly the comma-separated pieces |
| Columns.FieldNamesRoundTrip | customOpportunityRelatedList.js:21-22 | for a field list without whitespace, joining the columns' field names with commas gives the field list back |
| Columns.ColumnsOfJoin | customOpportunityRelatedList.js:21-22 | names without commas or whitespace, joined with commas, come back as the columns' field names |
| Columns.FieldNamesHaveNoComma | customOpportunityRelatedList.js:21-22 | no column's field name contains a comma |
| Columns.DefaultIsJoin | customOpportunityRelatedList.js:9 | the declared default field list is `Name`, `StageName`, `Amount` and `CloseDate` joined with commas |
| Columns.DefaultFieldNames | customOpportunityRelatedList.js:9 | the default field list gives the columns `Name`, `StageName`, `Amount` and `CloseDate`, in that order |
| Columns.EmptyFieldList | customOpportunityRelatedList.js:21-45 | an empty field list yields exactly one column: empty field name, empty label, text, editable, no type attributes |
| Records.WithOptions | customOpportunityRelatedList.js:59-62 | `{ ...opp, stageNameOptions }` has the record's keys plus `stageNameOptions`, holds the shared list under that key, and keeps every other field's value |
| Records.MergeOptions | customOpportunityRelatedList.js:59-62 | the merged records have the fetched records' length and order; each keeps its other fields and holds the shared list under `stageNameOptions`, overriding any value it had |
| Records.MergeSharesOptions | customOpportunityRelatedList.js:59-62 | after the merge, every record carries `stageNameOptions` and all carry the same value |
| Records.MergeThenStrip | customOpportunityRelatedList.js:59-62 | removing `stageNameOptions` from the merged records gives the fetched records without it; records that never had it come back unchanged |
| Records.MergeOverrides | customOpportunityRelatedList.js:59-62 | merging twice leaves only the second options list |
| Records.BuildPayload | customOpportunityRelatedList.js:73-76 | one `{ fields }` entry per draft, in draft order, each holding a copy of the draft's field/value pairs |
| Records.PayloadRoundTrip | customOpportunityRelatedList.js:73-76 | building the payload and reading its fields back out with the reference inverse `DraftsOf` undo each other, both ways: the payload loses, adds and reorders nothing |
| Component.CustomOpportunityRelatedList.constructor | customOpportunityRelatedList.js:9-14 | a new component has the given field list, empty `columns`, `opportunities` and `draftValues`, no wire result, and empty logs |
| Component.CustomOpportunityRelatedList.ConnectedCallback | customOpportunityRelatedList.js:16-18 | after connecting, the columns are the ones built from the field list; the invariant is kept |
| Component.CustomOpportunityRelatedList.InitializeColumns | customOpportunityRelatedList.js:20-46 | sets the columns to the ones built from the field list, one per comma-separated piece |
| Component.CustomOpportunityRelatedList.WiredOpportunities | customOpportunityRelatedList.js:53-70 | stores the result. With data, the records become the merged fetched records and no toast is shown. Otherwise, with an error, the records stay and exactly one `Error fetching opportunities: ` toast is appended. With neither, only the stored result changes. Columns and drafts never change, and the invariant is kept |
| Component.CustomOpportunityRelatedList.HandleSave | customOpportunityRelatedList.js:72-78 | returns the payload built from the drafts and appends it, unchanged, to the update requests; nothing else changes |
| Component.CustomOpportunityRelatedList.SaveSucceeded | customOpportunityRelatedList.js:79-83 | the `.then` continuation: appends the `Opportunities updated` success toast, empties `draftValues`, and requests a refresh of the last stored wire result; records and columns are unchanged |
| Component.CustomOpportunityRelatedList.SaveFailed | customOpportunityRelatedList.js:84-86 | the `.catch` continuation, run on a rejected update and also after `SaveSucceeded` on a rejected refresh: appends exactly one `Error updating opportunities: ` toast carrying the message; drafts and records are unchanged |
| Component.CustomOpportunityRelatedList.SaveSettled | customOpportunityRelatedList.js:78-86 | the whole promise chain for each outcome. The toasts shown are `SaveToasts(outcome)`. The drafts are empty afterwards. A refresh of the stored wire result is requested exactly when the update was accepted. Records and columns are unchanged, and the invariant is kept |
| Component.SaveToasts | customOpportunityRelatedList.js:79-86 | the toasts a settled save shows: the success toast exactly when the update was accepted, an update-error toast exactly when the update or the refresh was rejected, and only toasts the component defines |
| Component.RefreshRejectionReportsBoth | customOpportunityRelatedList.js:82-84 | a rejected refresh after an accepted update shows the success toast and then an update-error toast, so the save does not report one verdict |
| Component.IntendedSaveToasts | customOpportunityRelatedList.js:79-86 | the corrected toasts: the same as `SaveToasts` unless the refresh is rejected, in which case only the success toast is shown |
| Component.IntendedSaveReportsOneVerdict | customOpportunityRelatedList.js:79-86 | under the corrected chaining every save shows exactly one toast, and it is the success toast exactly when the update was accepted |
| Component.CustomOpportunityRelatedList.ShowToast | customOpportunityRelatedList.js:89-97 | appends the (title, message, variant) triple to the toast log |
| Component.CustomOpportunityRelatedList.PicklistResolvesInDisplayedRecords | customOpportunityRelatedList.js:29-35 | in every valid component state, the picklist column's options reference is present in every displayed record and resolves to the same value in all of them |
| Component.PicklistOptionsResolve | customOpportunityRelatedList.js:29-35 | the picklist column's options reference resolves in every merged record: the property it names is present and holds the shared options list |

## Left out

- The server endpoints `getRelatedOpportunities` and `updateOpportunities`, and `refreshApex`, are remote calls. Their answers are parameters: the `WireResult` passed to `WiredOpportunities`, and the `SaveOutcome` passed to `SaveSettled`, which covers a rejected update, an accepted update with an accepted refresh, and an accepted update with a rejected refresh. What is sent to them goes into the `updateRequests` and `refreshRequests` logs.
- The LWC decorators and reactivity are left out: `@api`, `@track`, and `@wire` re-running when `recordId` or `customFields` change. `recordId` is therefore not modelled.
- `customFields` is a constructor argument and stays fixed, because the model does not re-run the wire on a change. Its declared default is the constant `Columns.DefaultCustomFields`.
- `DefaultFieldNames` states the default list's field names only. The column types and labels follow from `ColumnFor`, `LabelExampleName` and `LabelExampleCloseDate`. They are not restated for that literal list, because unfolding the label computation on literal strings is beyond the verifier's resource limit.
- `ShowToastEvent` and `dispatchEvent` are left out. A toast is recorded as its (title, message, variant) triple.
- `console.log`, `console.error` and `JSON.stringify` are diagnostic output only, and are left out.
- Promise scheduling is left out. Two saves can overlap in the source; the model treats each settled chain as one atomic step. The reason a refresh is rejected is an input; the refresh is not performed.
- `WiredOpportunities`: the wire result is one method with three branches, not separate data and error handlers. Data is tested before error, as in the source. A result's JavaScript truthiness becomes `Some`/`None`.
- `WiredOpportunities` and `SaveFailed`: the error object is replaced by its `body.message` string. A missing `body` is not modelled.
- `HandleSave` takes the datatable's draft rows directly, not the `event.detail` wrapper. The datatable's own edit buffer is not modelled, because the component only ever assigns `[]` to `draftValues`.
- Record field values are of an abstract type `V`. JavaScript numbers, dates and nested objects are not modelled, because neither record transformation inspects them.
- `Column.displayLabel` and `Column.columnType` stand for the descriptor's `label` and `type` properties. Those two words are reserved in Dafny. `ColumnType.Name` gives the type strings.

## Findings

| source | as written | input that shows it | evidently intended | confidence | as-written member | corrected member |
|---|---|---|---|---|---|---|
| customOpportunityRelatedList.js:78-86 | the `.catch` is chained after the `.then` that returns `refreshApex(...)`, so it also catches a rejected refresh and reports it as a failed update | the update is accepted and the refresh is then rejected with message `m`: the toasts are `Opportunities updated` followed by `Error updating opportunities: m`, and the drafts are already cleared | a save reports one verdict, and a failed refresh is not reported as a failed update | medium; not executed | Component.RefreshRejectionReportsBoth | Component.IntendedSaveReportsOneVerdict |

The component model (`SaveSettled`) keeps the chaining as written, because it models the component as it behaves. `IntendedSaveToasts` is the corrected toast sequence. It agrees with `SaveToasts` on every outcome except a rejected refresh.
