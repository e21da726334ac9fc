# Expense management front end, modelled in Dafny

This project models the core of a React front end for employee expense reports:
- the API client's error normalisation and token handling;
- the expense service's request builders;
- the data hooks that keep a local mirror of the server's reports, report lines, expense types, templates and currencies;
- the screens built on those hooks: report list, report form, line modal, report detail, approval queue, dashboard, configuration screens, document upload, API status indicator, status badge and sidebar.

JavaScript values are one datatype, `Js.Value`:
- undefined, null, booleans, numbers as reals plus NaN, strings, arrays and objects;
- with JavaScript's truthiness, property access, spread and `===` written out.

Modelling choices:
- Every asynchronous server call is a parameter of type `Js.Settled`: the answer the server gave, or the error the call rejected with. The model covers every branch the code takes for each answer.
- A `window.confirm` answer is a `bool` parameter. A `window.prompt` answer is an `Option<string>` parameter.
- A hook or screen whose state React updates is a `class`. Its fields are the state variables, and its methods are the handlers, with `modifies this`.
- Pure helpers are functions, with lemmas about them.
- A thrown JavaScript error is the `Err` arm of `Js.Result`. A rejected promise is `Js.Rejected`.

Modules:
- Library modules:
  - `Js`, `JsStrings` and `JsNumbers`: the JavaScript semantics the code relies on;
  - `Api` (`src/services/api.js`);
  - `ExpenseService` (`src/services/expenseService.ts`);
  - `Mirror` and `Selection`: the list transforms shared by the hooks and the screens.
- One module per core file for the rest.

## Model

| member | source | states |
|---|---|---|
| Api.NormalizeError | src/services/api.js:74-95 | An HTTP error keeps its status and takes the server's message and details when they are truthy, otherwise the transport message and `[]`, plus the server's timestamp. A request that got no answer is status 0 with the fixed network-error text. A request that failed before sending keeps its own message. The last two have empty details. |
| Api.HandleApiError | src/services/api.js:166-176 | A string error is shown as it is; otherwise its truthy `message`; otherwise the default text. The result is non-empty unless the error is the empty string or the default is empty. |
| Api.HandleNormalizedError | src/services/api.js:74-95 | Composing normalisation with `handleApiError` shows: the server's message for an HTTP error that has one, or else the transport message; the network text when no answer came; the default otherwise. |
| Api.HandleThrownError | src/services/api.js:166-176 | A `new Error(message)` with a non-empty message is shown by that message, not the default. |
| Api.HandleValidationErrors | src/services/api.js:178-189 | The loop builds exactly the field map of `error.details` defined by the `reduce`. When the details are not an array the result is `{}`. A `null` or `undefined` detail throws a TypeError. |
| Api.ValidationMapKeys | src/services/api.js:178-189 | A field is in the map if and only if some detail names it. |
| Api.ValidationMapLastWins | src/services/api.js:178-189 | When a field is named more than once, the map holds the message of the last detail that names it. |
| Api.Session.constructor | src/services/api.js:19-22 | The session starts with the given stored token and location. |
| Api.Session.AttachToken | src/services/api.js:19-22 | A non-empty stored token adds `Authorization: Bearer <token>` to the headers; otherwise the headers are unchanged. |
| Api.Session.OnResponseError | src/services/api.js:51-95 | The rejection is the normalised error. A 401 removes the token and moves to `/login`; any other error leaves both alone. |
| Js.FirstRejection | src/hooks/useExpenseReports.js:196 | `Promise.all` over the outcomes fulfils if and only if every outcome is fulfilled; otherwise it rejects with the reason of one of the rejected outcomes. |
| Js.Spread | src/hooks/useExpenseLines.js:130-132 | `{...v}` copies an object's own fields, an array's elements and a text's characters under the index keys `"0"`, `"1"`, …, and nothing from `undefined`, `null`, a boolean or a number. |
| Js.SpreadIndexed | src/hooks/useExpenseLines.js:130-132 | The `i`-th element of a spread array, or the `i`-th character of a spread text, sits under the key `String(i)`. |
| Js.Merge | src/hooks/useExpenseLines.js:130-132 | `{...a, ...b}` has the spread keys of both, including the index keys of a text or an array; `b`'s value wins on a shared key and `a`'s value is kept elsewhere. |
| Js.NewError | src/hooks/useExpenseTypes.js:291 | `new Error(message)` carries the message it was given. |
| JsStrings.TrimStartSpec | src/hooks/useExpenseLines.js:29 | `trimStart` drops exactly a leading run of whitespace and stops at the first other character. |
| JsStrings.TrimEndSpec | src/hooks/useExpenseLines.js:29 | `trimEnd` drops exactly a trailing run of whitespace. |
| JsStrings.TrimIsSlice | src/hooks/useExpenseLines.js:43 | `trim()` is a slice of the text with only whitespace cut off either side, and neither end of the result is whitespace. |
| JsStrings.TrimEmptyIffBlank | src/hooks/useExpenseLines.js:29 | `s.trim() === ''` holds if and only if `s` is all whitespace. |
| JsStrings.TrimIdempotent | src/hooks/useExpenseLines.js:43 | Trimming twice is trimming once. |
| JsStrings.UpperTrimIdempotent | src/hooks/useExpenseLines.js:45 | Trimming and upper-casing a code that was already trimmed and upper-cased changes nothing. |
| JsStrings.Lower | src/components/expenseReport/ExpenseReportList.jsx:112-114 | `toLowerCase()` lowers each ASCII letter in place and keeps every other character. |
| JsStrings.Upper | src/hooks/useExpenseLines.js:45 | `toUpperCase()` raises each ASCII letter in place and keeps every other character. |
| JsStrings.LowerIdempotent | src/components/expenseReport/ExpenseReportList.jsx:112-114 | Lowering twice is lowering once. |
| JsStrings.LowerOfUpper | src/components/common/StatusBadge.jsx:5 | Lowering an upper-cased text gives the lowered text, so the case of the input does not matter. |
| JsStrings.CaseMappingKeepsSpaces | src/components/common/StatusBadge.jsx:27-30 | Case mapping turns a space into a space and nothing else into one. |
| JsStrings.IncludesIffOccurs | src/components/expenseReport/ExpenseReportList.jsx:112-114 | `includes` holds if and only if the text occurs at some position. |
| JsStrings.IncludesEmpty | src/components/expenseReport/ExpenseReportList.jsx:112-114 | Every text includes the empty query. |
| JsStrings.SplitFree | src/components/common/StatusBadge.jsx:27-30 | The pieces of `split(' ')` hold no separator. |
| JsStrings.SplitJoin | src/components/common/StatusBadge.jsx:27-30 | `join(' ')` of the pieces of `split(' ')` gives the original text back. |
| JsStrings.JoinSplit | src/components/common/StatusBadge.jsx:27-30 | Splitting a join of separator-free pieces gives the pieces back. |
| JsStrings.TrimValue | src/hooks/useExpenseLines.js:43 | `.trim()` on a string trims it; on any other value it throws a TypeError. |
| JsStrings.LowerValue | src/components/common/StatusBadge.jsx:5 | `.toLowerCase()` on a string lowers it; on any other value it throws a TypeError. |
| JsNumbers.DigitRun | src/hooks/useExpenseLines.js:42-44 | The digit prefix that `parseInt` and `parseFloat` read is all digits, and the character after it is not a digit. |
| JsNumbers.ParseFloat | src/hooks/useExpenseLines.js:44 | `parseFloat` gives a number or NaN. |
| JsNumbers.ParseInt | src/hooks/useExpenseLines.js:42 | `parseInt` gives a number or NaN. |
| JsNumbers.ToNumber | src/components/expenseLine/ExpenseLineModal.jsx:89 | Numeric conversion gives a number or NaN. |
| Js.NatToString | src/hooks/useExpenseReports.js:202 | A count is written as a non-empty run of decimal digits. |
| JsNumbers.DecimalValueOfText | src/hooks/useExpenseReports.js:202 | The digits written for a count read back as that count. |
| JsNumbers.ParseNatText | src/hooks/useExpenseLines.js:42-44 | `parseFloat`, `parseInt` and numeric conversion each read a written count back as that count. |
| JsNumbers.ParseNoDigits | src/hooks/useExpenseLines.js:42-44 | A text that, after leading whitespace, starts with neither a digit, a sign nor a point parses to NaN. |
| JsNumbers.Interpolate | src/hooks/useExpenseReports.js:202 | A template literal writes a string as it is, and `null` and `undefined` as those words. |
| JsNumbers.InterpolateCount | src/hooks/useExpenseReports.js:202 | A template literal writes a count as its decimal digits, and `parseFloat` reads them back as the count. |
| Mirror.Unwrap | src/hooks/useExpenseLines.js:56-75 | The record a create, update or single fetch keeps: the envelope's payload, otherwise the truthy raw `data`, otherwise `undefined`. The body is the definition; Mirror.UnwrapTruthy and Mirror.UnwrapShapes characterise it. |
| Mirror.UnwrapList | src/hooks/useExpenseLines.js:180-190 | The list a fetch keeps: the envelope's payload array, otherwise a bare array, otherwise `[]`. The body is the definition; Mirror.UnwrapShapes characterises it. |
| Mirror.UnwrapTruthy | src/hooks/useExpenseLines.js:56-75 | An answer yields a record if and only if its `data` is truthy; otherwise the kept record is `undefined`. |
| Mirror.UnwrapShapes | src/hooks/useExpenseLines.js:56-75 | The `{success, data}` envelope and the bare payload yield the same record. An array payload yields the same list in both shapes. |
| Mirror.PatchWhere | src/hooks/useExpenseLines.js:128-134 | The `map` over the mirror keeps its length. |
| Mirror.RemoveWhere | src/hooks/useExpenseLines.js:157 | The `filter` never lengthens the mirror. |
| Mirror.RemoveIds | src/hooks/useExpenseReports.js:199 | The bulk `filter` never lengthens the mirror. |
| Mirror.PatchWhereAt | src/hooks/useExpenseLines.js:128-134 | At each position: a record whose id is `===` the id becomes the merge of it and the patch; every other record is unchanged. |
| Mirror.PatchWhereKeepsIds | src/hooks/useExpenseLines.js:128-134 | A patch that carries no id, or the same id, leaves every record's match status as it was. |
| Mirror.PatchWhereNoMatch | src/hooks/useExpenseLines.js:128-134 | When no record matches, the update leaves the mirror unchanged. |
| Mirror.RemoveWhereSpec | src/hooks/useExpenseLines.js:157 | Deletion keeps exactly the records whose id is not `===` the id. It removes as many records as match. |
| Mirror.RemoveWhereConcat | src/hooks/useExpenseLines.js:157 | Deletion decides each record on its own, so it distributes over concatenation. |
| Mirror.RemoveWhereNoMatch | src/hooks/useExpenseLines.js:157 | Deleting an id no record carries leaves the mirror unchanged. |
| Mirror.RemoveWhereIdempotent | src/hooks/useExpenseLines.js:157 | Deleting the same id twice is deleting it once. |
| Mirror.AddThenRemove | src/hooks/useExpenseLines.js:67-75 | Deleting a record just appended or prepended, when its id was new and comparable, gives the old mirror back. |
| Mirror.RemoveIdsSpec | src/hooks/useExpenseReports.js:199 | Bulk deletion keeps exactly the records whose id is not in the list. |
| Mirror.RemoveIdsStepwise | src/hooks/useExpenseReports.js:199 | Deleting a list of ids is deleting its first id and then the rest. |
| Mirror.RemoveIdsSingle | src/hooks/useExpenseReports.js:199 | Bulk deletion of one id is the single deletion. |
| Mirror.RemoveIdsNone | src/hooks/useExpenseReports.js:199 | Bulk deletion of no ids changes nothing. |
| Selection.Without | src/components/expenseReport/ExpenseReportList.jsx:40 | Deselecting never lengthens the selection. |
| Selection.SelectAll | src/components/expenseReport/ExpenseReportList.jsx:48-55 | When as many ids are selected as there are rows, the selection is cleared; otherwise it becomes every row's id. |
| Selection.TruthyOnly | src/components/expenseReport/ExpenseReportList.jsx:53 | `filter(Boolean)` keeps exactly the truthy ids. |
| Selection.WithoutSpec | src/components/expenseReport/ExpenseReportList.jsx:40 | Deselecting keeps exactly the ids that are not `===` the toggled id. |
| Selection.WithoutNoMatch | src/components/expenseReport/ExpenseReportList.jsx:40 | Deselecting an id that is not selected changes nothing. |
| Selection.ContainsIffIn | src/components/expenseReport/ExpenseReportList.jsx:39 | For ids that are not objects, `includes` is membership. |
| Selection.Toggle | src/components/expenseReport/ExpenseReportList.jsx:37-45 | The toggle handler: a selected id is removed, any other id is appended. The body is the definition; Selection.ToggleMembership, Selection.ToggleTwice and Selection.ToggleKeepsDistinct characterise it. |
| Selection.ToggleMembership | src/components/expenseReport/ExpenseReportList.jsx:37-45 | Toggling flips the toggled id's membership and no other id's. A NaN id can be added but never removed. |
| Selection.ToggleTwice | src/components/expenseReport/ExpenseReportList.jsx:37-45 | Toggling an unselected comparable id twice gives the selection back. |
| Selection.WithoutConcat | src/components/expenseReport/ExpenseReportList.jsx:40 | Deselecting distributes over concatenation. |
| Selection.WithoutDistinct | src/components/expenseReport/ExpenseReportList.jsx:40 | Deselecting keeps a selection free of duplicates. |
| Selection.ToggleKeepsDistinct | src/components/expenseReport/ExpenseReportList.jsx:37-45 | Toggling keeps a selection free of duplicates. |
| Selection.HeaderChecked | src/components/expenseReport/ExpenseReportList.jsx:264 | The header box is checked when as many ids are selected as rows are shown and there is a row. The body is the definition; Selection.HeaderAfterDeselect characterises it. |
| Selection.HeaderAfterDeselect | src/components/expenseReport/ExpenseReportList.jsx:264 | With every row selected the header box is checked. Deselecting one row unchecks it. |
| Selection.WithoutLength | src/components/expenseReport/ExpenseReportList.jsx:40 | Deselecting a selected id makes the selection shorter. |
| ExpenseService.GetExpenseReportsParams | src/services/expenseService.ts:77-88 | The employee, status and date filters are sent if and only if they are truthy. Page and size are sent if and only if they are not `undefined`, so page 0 is sent. No other parameter is sent, and each one is sent with the filter's value. |
| ExpenseService.SearchParams | src/services/expenseService.ts:102-111 | The search term is always sent. Page and size are sent if and only if they are not `undefined`. Nothing else is sent. |
| ExpenseService.ExchangeRateRequest | src/services/expenseService.ts:298-306 | The call throws if and only if the request object is `null` or `undefined`. Otherwise it sends the two currencies and the date, or today's date when the request has none. |
| ExpenseService.PendingApprovalsRequest | src/services/expenseService.ts:313-315 | The approvals call sends the approver, page 0 when the page is omitted, and size 10 when the size is omitted. |
| ExpenseService.HealthCheck | src/services/expenseService.ts:394-399 | `/health` is asked first. The expense-types listing of size 1 is asked only when `/health` fails, and then its outcome is the result. |
| ExpenseLinesHook.AddLineCheck | src/hooks/useExpenseLines.js:23-37 | The first failed check, in the order date, type, description, amount, currency, rejects with its own message. The checks pass if and only if all five fields are valid, and then the result is the trimmed, non-empty description. |
| ExpenseLinesHook.LineRequestBody | src/hooks/useExpenseLines.js:40-49 | Building the body throws a TypeError if and only if the currency is not a string or an optional text is set but not a string; otherwise the body is an object. |
| ExpenseLinesHook.AddLineRequest | src/hooks/useExpenseLines.js:23-53 | What `addExpenseLine` sends, or what it throws first: the checks, then the request body. The body is the definition; ExpenseLinesHook.SentLineIsNormalised and ExpenseLinesHook.AddLineDescriptionRule characterise it. |
| ExpenseLinesHook.SentLineIsNormalised | src/hooks/useExpenseLines.js:40-49 | The request sent on add has exactly the eight line fields and a set date. Its description is non-empty and trimmed, and its currency code is one that trimming and upper-casing leave unchanged. Merchant, purpose and project code are trimmed text or `null`. |
| ExpenseLinesHook.UpdateLineCheck | src/hooks/useExpenseLines.js:87-94 | Nothing is checked unless all five core fields are set. Then a blank description is refused, and the amount check passes if and only if the amount is above zero. |
| ExpenseLinesHook.UpdateLineBody | src/hooks/useExpenseLines.js:97-106 | The update body is built if and only if every set text field is a string; otherwise it throws a TypeError. |
| ExpenseLinesHook.UpdateLineDraft | src/hooks/useExpenseLines.js:87-113 | The update body before pruning, or what `updateExpenseLine` throws first. The body is the definition; ExpenseLinesHook.UpdateBodyAgreesWithAdd characterises it. |
| ExpenseLinesHook.UpdateBodyAgreesWithAdd | src/hooks/useExpenseLines.js:40-113 | A line that the add accepts is also accepted by the update. The update body carries the same values on the same keys, except that an unset merchant or project code is `undefined`, and so pruned, where the add sends `null`. |
| ExpenseLinesHook.PruneUndefined | src/hooks/useExpenseLines.js:109-113 | The pruning loop keeps exactly the keys whose value is not `undefined`, with their values. |
| ExpenseLinesHook.ExpenseLines.constructor | src/hooks/useExpenseLines.js:10-12 | The hook starts with no lines, not loading and no error. |
| ExpenseLinesHook.ExpenseLines.AddExpenseLine | src/hooks/useExpenseLines.js:17-82 | A failed check sends nothing and rejects with the check's error, showing its message. Otherwise the body is sent. A rejected call keeps the lines and shows the server's message. A fulfilled call clears the error and appends the unwrapped record, if there is one. Loading ends in every case. |
| ExpenseLinesHook.ExpenseLines.UpdateExpenseLine | src/hooks/useExpenseLines.js:85-146 | A failed check or throwing body sends nothing. Otherwise the pruned body is sent. A fulfilled call merges the unwrapped record into the line with that id. A rejected call keeps the lines and shows the message. |
| ExpenseLinesHook.ExpenseLines.DeleteExpenseLine | src/hooks/useExpenseLines.js:149-167 | A fulfilled delete removes exactly the lines with that id and resolves with the fixed message. A rejected one keeps the lines and shows the message. |
| ExpenseLinesHook.ExpenseLines.FetchExpenseLinesByReport | src/hooks/useExpenseLines.js:172-199 | A request is made if and only if the report id is truthy and not `'new'`; otherwise the lines are cleared and nothing else changes. A fulfilled request stores the unwrapped list. A rejected one clears the lines and shows the message. |
| ExpenseLinesHook.ExpenseLines.ClearExpenseLines | src/hooks/useExpenseLines.js:204-207 | Clearing empties the lines and the error, and leaves loading unchanged. |
| ExpenseLinesHook.ExpenseLines.OnReportIdChange | src/hooks/useExpenseLines.js:241-247 | A change to a saved report's id fetches its lines. Any other id clears them. |
| ExpenseLinesHook.ExpenseLines.AddLine | src/hooks/useExpenseLines.js:250-255 | Without a saved report, the wrapper rejects with the must-save-first error and changes nothing. With one, it adds the line: the body is sent if and only if the checks pass, and the line is appended only when the server accepts it. |
| ExpenseLinesHook.NewLinesShapes | src/hooks/useExpenseLines.js:56-75 | Both answer shapes append the record. An answer without data appends nothing. |
| ExpenseLinesHook.UpdateTouchesOnlyTheLine | src/hooks/useExpenseLines.js:128-134 | The update keeps every other line. On the matching line, the server's fields win and the other fields stay. |
| ExpenseLinesHook.AddLineDescriptionRule | src/hooks/useExpenseLines.js:29-31 | A description of spaces only is refused with the description message. An accepted line never has an empty description. |
| ExpenseReportsHook.DefaultPage | src/hooks/useExpenseReports.js:33-71 | The fallback pagination is one page of 10, numbered 0, holding every fetched report, with no next or previous page. |
| ExpenseReportsHook.PageOfShapes | src/hooks/useExpenseReports.js:26-84 | A page without its own pagination gets the fallback page for that many reports; a truthy server page is used as sent. |
| ExpenseReportsHook.PageOf | src/hooks/useExpenseReports.js:29-50 | A page object's reports and its own truthy `page`, or the fallback page for that many reports. The body is the definition; ExpenseReportsHook.PageOfShapes characterises it. |
| ExpenseReportsHook.FetchOutcome | src/hooks/useExpenseReports.js:26-84 | The reports and pagination of a listing answer: the enveloped page, a bare page, or an empty listing. The body is the definition; ExpenseReportsHook.FetchOutcomeEnveloped, ExpenseReportsHook.FetchOutcomeBare and ExpenseReportsHook.FetchOutcomeEmpty characterise it. |
| ExpenseReportsHook.FetchOutcomeEnveloped | src/hooks/useExpenseReports.js:26-84 | A page inside the success envelope is read as that page. |
| ExpenseReportsHook.FetchOutcomeBare | src/hooks/useExpenseReports.js:26-84 | A page sent without the envelope gives the same reports and pagination, unless it itself carries a truthy success and data. |
| ExpenseReportsHook.FetchOutcomeEmpty | src/hooks/useExpenseReports.js:26-84 | An answer that holds no array of reports gives no reports and a page of zero elements. |
| ExpenseReportsHook.Resolved | src/hooks/useExpenseReports.js:102-115 | An enveloped answer resolves with its payload in `data` and every other response field kept. Any other answer resolves as it came. |
| ExpenseReportsHook.ExpenseReports.constructor | src/hooks/useExpenseReports.js:6-15 | The hook starts with no reports, the initial pagination, not loading, no error, and the filters it was given. |
| ExpenseReportsHook.ExpenseReports.FetchReports | src/hooks/useExpenseReports.js:18-92 | The request carries the hook's filters overridden by the call's. A fulfilled answer sets the reports and the page. A rejected one clears the reports, keeps the page and shows the message. |
| ExpenseReportsHook.ExpenseReports.CreateReport | src/hooks/useExpenseReports.js:95-121 | A fulfilled create puts the unwrapped report first and resolves with the unwrapped answer. A rejected one keeps the reports, shows the message and rejects. The pagination is untouched. |
| ExpenseReportsHook.ExpenseReports.UpdateReport | src/hooks/useExpenseReports.js:124-158 | A fulfilled update merges the unwrapped report into the one with that id. A rejected one keeps the reports and shows the message. |
| ExpenseReportsHook.ExpenseReports.DeleteReport | src/hooks/useExpenseReports.js:161-181 | A fulfilled delete removes exactly the reports with that id and resolves with the fixed message. A rejected one keeps everything and shows the message. |
| ExpenseReportsHook.ExpenseReports.DeleteMultipleReports | src/hooks/useExpenseReports.js:184-210 | When every delete succeeds, exactly the listed ids are removed, and the message states how many. When one fails, nothing is removed and the call rejects with a failure's reason. |
| ExpenseReportsHook.ExpenseReports.SubmitReport | src/hooks/useExpenseReports.js:213-237 | A fulfilled submit merges the answer's `data` into the submitted report. A rejected one keeps the reports and shows the message. The answer is passed on as it is. |
| ExpenseReportsHook.BulkDeleteIsStepwise | src/hooks/useExpenseReports.js:184-210 | Bulk deletion is one deletion after another, and every report whose id is not listed survives it. |
| ExpenseReportsHook.CreateThenDelete | src/hooks/useExpenseReports.js:95-181 | Creating a report with a new id and then deleting it gives the old list back. The created report is shown first. |
| ExpenseReportsHook.ExpenseReport.constructor | src/hooks/useExpenseReports.js:262-264 | The single-report hook starts with no report, not loading and no error. |
| ExpenseReportsHook.ExpenseReport.FetchReport | src/hooks/useExpenseReports.js:266-291 | A request is made if and only if the id is truthy. A fulfilled answer stores the unwrapped report, or `null`. A rejected one stores `null` and shows the message. |
| ConfigurationHooks.ConfigMirror.Types | src/hooks/useExpenseTypes.js:7-9 | The expense-type hook starts empty, keyed by `expenseTypeId`, with its own failure and success texts. |
| ConfigurationHooks.ConfigMirror.Templates | src/hooks/useExpenseTypes.js:130-132 | The template hook starts empty, keyed by `templateId`, with its own failure and success texts. |
| ConfigurationHooks.ConfigMirror.Fetch | src/hooks/useExpenseTypes.js:11-34 | A fulfilled fetch stores the unwrapped list. A rejected one stores `[]` and shows the message. |
| ConfigurationHooks.ConfigMirror.Create | src/hooks/useExpenseTypes.js:36-58 | A fulfilled create appends the unwrapped record, if there is one. A rejected one keeps the list and shows the message. |
| ConfigurationHooks.ConfigMirror.Update | src/hooks/useExpenseTypes.js:60-90 | A fulfilled update merges the unwrapped record into the one with that id. A rejected one keeps the list. |
| ConfigurationHooks.ConfigMirror.Delete | src/hooks/useExpenseTypes.js:92-110 | A fulfilled delete removes exactly the records with that id and resolves with the fixed message. A rejected one keeps the list. |
| ConfigurationHooks.UpdateOnlyTheMatch | src/hooks/useExpenseTypes.js:67-79 | The update keeps every record whose id differs. The matching record keeps the fields the answer does not carry. |
| ConfigurationHooks.ExchangeRateCall | src/services/expenseService.ts:298-306 | The lookup as the service expects it sends the two currencies and the date, or today's date. |
| ConfigurationHooks.ExchangeRateArgumentsLost | src/hooks/useExpenseTypes.js:287 | With the positional call as written, EUR, USD and 2024-01-31 arrive as undefined currencies and today's date. A missing first argument throws. |
| ConfigurationHooks.Currencies.constructor | src/hooks/useExpenseTypes.js:255-257 | The currency hook starts empty. |
| ConfigurationHooks.Currencies.FetchCurrencies | src/hooks/useExpenseTypes.js:259-283 | A fulfilled fetch stores the unwrapped list, and `[]` when the envelope's payload is not an array. A rejected one stores `[]` and shows the message. |
| ConfigurationHooks.Currencies.GetExchangeRate | src/hooks/useExpenseTypes.js:285-293 | The corrected lookup is sent. A fulfilled answer is returned as it is. A failure is rethrown as `new Error` of the shown message. |
| ExpenseLineModal.SubmitCheck | src/components/expenseLine/ExpenseLineModal.jsx:134-153 | The first failed check, in the order date, type, description, amount, alerts its own message; the amount is checked after `parseFloat`. The checks pass if and only if all fields are valid and the currency is set. A description that is not a string throws. |
| ExpenseLineModal.Submit | src/components/expenseLine/ExpenseLineModal.jsx:132-176 | The line is saved if and only if the checks pass and every text field it trims is a string; the saved line is `LineData` of the trimmed texts. A failed check gives that check's outcome. |
| ExpenseLineModal.LineData | src/components/expenseLine/ExpenseLineModal.jsx:155-173 | The line handed to `onSave`. The body is the definition; ExpenseLineModal.SavedLineIsNormalised and ExpenseLineModal.SavedLinePassesHookChecks characterise it. |
| ExpenseLineModal.SavedLineIsNormalised | src/components/expenseLine/ExpenseLineModal.jsx:155-173 | A saved line has exactly the modal's fourteen fields. Its description is non-empty, trimmed and reused as the purpose. Its currency code is one that trimming and upper-casing leave unchanged, and merchant and project code are trimmed text. It carries the modal's rate and reimbursable amount in USD, and one day unless a count was given. |
| ExpenseLineModal.SavedLinePassesHookChecks | src/components/expenseLine/ExpenseLineModal.jsx:134-173 | A line the modal saves passes every check of the lines hook's `addExpenseLine`, which keeps its description as it is, whenever the type id and amount read as numbers (the type id not 0) and the currency is not blank. |
| ExpenseLineModal.RateOf | src/types/api.ts:80-85 | Reading the rate throws if and only if the answer or its data is missing; otherwise it is the record's `rate` field. |
| ExpenseLineModal.Conversion | src/components/expenseLine/ExpenseLineModal.jsx:87-121 | Without an amount, a currency or a numeric amount, the rate is 1 and the reimbursable amount 0. For USD, the rate is 1 and the amount is kept. Otherwise a successful lookup gives the rate read and the amount times it. A failed lookup falls back to rate 1 and the amount. |
| ExpenseLineModal.ConversionRules | src/components/expenseLine/ExpenseLineModal.jsx:93-112 | For a positive amount: USD and a failed lookup both give (1, amount). A lookup answering rate x gives (x, amount times x). |
| ExpenseLineModal.RateFieldMismatch | src/components/expenseLine/ExpenseLineModal.jsx:98 | As written, an answer carrying rate 1.1 for 10 EUR gives rate `undefined` and a NaN amount. Reading the declared `rate` field gives (1.1, 11). |
| ExpenseLineModal.DailyAmount | src/components/expenseLine/ExpenseLineModal.jsx:124-129 | A daily amount is computed if and only if the amount is set and the day count is set and converts to a positive number. |
| ExpenseLineModal.DailyAmountRule | src/components/expenseLine/ExpenseLineModal.jsx:124-129 | With n > 0 days the daily amount is the amount divided by n. Zero days, or no amount, compute nothing. |
| ExpenseLineModal.ModalState.constructor | src/components/expenseLine/ExpenseLineModal.jsx:16-19 | The modal starts at rate 1, with reimbursable 0, not calculating, and an empty daily amount. |
| ExpenseLineModal.ModalState.Recalculate | src/components/expenseLine/ExpenseLineModal.jsx:87-121 | Corrected: the answer's rate is read from its declared `rate` field (ExpenseLineModal.RateOf), not from `data.exchangeRate` as line 98 has it (ExpenseLineModal.RateAsWritten; see Findings). A lookup is made if and only if the amount is convertible and the currency is not USD. The new rate and amount are `Conversion` of the answer. The daily amount is untouched. |
| ExpenseLineModal.ModalState.UpdateDailyAmount | src/components/expenseLine/ExpenseLineModal.jsx:124-129 | The daily amount is updated when one is computed and kept otherwise. Nothing else changes. |
| ExpenseReportFormScreen.LineAmount | src/components/expenseReport/ExpenseReportForm.jsx:79 | What one line adds to the total: its numeric reimbursement amount, 0 otherwise. The body is the definition; ExpenseReportFormScreen.LinesTotalAppend characterises it. |
| ExpenseReportFormScreen.LinesTotal | src/components/expenseReport/ExpenseReportForm.jsx:77-80 | `calculateTotal()`, the amounts summed left to right from 0. The body is the definition; ExpenseReportFormScreen.LinesTotalConcat, ExpenseReportFormScreen.LinesTotalAppend, ExpenseReportFormScreen.LinesTotalRemove and ExpenseReportFormScreen.LinesTotalOne characterise it. |
| ExpenseReportFormScreen.LinesTotalConcat | src/components/expenseReport/ExpenseReportForm.jsx:77-80 | The total of two runs of lines is the sum of their totals. |
| ExpenseReportFormScreen.LinesTotalAppend | src/components/expenseReport/ExpenseReportForm.jsx:77-80 | No lines total 0. Appending a line adds its numeric reimbursement amount to the total; a line without one adds nothing. |
| ExpenseReportFormScreen.LinesTotalRemove | src/components/expenseReport/ExpenseReportForm.jsx:77-80 | Removing a line subtracts its amount from the total. |
| ExpenseReportFormScreen.LinesTotalOne | src/components/expenseReport/ExpenseReportForm.jsx:77-80 | A report with a single line totals that line's amount. |
| ExpenseReportFormScreen.ReportTitle | src/components/expenseReport/ExpenseReportForm.jsx:92-99 | The title sent is the form's title, else its purpose, else the fixed default. It is never empty. |
| ExpenseReportFormScreen.UpdateBody | src/components/expenseReport/ExpenseReportForm.jsx:92-99 | The update body has exactly the title, purpose, dates and template fields: form values, with a missing template sent as `null`. |
| ExpenseReportFormScreen.CreateBody | src/components/expenseReport/ExpenseReportForm.jsx:101-104 | The create body is the update body plus the fixed employee id. |
| ExpenseReportFormScreen.FailureMessage | src/components/expenseReport/ExpenseReportForm.jsx:206-220 | The text shown is the server's `message`, else its `error`, else the default when the failure has response data. Otherwise it is the failure's own message, else the default. |
| ExpenseReportFormScreen.SubmitAlertFor | src/components/expenseReport/ExpenseReportForm.jsx:169-180 | No message gives the generic alert. A message about expense lines gives the no-lines alert, and one about DRAFT status the draft-only alert. Any other text is shown after the failure prefix. |
| ExpenseReportFormScreen.SubmitFailureAlert | src/components/expenseReport/ExpenseReportForm.jsx:169-180 | The corrected alert reads the message from the rejection's own `message` field, where the API client puts the server's message. No message gives the generic alert; a message about expense lines gives the no-lines alert, and one about DRAFT status the draft-only alert. |
| ExpenseReportFormScreen.SubmitFailureLosesServerMessage | src/components/expenseReport/ExpenseReportForm.jsx:169-180 | For a 400 answer saying the report has no expense lines: the handler as written shows the generic alert, and the corrected one shows the no-lines alert. |
| ExpenseReportFormScreen.FailureMessageOfNormalized | src/components/expenseReport/ExpenseReportForm.jsx:206-220 | For a rejection from the API client, the form's message is what `handleApiError` shows. |
| ExpenseReportFormScreen.ReportForm.constructor | src/components/expenseReport/ExpenseReportForm.jsx:20-26 | The form starts saved if and only if it is in edit mode, with the route id as its saved id, no lines, not submitting and the line modal closed. |
| ExpenseReportFormScreen.ReportForm.OnSubmit | src/components/expenseReport/ExpenseReportForm.jsx:88-137 | An unsaved new report is created; otherwise the saved or route id is updated. A failure alerts and changes nothing. A create stores the new report and id and clears the lines; an answer without data also shows the failure alert. An update alerts and goes back when asked. |
| ExpenseReportFormScreen.ReportForm.SubmitForApproval | src/components/expenseReport/ExpenseReportForm.jsx:144-182 | Corrected: a failed submission is alerted by the rejection's own message (ExpenseReportFormScreen.SubmitFailureAlert), not by `error.response.data.message` as lines 169-180 have it, which always gives the generic alert (ExpenseReportFormScreen.SubmitFailureAlertAsWritten; see Findings). The form is saved first if and only if it has a purpose. Submission happens if and only if the report has lines and an id, and it submits that id. The last alert says why it stopped, or that it succeeded, in which case the form returns to the list. |
| ExpenseReportFormScreen.ReportForm.Target | src/components/expenseReport/ExpenseReportForm.jsx:228 | `savedReportId || reportId`, the report every save, submit and add-line handler acts on. The body is the definition; the contracts of ExpenseReportFormScreen.ReportForm.OnSubmit, ExpenseReportFormScreen.ReportForm.SubmitForApproval and ExpenseReportFormScreen.ReportForm.HandleAddExpenseLine use it. |
| ExpenseReportFormScreen.ReportForm.HandleAddExpenseLine | src/components/expenseReport/ExpenseReportForm.jsx:226-235 | Without a saved id (falsy or `'new'`), the save-first alert is shown and the modal stays closed. Otherwise the modal opens on a new line. The report state is untouched. |
| ExpenseReportFormScreen.CanSubmitReport | src/components/expenseReport/ExpenseReportForm.jsx:83-85 | `canSubmitReport()`: the report is saved and has a line. The body is the definition; ExpenseReportFormScreen.NewReportNeedsALine characterises it. |
| ExpenseReportFormScreen.NewReportNeedsALine | src/components/expenseReport/ExpenseReportForm.jsx:83-85 | A report can be submitted if and only if it is saved and has a line. |
| ExpenseReportListScreen.FilterReports | src/components/expenseReport/ExpenseReportList.jsx:110-115 | The list shows exactly the reports whose id, purpose or status contains the query, ignoring case, and is never longer than the reports. |
| ExpenseReportListScreen.FilterReportsConcat | src/components/expenseReport/ExpenseReportList.jsx:110-115 | Filtering a concatenation concatenates the filtered parts, so the matches keep their order and their repetitions. |
| ExpenseReportListScreen.FilterReportsOne | src/components/expenseReport/ExpenseReportList.jsx:110-115 | A single report is kept exactly when it matches. |
| ExpenseReportListScreen.SearchIgnoresCase | src/components/expenseReport/ExpenseReportList.jsx:111-115 | Upper-casing the query changes no match. A text matches its own upper- and lower-cased forms. |
| ExpenseReportListScreen.EmptyQueryShowsAll | src/components/expenseReport/ExpenseReportList.jsx:111-115 | The empty query shows every report with a text id, purpose or status. |
| Selection.Ids | src/components/expenseReport/ExpenseReportList.jsx:53 | The select-all ids of every list screen (reports and approvals by `reportId`, dashboard rows by `id`): each row's value under the key, position by position. |
| ExpenseReportListScreen.BulkErrorAlert | src/components/expenseReport/ExpenseReportList.jsx:100 | A failure is reported as `Error: ` followed by its truthy message written as a template literal writes it (a text as it is, a count in digits, `true`, `[object Object]`), or by the fixed text when its message is falsy. |
| ExpenseReportListScreen.ReportSelection.constructor | src/components/expenseReport/ExpenseReportList.jsx:12 | Nothing is selected at first. |
| ExpenseReportListScreen.ReportSelection.ToggleReport | src/components/expenseReport/ExpenseReportList.jsx:37-45 | The new selection is the old one with the report toggled (see `Selection.ToggleMembership`). |
| ExpenseReportListScreen.ReportSelection.SelectAllReports | src/components/expenseReport/ExpenseReportList.jsx:48-55 | With every row selected, the selection is cleared. Otherwise it holds exactly the truthy ids of the rows. |
| ExpenseReportListScreen.ReportSelection.BulkAction | src/components/expenseReport/ExpenseReportList.jsx:58-102 | With nothing selected, the screen asks for a selection. A confirmed delete calls the hook with the selection and clears it on success. The counted alert is shown on success and the failure's message otherwise. The hook changes only for a confirmed delete. Submit only alerts. Edit and view navigate if and only if exactly one report is selected; otherwise they alert. |
| ExpenseReportListScreen.BulkDeleteLeavesRest | src/components/expenseReport/ExpenseReportList.jsx:69 | After a bulk delete no selected report is left, and every unselected one is. |
| ExpenseReportListScreen.PagerWindow | src/components/expenseReport/ExpenseReportList.jsx:383-390 | "Showing X to Y" starts at the page's first position. It ends at the page's last position or at the total, whichever comes first. |
| ExpenseReportListScreen.PageCount | src/types/api.ts:16 | The number of pages a total needs is the fewest pages of the page size that hold every element. |
| ExpenseReportListScreen.PreviousDisabled | src/components/expenseReport/ExpenseReportList.jsx:393 | The previous button is disabled on page 0. The body is the definition; ExpenseReportListScreen.PagerWindowRules characterises it. |
| ExpenseReportListScreen.NextDisabled | src/components/expenseReport/ExpenseReportList.jsx:403 | The next button is disabled from the last page on. The body is the definition; ExpenseReportListScreen.PagerWindowRules characterises it. |
| ExpenseReportListScreen.PagerWindowRules | src/components/expenseReport/ExpenseReportList.jsx:383-408 | On an existing page the window is non-empty and shorter than a page, and a full page continues into the next. Previous is disabled if and only if this is page 0, and next if and only if this is the last page. |
| ApprovalQueueScreen.LoadedApprovals | src/components/approvals/ApprovalQueue.jsx:23-49 | The approvals kept from the load answer: a successful envelope's content array, otherwise none. The body is the definition; ApprovalQueueScreen.LoadedApprovalsShapes characterises it. |
| ApprovalQueueScreen.LoadedApprovalsShapes | src/components/approvals/ApprovalQueue.jsx:23-49 | An enveloped page loads exactly its content. A page without content, or an answer without the envelope, loads nothing. |
| ApprovalQueueScreen.DecisionBody | src/components/approvals/ApprovalQueue.jsx:143-146 | A decision sends the approver and the trimmed comments. |
| ApprovalQueueScreen.SubmitDisabled | src/components/approvals/ApprovalQueue.jsx:433 | The decision button's disabled state. The body is the definition; ApprovalQueueScreen.SubmitDisabledIffBlankRejection characterises it. |
| ApprovalQueueScreen.SubmitDisabledIffBlankRejection | src/components/approvals/ApprovalQueue.jsx:433 | The decision button is disabled if and only if it is a rejection with blank comments. |
| ApprovalQueueScreen.Queue.constructor | src/components/approvals/ApprovalQueue.jsx:12-20 | The queue starts empty and loading, with nothing selected, the modal closed, and the default approver. |
| ApprovalQueueScreen.Queue.Load | src/components/approvals/ApprovalQueue.jsx:23-49 | The queue asks for page 0 of 50 for its approver. It shows what the answer loads, or nothing on failure, and stops loading. |
| ApprovalQueueScreen.Queue.ToggleApproval | src/components/approvals/ApprovalQueue.jsx:52-60 | The selection is toggled and the approvals are untouched. |
| ApprovalQueueScreen.Queue.SelectAllApprovals | src/components/approvals/ApprovalQueue.jsx:63-69 | With every row selected, the selection is cleared; otherwise it becomes every row's id. |
| ApprovalQueueScreen.Queue.BulkApprove | src/components/approvals/ApprovalQueue.jsx:80-105 | One bulk call with the selection is made if and only if something is selected and the user confirms. Success removes exactly the selected reports, clears the selection and alerts the count. Failure changes nothing and alerts the message. |
| ApprovalQueueScreen.Queue.BulkReject | src/components/approvals/ApprovalQueue.jsx:108-136 | Calls are made only for a non-blank reason, one rejection per selected report in order. When all succeed, exactly those reports are removed and the count is alerted. Otherwise nothing changes and the message is alerted. |
| ApprovalQueueScreen.Queue.OpenDecision | src/components/approvals/ApprovalQueue.jsx:72-77 | Opening a decision sets the approval and action, clears the comments and shows the modal. |
| ApprovalQueueScreen.Queue.SubmitDecision | src/components/approvals/ApprovalQueue.jsx:139-173 | A call is made if and only if an approval and an action are set. Success removes exactly that report, alerts and resets the modal. Failure changes nothing but the alert. |
| ApprovalQueueScreen.DecisionRemovesExactlyThatReport | src/components/approvals/ApprovalQueue.jsx:158 | A decision removes exactly the approvals of the decided report. |
| ApprovalQueueScreen.BulkRemovesExactlyTheSelection | src/components/approvals/ApprovalQueue.jsx:96 | A bulk decision removes exactly the selected approvals. |
| DashboardScreen.LineItem | src/components/dashboard/Dashboard.jsx:44-56 | The table row a line of a report becomes. The body is the definition; DashboardScreen.LineItemDefaults and DashboardScreen.LineItemAttachment characterise it. |
| DashboardScreen.LineItemDefaults | src/components/dashboard/Dashboard.jsx:44-56 | A row's type defaults to `Unknown`, and its merchant and location to `-`, so the type and location are always truthy. The row belongs to its report. |
| DashboardScreen.LineItemAttachment | src/components/dashboard/Dashboard.jsx:44-56 | A row has an attachment if and only if the line's documents are non-empty. Its id, amount and documents are the line's. |
| DashboardScreen.LineItemsAt | src/components/dashboard/Dashboard.jsx:44-56 | Each line of a report becomes one row, in order. |
| DashboardScreen.ReportItems | src/components/dashboard/Dashboard.jsx:40-61 | The rows one recent report contributes, given how its lines request settled. The body is the definition; DashboardScreen.FailedReportAddsNothing, DashboardScreen.ReportItemsBelong and DashboardScreen.ItemsOfOne characterise it. |
| DashboardScreen.ItemsOf | src/components/dashboard/Dashboard.jsx:37-65 | The rows of all recent reports, in their order. The body is the definition; DashboardScreen.ItemsOfConcat, DashboardScreen.ItemsOfSnoc, DashboardScreen.ItemsComeFromReports and DashboardScreen.CollectExpenseItems characterise it. |
| DashboardScreen.ItemsOfConcat | src/components/dashboard/Dashboard.jsx:37-65 | The rows of two runs of reports are the rows of each, in order. |
| DashboardScreen.ItemsOfOne | src/components/dashboard/Dashboard.jsx:39-63 | A single report contributes exactly its own rows. |
| DashboardScreen.FailedReportAddsNothing | src/components/dashboard/Dashboard.jsx:40-61 | A report whose lines request fails is skipped, and the reports around it keep their rows. |
| DashboardScreen.ReportItemsBelong | src/components/dashboard/Dashboard.jsx:44-56 | Every row a report contributes carries that report's id. |
| DashboardScreen.ItemsOfSnoc | src/components/dashboard/Dashboard.jsx:37-65 | Handling one more report appends exactly its rows to those gathered so far. |
| DashboardScreen.ItemsComeFromReports | src/components/dashboard/Dashboard.jsx:37-65 | Every row carries the id of one of the recent reports. |
| DashboardScreen.CollectExpenseItems | src/components/dashboard/Dashboard.jsx:37-65 | The loop over the recent reports collects exactly their rows in order, and asks for each report's lines in order. |
| DashboardScreen.CardReports | src/components/dashboard/Dashboard.jsx:179 | The cards show the first five recent reports, or all of them when there are fewer. |
| DashboardScreen.FilterItems | src/components/dashboard/Dashboard.jsx:142-146 | The table shows exactly the rows whose description, type or location contains the query, ignoring case. |
| DashboardScreen.FilterItemsConcat | src/components/dashboard/Dashboard.jsx:142-146 | Filtering a concatenation concatenates the filtered parts, so the matching rows keep their order and their repetitions. |
| DashboardScreen.FilterItemsOne | src/components/dashboard/Dashboard.jsx:142-146 | A single row is kept exactly when it matches. |
| DashboardScreen.EmptyQueryShowsEveryItem | src/components/dashboard/Dashboard.jsx:142-146 | The empty query shows every row whose type is text. |
| DashboardScreen.Dashboard.constructor | src/components/dashboard/Dashboard.jsx:13-16 | The dashboard starts with no summary, no rows and nothing selected, loading. |
| DashboardScreen.Dashboard.Load | src/components/dashboard/Dashboard.jsx:23-90 | An enveloped summary is shown with the rows of its recent reports. A bare summary is shown with its own expense items and no line requests. An answer without data changes nothing. A failure shows the zero summary and no rows. Loading ends. |
| DashboardScreen.Dashboard.LoadSummary | src/components/dashboard/Dashboard.jsx:33-65 | The summary is stored, and the rows are exactly those collected from its recent reports. |
| DashboardScreen.Dashboard.ToggleItem | src/components/dashboard/Dashboard.jsx:93-101 | The selection is toggled and the rows are untouched. |
| DashboardScreen.Dashboard.SelectAllItems | src/components/dashboard/Dashboard.jsx:104-110 | With every row selected, the selection is cleared; otherwise it becomes every row's id. |
| DashboardScreen.FailedLoadShowsNothing | src/components/dashboard/Dashboard.jsx:71-83 | The zero summary shows no cards and zero amounts. |
| ExpenseReportDetailScreen.ViewFor | src/components/expenseReport/ExpenseReportDetail.jsx:46-60 | The view for the hook's state: loading, then not-found for a failure or a missing report, then the report. The body is the definition; ExpenseReportDetailScreen.ViewAfterFetch characterises it. |
| ExpenseReportDetailScreen.ViewAfterFetch | src/components/expenseReport/ExpenseReportDetail.jsx:46-60 | While loading only the spinner is shown. Once the report hook's fetch settles, the report is shown exactly when the answer carried one, and a failed fetch shows the not-found view. |
| ExpenseReportDetailScreen.DisplayedTotal | src/components/expenseReport/ExpenseReportDetail.jsx:63-65 | The shown total: the stored total when truthy, otherwise the lines' sum, otherwise 0. The body is the definition; ExpenseReportDetailScreen.DisplayedTotalIsLinesSum and ExpenseReportDetailScreen.DisplayedTotalFromLines characterise it. |
| ExpenseReportDetailScreen.DisplayedTotalIsLinesSum | src/components/expenseReport/ExpenseReportDetail.jsx:63-65 | When the stored total is missing, zero, or already the sum of the lines' amounts, the total shown is that sum. |
| ExpenseReportDetailScreen.DisplayedTotalFromLines | src/components/expenseReport/ExpenseReportDetail.jsx:63-65 | A zero or missing total falls back to the lines' sum, so a new line with an amount adds that amount. |
| ExpenseReportDetailScreen.LengthOrZero | src/components/expenseReport/ExpenseReportDetail.jsx:139-143 | A count is the list's length, and 0 when there is no list. |
| ExpenseReportDetailScreen.CountsDefault | src/components/expenseReport/ExpenseReportDetail.jsx:139-143 | The item and document counts are those of the lists, and 0 when a list is absent. |
| FormInput.InputChange | src/components/configuration/ExpenseTypeManagement.jsx:25-31 | An input event sets its own field, to the text for a text input and to the checked flag for a checkbox. No other field changes. |
| FormInput.InputChangeOrder | src/components/configuration/ExpenseTemplateManagement.jsx:34-40 | Two changes of the same field leave the later value. Changes of different fields commute. |
| ExpenseTypeManagementScreen.EditTypeForm | src/components/configuration/ExpenseTypeManagement.jsx:52-67 | The form for editing a type. The body is the definition; ExpenseTypeManagementScreen.EditTypeFormShape and ExpenseTypeManagementScreen.EditFormRoundTrip characterise it. |
| ExpenseTypeManagementScreen.EditTypeFormShape | src/components/configuration/ExpenseTypeManagement.jsx:52-67 | The edit form has exactly the form's ten fields and shows a missing limit or account code blank. Editing a type whose record is an edit form shows that same form again. |
| ExpenseTypeManagementScreen.EditFormRoundTrip | src/components/configuration/ExpenseTypeManagement.jsx:52-67 | Editing a record that was saved from a complete form gives that form back. |
| ExpenseTypeManagementScreen.NewFormRoundTrip | src/components/configuration/ExpenseTypeManagement.jsx:11-22 | Editing a record saved from the blank form gives the blank form back. |
| ExpenseTypeManagementScreen.TypeScreen.constructor | src/components/configuration/ExpenseTypeManagement.jsx:11-22 | The screen starts with the modal closed, nothing being edited and the blank form. |
| ExpenseTypeManagementScreen.TypeScreen.ChangeInput | src/components/configuration/ExpenseTypeManagement.jsx:25-31 | An input change updates the form by `InputChange` and nothing else. |
| ExpenseTypeManagementScreen.TypeScreen.OpenCreate | src/components/configuration/ExpenseTypeManagement.jsx:34-49 | Creating opens the modal on the blank form with nothing being edited. |
| ExpenseTypeManagementScreen.TypeScreen.OpenEdit | src/components/configuration/ExpenseTypeManagement.jsx:52-67 | Editing opens the modal on the record's form. |
| ExpenseTypeManagementScreen.TypeScreen.Submit | src/components/configuration/ExpenseTypeManagement.jsx:70-86 | An edited record is updated under its id with the whole form; otherwise the form is created. Success closes the modal with the matching alert and updates the mirror as the hook does. Failure keeps the modal and the mirror and alerts. |
| ExpenseTypeManagementScreen.TypeScreen.Delete | src/components/configuration/ExpenseTypeManagement.jsx:89-98 | Nothing happens unless the user confirms. A successful delete removes exactly that type and alerts. A failed one keeps the list and alerts. |
| ExpenseTemplateManagementScreen.EditTemplateForm | src/components/configuration/ExpenseTemplateManagement.jsx:61-76 | The form for editing a template. The body is the definition; ExpenseTemplateManagementScreen.EditTemplateFormFields characterises it. |
| ExpenseTemplateManagementScreen.EditTemplateFormFields | src/components/configuration/ExpenseTemplateManagement.jsx:61-76 | The edit form takes the template's four fields as they are and the blank form's value for the rest. |
| ExpenseTemplateManagementScreen.TemplatePayload | src/components/configuration/ExpenseTemplateManagement.jsx:83-88 | The payload has exactly the four template fields, with the form's values. |
| ExpenseTemplateManagementScreen.EditThenSubmit | src/components/configuration/ExpenseTemplateManagement.jsx:61-103 | Submitting an unchanged edit form sends the template's own four fields. |
| ExpenseTemplateManagementScreen.OtherFieldsNotSent | src/components/configuration/ExpenseTemplateManagement.jsx:61-103 | Changing a form field outside the four template fields leaves the payload as it was. |
| ExpenseTemplateManagementScreen.ErrorAlert | src/components/configuration/ExpenseTemplateManagement.jsx:98-101 | A failure is reported by its message, or by the fallback when it has none. |
| ExpenseTemplateManagementScreen.ViewFor | src/components/configuration/ExpenseTemplateManagement.jsx:135-173 | The table is shown if and only if nothing is loading and both lists are arrays. The types error is shown only once the templates are an array. |
| ExpenseTemplateManagementScreen.TemplateScreen.constructor | src/components/configuration/ExpenseTemplateManagement.jsx:15-26 | The screen starts with the modal closed, nothing being edited and the blank form. |
| ExpenseTemplateManagementScreen.TemplateScreen.ChangeInput | src/components/configuration/ExpenseTemplateManagement.jsx:34-40 | An input change updates the form by `InputChange` and nothing else. |
| ExpenseTemplateManagementScreen.TemplateScreen.OpenCreate | src/components/configuration/ExpenseTemplateManagement.jsx:43-58 | Creating opens the modal on the blank form with nothing being edited. |
| ExpenseTemplateManagementScreen.TemplateScreen.OpenEdit | src/components/configuration/ExpenseTemplateManagement.jsx:61-76 | Editing opens the modal on the template's form. |
| ExpenseTemplateManagementScreen.TemplateScreen.Submit | src/components/configuration/ExpenseTemplateManagement.jsx:79-103 | An edited template is updated under its id with the payload; otherwise the payload is created. Success closes the modal with the matching alert and updates the mirror. Failure keeps both and alerts the failure's message. |
| ExpenseTemplateManagementScreen.TemplateScreen.Delete | src/components/configuration/ExpenseTemplateManagement.jsx:106-117 | Nothing happens unless the user confirms. A successful delete removes exactly that template. A failed one keeps the list and alerts the message. |
| DocumentUploadControl.SplitAround | src/components/documents/DocumentUpload.jsx:54 | Splitting around a separator splits each side on its own. |
| DocumentUploadControl.Extension | src/components/documents/DocumentUpload.jsx:54 | `name.split('.').pop()?.toLowerCase()`. The body is the definition; DocumentUploadControl.ExtensionAfterLastDot characterises it. |
| DocumentUploadControl.ExtensionAfterLastDot | src/components/documents/DocumentUpload.jsx:54 | The extension is the lower-cased text after the last dot, or the whole lower-cased name when it has no dot. |
| DocumentUploadControl.TargetFor | src/components/documents/DocumentUpload.jsx:70-78 | A line id sends the file to the line, and otherwise a report id sends it to the report. The upload fails if and only if there is neither. |
| DocumentUploadControl.AnswerError | src/components/documents/DocumentUpload.jsx:80-89 | The error an answer without `success` becomes. The body is the definition; DocumentUploadControl.UploadErrorMessages characterises it. |
| DocumentUploadControl.UploadErrorMessages | src/components/documents/DocumentUpload.jsx:80-89 | An unsuccessful answer reports the server's message, or the fixed upload-failed text when there is none. A missing target reports its own text. |
| DocumentUploadControl.Uploader.constructor | src/components/documents/DocumentUpload.jsx:11-12 | The control starts idle at progress 0, with its size limit and allowed types. |
| DocumentUploadControl.Uploader.Upload | src/components/documents/DocumentUpload.jsx:45-98 | A file over the limit is refused with the limit, and then a disallowed extension with the allowed list; neither sends anything. Otherwise the file is sent if and only if there is a target. It counts as uploaded if and only if the answer is a success, and it yields the server's document. Every other outcome reports a message. An upload that starts always ends idle at progress 0. |
| DocumentUploadControl.DefaultTypesIgnoreCase | src/components/documents/DocumentUpload.jsx:11-12 | Any name ending in `.PDF` has extension `pdf` and is accepted by the default types. |
| DocumentUploadControl.DefaultTypesUseLastDot | src/components/documents/DocumentUpload.jsx:54-59 | Any name ending in `.pdf.exe` has extension `exe` and is refused by the default types. |
| ApiStatusIndicator.RetryDelay | src/components/common/ApiStatusIndicator.jsx:34-39 | The back-off is the smaller of 1000 times two to the failure count and 10 seconds. |
| ApiStatusIndicator.AfterCheck | src/components/common/ApiStatusIndicator.jsx:22-39 | A successful check resets the count and schedules nothing. A failed one counts itself and schedules a retry with the back-off if and only if fewer than three checks have failed. |
| ApiStatusIndicator.RetrySchedule | src/components/common/ApiStatusIndicator.jsx:34-39 | Failures retry after 2 and then 4 seconds; the third failure stops retrying. |
| ApiStatusIndicator.ScheduledDelaysUnderCap | src/components/common/ApiStatusIndicator.jsx:34-39 | No scheduled retry waits longer than 4 seconds. |
| ApiStatusIndicator.RetriesWhileBelowThree | src/components/common/ApiStatusIndicator.jsx:34 | A failed check schedules a retry if and only if fewer than two checks had failed before it. |
| ApiStatusIndicator.Indicator.Visible | src/components/common/ApiStatusIndicator.jsx:104-107 | The indicator renders nothing while the API is online. The body is the definition; ApiStatusIndicator.Indicator.Check's contract states when it holds after a check. |
| ApiStatusIndicator.Indicator.constructor | src/components/common/ApiStatusIndicator.jsx:6-9 | The indicator starts checking, with no failures and nothing scheduled. |
| ApiStatusIndicator.Indicator.Check | src/components/common/ApiStatusIndicator.jsx:11-41 | A status check makes the health-check requests. The status becomes online or offline by the outcome, and the count and schedule follow the retry rule. The indicator is visible if and only if the check failed. |
| ApiStatusIndicator.Indicator.Retry | src/components/common/ApiStatusIndicator.jsx:99-102 | A manual retry resets the count before checking, so a failure counts 1 and retries after 2 seconds. |
| StatusBadge.StatusClass | src/components/common/StatusBadge.jsx:4-21 | Pending or submitted, approved, rejected, and information or info requested each get their own badge, in any case. A missing status and every other text get the draft badge; for text, draft is exactly the other spellings. A status that is set but is not text throws a TypeError. |
| StatusBadge.StatusClassIgnoresCase | src/components/common/StatusBadge.jsx:4-21 | The badge class does not depend on the status's case. |
| StatusBadge.UnknownStatusIsDraft | src/components/common/StatusBadge.jsx:18-19 | A status whose length matches none of the known ones is drawn as a draft. |
| StatusBadge.PendingApprovalIsDraft | src/components/common/StatusBadge.jsx:18-19 | The backend's `PENDING_APPROVAL` status falls to the draft badge. |
| StatusBadge.TitleWord | src/components/common/StatusBadge.jsx:30 | Title-casing a word keeps its length. |
| StatusBadge.TitleWords | src/components/common/StatusBadge.jsx:30 | Each word is title-cased in place. |
| StatusBadge.TitleWordFacts | src/components/common/StatusBadge.jsx:30 | Title-casing keeps a word free of spaces, and doing it twice is doing it once. |
| StatusBadge.JoinTitleLength | src/components/common/StatusBadge.jsx:27-31 | Joining the title-cased words is as long as joining the words. |
| StatusBadge.FormatKeepsWords | src/components/common/StatusBadge.jsx:27-31 | The formatted status splits into the title-cased words of the status: as many words, and the same length. |
| StatusBadge.FormatStatus | src/components/common/StatusBadge.jsx:23-31 | `formatStatus`: `Draft` for a missing status, each word title-cased for a text, a TypeError otherwise. The body is the definition; StatusBadge.FormatKeepsWords, StatusBadge.FormatIdempotent and StatusBadge.DraftIsFormatted characterise it. |
| StatusBadge.FormatIdempotent | src/components/common/StatusBadge.jsx:23-31 | Formatting fails only for a set status that is not text, and formatting a formatted status changes nothing. |
| StatusBadge.DraftIsFormatted | src/components/common/StatusBadge.jsx:24 | A missing status shows `Draft`, which is already formatted. |
| Sidebar.AllItems | src/components/common/Sidebar.jsx:14-41 | Every item of every section is in the menu. |
| Sidebar.NavigationShape | src/components/common/Sidebar.jsx:14-41 | The menu has four sections whose items are, in order: Expenses Dashboard, Expense Reports, Create Report, Approvals, Expense Templates and Expense Types, with their paths. |
| Sidebar.IsActive | src/components/common/Sidebar.jsx:7-12 | `isActive(path)`. The body is the definition; Sidebar.DashboardActive, Sidebar.NewReportActivePaths and Sidebar.NewReportLightsTwoItems characterise it. |
| Sidebar.DashboardActive | src/components/common/Sidebar.jsx:8-10 | The dashboard item is active if and only if the path is `/` or `/dashboard`. |
| Sidebar.NewReportActivePaths | src/components/common/Sidebar.jsx:8-11 | On `/expense-reports/new`, the report list and new-report paths are active and the dashboard, approvals, templates and types paths are not. |
| Sidebar.NewReportLightsTwoItems | src/components/common/Sidebar.jsx:11 | On `/expense-reports/new` both the report list and Create Report are lit, because `startsWith` matches the shorter path too. |

## Left out

- Rendering, CSS, icons, React effects and re-render timing are not modelled. Each handler is modelled as one step from the state before it to the state after it; the intermediate `loading` flags are visible only as their final value.
- I/O is left out: HTTP transport, `console` logging, `localStorage`, `window.location`, timers (`setTimeout`, `setInterval`), the window focus listener, `new Date()` and `getDaysInQueue`. A server answer, a confirm answer, a prompt answer and today's date are parameters instead.
- Api.HandleValidationErrors: a truthy `field` that is not text (a number, `true`, an array or an object) becomes a key through its text form in the source, so `5` sets the key `"5"`. The model skips such a detail.
- Js.TypeErrorValue: a TypeError is one fixed value. The engine's wording of its message, which the hooks store and show through `err.message`, is not modelled.
- Api.NormalizeError: the transport error is reduced to three shapes (an HTTP answer, no answer, a setup failure). An axios error's other fields are not modelled.
- Js.FirstRejection: `Promise.all` rejects with the first rejection to settle in time. The model takes the first one in call order, because settling time is not modelled.
- Js.Get: property access reads an object's own fields only. Indexing an array or a text by an index key (`list["0"]`) and `length` read `undefined` in the model.
- Mirror.PatchWhereKeepsIds: requires an id key that is not all digits, because Js.Get does not read the index keys a patched array or text record gains from the spread.
- Js.NewError: converting a non-string message to text is not modelled; the message is kept as the value it was.
- JsStrings.Lower: case mapping covers the ASCII letters only; Unicode case mapping is not modelled.
- JsStrings.Upper: upper-casing covers the ASCII letters only and so always keeps the length. Unicode upper-casing, which can lengthen a text (`ß` becomes `SS`), is not modelled.
- JsNumbers.Interpolate: a template literal is modelled for strings, `null`, `undefined` and natural numbers only. Arrays, objects, negative and fractional numbers are not rendered.
- ExpenseReportListScreen.BulkErrorAlert: a truthy message is written through JsNumbers.Interpolate, so an array, a negative or a fractional number as message is written as the empty text rather than as JavaScript writes it.
- ExpenseReportFormScreen.LinesTotal: only numeric amounts are summed. In the source `total + (line.reimbursementAmount || 0)` adds 1 for `true`, and for a truthy text, array or object it turns the total into text, after which `toFixed` (src/components/expenseReport/ExpenseReportForm.jsx:585) throws. The model counts every non-numeric amount as 0.
- ExpenseReportFormScreen.LinesTotalAppend: states the total for numeric and for missing or falsy amounts; for other amounts it inherits the ExpenseReportFormScreen.LinesTotal gap above.
- JsNumbers.ParseFloat: exponents (`1e3`) and `Infinity` are not recognised. A division by zero gives NaN rather than an infinity.
- JsNumbers.ParseInt: a `0x` prefix is read as 0 rather than as hexadecimal (`parseInt("0x1A")` is 26 in JavaScript), and a number is truncated directly rather than through its text form (`parseInt(1e21)` is 1 in JavaScript).
- JsNumbers.ToNumber: only signed decimal texts convert; `0x10`, `0b1`, `0o7`, exponents (`1e3`) and `Infinity` give NaN rather than their values.
- Numbers are reals: floating-point rounding and the `toFixed` formatting of amounts are not modelled. For this reason DocumentUploadControl.Uploader.Upload's too-large outcome carries the limit and not the megabyte text.
- Mirror.UnwrapList: a truthy payload that is not an array is stored as `[]`. In the source it is stored as it came, and a later `.map` would throw.
- ExpenseReportListScreen.FilterReports: a report field that is set but not a string counts as no match, where JavaScript's `toLowerCase` would throw.
- DashboardScreen.FilterItems: a row's description that is missing, `null` or not a string counts as no match, and the row can still match on its type or location. In the source `item.description.toLowerCase()` has no optional chaining, so such a row makes the render throw. A type or location that is set but not a string also counts as no match, where `toLowerCase` would throw.
- ExpenseReportDetailScreen.DisplayedTotalFromLines: `expenseLines` that are truthy but not an array throw in the source; the model does not cover them. Nor does it cover a non-numeric `reimbursementAmount`, which would concatenate as text in the source.
- DashboardScreen.Dashboard.Load: a `recentReports` string is iterable in JavaScript and a non-array `expenseItems` is stored as it came; the model walks arrays only and stores the array items.
- ApprovalQueueScreen.Queue.SelectAllApprovals: a `null` approval makes the source throw on `.reportId`; the model reads it as `undefined`.
- ExpenseLineModal: the population of the form for editing an existing line, the `selectedExpenseType` lookup effect and the list of currencies offered are not modelled. The form library's field validation is reduced to the checks the submit handler makes itself.
- ExpenseReportFormScreen: the report-level document upload, the line save handler's routing to add or update, and the delete-report and delete-line handlers are not modelled. Only their error-message rule is modelled, as FailureMessage.
- ExpenseReportFormScreen.SubmitAlertFor: a truthy message that is not text gets the generic failure alert in the model. In the source `errorMessage.includes` throws for a number, a boolean or an object, and searches the elements of an array.
- ExpenseReportListScreen: the per-row delete button, the saved-search, time-filter and sort selectors, and `handleSearch` are not modelled; they only log or set display state.
- ApiStatusIndicator: the focus listener captures the initial `checking` status, so it never re-checks; together with the 60-second interval and the `error` status it is not modelled. The indicator's hiding when online is the Visible predicate.
- The modal's 500 ms debounce, `formatFileSize`, `formatDate` and the report list's date formatting are not modelled: they are timers or display formatting.
- The blob download of `src/services/api.js:147-162` is browser I/O and is not modelled.
- The expense service's other calls (create, update, delete, documents, approvals, configuration) only forward their arguments to the transport and are not modelled separately.

## Findings

| source | as written | input that shows it | evidently intended | confidence | as-written member | corrected member |
|---|---|---|---|---|---|---|
| src/hooks/useExpenseTypes.js:287 | `getExchangeRate(fromCurrency, toCurrency, date)` passes three positional arguments to a service method that reads one request object (src/services/expenseService.ts:298-306) | EUR, USD, 2024-01-31: the request carries undefined currencies and today's date; an undefined first argument throws | pass `{ fromCurrency, toCurrency, date }` | not executed | ConfigurationHooks.ExchangeRateCallAsWritten (shown by ConfigurationHooks.ExchangeRateArgumentsLost) | ConfigurationHooks.ExchangeRateCall |
| src/components/expenseLine/ExpenseLineModal.jsx:98 | the rate is read from `response.data.exchangeRate`, but the exchange-rate record (src/types/api.ts:80-85) names it `rate` | 10 EUR with an answer carrying rate 1.1: rate `undefined` and amount NaN, where (1.1, 11) is meant | read `response.data.rate` | not executed | ExpenseLineModal.RateAsWritten (shown by ExpenseLineModal.RateFieldMismatch) | ExpenseLineModal.RateOf |
| src/components/expenseReport/ExpenseReportForm.jsx:169-180 | the failure alert reads `error.response.data.message`, but the API client rejects with its normalised error, which has no `response` (src/services/api.js:74-95) | a 400 answer with message "Report has no expense lines": the generic failure alert is shown instead of the no-lines alert | read the rejection's own `message` | not executed | ExpenseReportFormScreen.SubmitFailureAlertAsWritten (shown by ExpenseReportFormScreen.SubmitFailureLosesServerMessage) | ExpenseReportFormScreen.SubmitFailureAlert |
