# PanSuite-Industrial quality core in Dafny

PanSuite-Industrial is a browser dashboard for a factory's quality office.
This project models five parts of it and proves properties about them:

- **Process capability.** For a sample of measurements and a pair of
  specification limits (USL, LSL), the statistics engine gives the count, the
  mean, the Bessel-corrected standard deviation, Cp, Cpk and a three-tier
  status (OPTIMAL / ACCEPTABLE / CRITICAL). Module `StatsEngine`,
  `stats_engine.dfy`.
- **Spreadsheet dashboards.** The FMEA, Pareto, SWOT and 5S tools share one
  spreadsheet viewer. Column 6 of an FMEA row is recomputed as the risk
  priority number, S x O x D. A Pareto sheet is sorted by frequency,
  descending, and each row receives its cumulative share. Every edit is
  recomputed, shown and written to browser storage under
  `EQPS_DATA_<tool id>`. Module `Spreadsheet` with class `Viewer`,
  `spreadsheet.dfy`.
- **SPC measurement log.** The statistical process control screen keeps an
  append-only log of readings, each named by its position. It flags points
  outside the limits, raises the Cp and Cpk alerts, and asks for a root-cause
  analysis once three points exist. Module `SpcLog` with class `SpcSession`,
  `spc_log.dfy`.
- **Tool visibility.** The home dashboard shows the registry tools of the
  selected business area (or of every area) that the signed-in profile may
  open. Module `ToolAccess`, `tool_access.dfy`.
- **Administration.** The administration screen keeps a user directory under
  `EQPS_USERS`. It also backs up every `EQPS_` entry of browser storage,
  restores a backup file over the store, and can clear the store. Module
  `Admin` with class `AdminConsole`, `admin.dfy`.

Two shared modules support these. `Numerals` (`numerals.dfy`) gives the
decimal text of a natural number and the value of a digit string.
`Wrappers` (`wrappers.dfy`) gives `Option`.

Modelling choices:
- Arithmetic is exact, over `real`.
- `Math.sqrt` is a function parameter `root`. It is required to behave as a
  square root on non-negative reals (`IsSquareRoot`).
- The engine's result has three cases: `NoData` (the source's `null`),
  `DegenerateVariance` and `Capable`. `DegenerateVariance` covers one point,
  or zero spread, where the source divides by zero.
- A Pareto percentage is kept as the exact ratio `part / whole`. The model
  uses `Percent(running, total)` for `(running / total) * 100` and does not
  model the `toFixed(1) + '%'` text.
- Browser storage is a `map` from keys to JSON values (`Json`). The viewer's
  storage map holds sheets.
- `window.confirm` is a boolean parameter. The random user id and today's
  date are parameters too. The parsed backup file and the root-cause
  service's answer are `Option` parameters.
- The source's `Number(...)` on a table cell is `ToNumber`. A number converts
  to itself and a string of decimal digits to its value. Anything else is
  `NaN` (`None`); `Number(x) || 0` then makes it 0.

## Model

| member | source | states |
|---|---|---|
| StatsEngine.Classify | services/statsEngine.ts:24 | OPTIMAL iff cpk >= 1.33, ACCEPTABLE iff 1.0 <= cpk < 1.33, CRITICAL iff cpk < 1.0; exactly one tier applies |
| StatsEngine.ClassifyMonotone | services/statsEngine.ts:24 | a larger Cpk never gives a worse tier |
| StatsEngine.ClassifyBoundaries | services/statsEngine.ts:24 | the lower bounds 1.33 and 1.0 belong to the higher tier; values just below fall to the lower one |
| StatsEngine.Min | services/statsEngine.ts:16 | `Math.min`: not above either argument and equal to one of them |
| StatsEngine.Indices | services/statsEngine.ts:10-16 | for a positive sigma, Cp x 6 sigma = USL - LSL; Cpk x 3 sigma is at most both (USL - mean) and (mean - LSL) and equals one of them; the status is the tier of the unrounded Cpk |
| StatsEngine.CalculateStats | services/statsEngine.ts:2-26 | no result exactly for the empty sample; count = n and mean x n = sum; degenerate exactly when n = 1 or the squared deviations sum to 0; otherwise sigma > 0, sigma^2 (n - 1) = sum of squared deviations from the mean, and Cp, Cpk and status as in Indices |
| StatsEngine.SumSqDevNonNegative | services/statsEngine.ts:7 | the sum of squared deviations from any centre is non-negative, so the variance is too |
| StatsEngine.SumOfPermutation | services/statsEngine.ts:5-7 | both folds (sum and squared deviations) are independent of the order of the sample |
| StatsEngine.CalculateStatsPermutation | services/statsEngine.ts:2-26 | reordering the sample leaves the whole result unchanged |
| StatsEngine.ConstantSampleDegenerate | services/statsEngine.ts:5-8 | a sample whose values are all equal is degenerate, with that value as its mean |
| StatsEngine.SinglePointIsDegenerate | services/statsEngine.ts:7 | a single point (divisor n - 1 = 0) is degenerate with itself as the mean |
| StatsEngine.ConstantSampleExample | services/statsEngine.ts:5-8 | three readings of 10.0 give a degenerate result of count 3, mean 10.0 |
| StatsEngine.WorkedExample | services/statsEngine.ts:5-24 | 9.8, 10.0, 10.2, 9.9, 10.1 against 9.5 .. 10.5: count 5, mean 10, variance 0.025, Cp = Cpk, status ACCEPTABLE |
| Numerals.DecimalString | components/SPCModule.tsx:24 | `(n).toString()`: a non-empty digit string without a leading zero that reads back as n |
| Numerals.DecimalStringInjective | components/SPCModule.tsx:24 | distinct positions get distinct names |
| Spreadsheet.ToNumber | components/DashboardViewer.tsx:39-41 | `Number(cell)`: a number is itself, a digit string its value; any other text, a percentage or a hole NaN |
| Spreadsheet.SetCell | components/DashboardViewer.tsx:42-43 | `newRow[k] = c` on a copy: cell k becomes c, every other position keeps its cell, a short row grows with holes |
| Spreadsheet.Coerce | components/DashboardViewer.tsx:39-41 | `Number(cell) \|\| 0`: a cell's number when it converts to one, otherwise 0 |
| Spreadsheet.Rpn | components/DashboardViewer.tsx:39-43 | the RPN is always a number cell, and it is 0 as soon as S, O or D is not a number |
| Spreadsheet.FmeaRow | components/DashboardViewer.tsx:42-43 | column 6 of the new row holds the RPN of the old row; every other column keeps its cell |
| Spreadsheet.FmeaRows | components/DashboardViewer.tsx:38-45 | the FMEA map keeps the row count and applies the RPN rule to each row in place |
| Spreadsheet.FmeaRpn | components/DashboardViewer.tsx:38-45 | row i's column 6 is Num(S x O x D) with non-numbers as 0, every other column of row i is unchanged, and the row grows only to reach column 6 |
| Spreadsheet.FmeaRowIdempotent | components/DashboardViewer.tsx:38-45 | recomputing the RPN of a recomputed row changes nothing |
| Spreadsheet.FmeaRowIgnoresRpn | components/DashboardViewer.tsx:42-43 | whatever column 6 held is overwritten: the result does not depend on it |
| Spreadsheet.SortDesc | components/DashboardViewer.tsx:49 | the Pareto sort returns a permutation of the rows (same length, same multiset) in non-increasing order of frequency |
| Spreadsheet.SortDescStable | components/DashboardViewer.tsx:49 | rows of equal frequency keep their relative order |
| Spreadsheet.SortDescOfSorted | components/DashboardViewer.tsx:49 | rows already in order are left in place |
| Spreadsheet.Annotate | components/DashboardViewer.tsx:50-59 | the total pass and the running-sum pass produce exactly `Annotated(rows)` |
| Spreadsheet.Share | components/DashboardViewer.tsx:57 | the cell is a percentage exactly when the total is positive, and then its whole is the total; otherwise it is the text "0%" |
| Spreadsheet.Annotated | components/DashboardViewer.tsx:54-59 | the running-share pass keeps the number of rows (its cells are stated by ParetoShare and ParetoKeepsOtherColumns) |
| Spreadsheet.ParetoShare | components/DashboardViewer.tsx:50-57 | with a positive total, row i's column 2 is the running total through row i out of the total; otherwise it is "0%" |
| Spreadsheet.ParetoKeepsOtherColumns | components/DashboardViewer.tsx:54-58 | every column except 2 keeps its cell |
| Spreadsheet.ParetoLastIsHundred | components/DashboardViewer.tsx:50-57 | the last row's share is total / total, i.e. 100% |
| Spreadsheet.ParetoMonotone | components/DashboardViewer.tsx:50-57 | with non-negative frequencies the shares never fall and stay between 0 and the total |
| Spreadsheet.ParetoIgnoresCumulative | components/DashboardViewer.tsx:48-60 | rows that differ only in column 2 give the same Pareto output |
| Spreadsheet.Processed | components/DashboardViewer.tsx:33-63 | `processLogic` keeps the headers and the number of rows |
| Spreadsheet.ProcessLogic | components/DashboardViewer.tsx:33-63 | the imperative `processLogic` computes `Processed(sheet, id)` |
| Spreadsheet.ParetoReorders | components/DashboardViewer.tsx:48-60 | the Pareto output is the input reordered, sorted descending, stable, and changed only in column 2 |
| Spreadsheet.OtherToolsUnchanged | components/DashboardViewer.tsx:62 | any tool other than FMEA and Pareto gets its sheet back unchanged |
| Spreadsheet.ProcessedIdempotent | components/DashboardViewer.tsx:33-63 | recomputing a computed sheet changes nothing, for every tool |
| Spreadsheet.EditCell | components/DashboardViewer.tsx:67-68 | one cell is replaced; every other cell and row is kept and no length changes |
| Spreadsheet.IsReadOnly | components/DashboardViewer.tsx:130 | only FMEA and Pareto sheets have read-only cells; in FMEA exactly column 6 is read-only, in Pareto exactly column 2 |
| Spreadsheet.ReadOnlyEditOverwritten | components/DashboardViewer.tsx:130 | a value written into a read-only derived cell is lost on recomputation: the result equals that of the unedited sheet |
| Spreadsheet.Template | constants.tsx:70-104 | a template exists exactly for FMEA, Pareto, SWOT and 5S, and every template row has one cell per header |
| Spreadsheet.InitialSheet | components/DashboardViewer.tsx:23 | `TOOL_TEMPLATES[toolId] \|\| default`: a tool with a template starts from it, any other from the two-column default; the Pareto start has numeric frequencies |
| Spreadsheet.FmeaTemplateRpn | constants.tsx:74-75 | the FMEA template's RPNs are 84 and 36 |
| Spreadsheet.ParetoTemplateSorted | constants.tsx:81-84 | the Pareto template is already in descending order, so processing it only fills in the shares |
| Spreadsheet.ParetoTemplateShares | constants.tsx:81-84 | the template's total is 182 and its shares are 120/182, 165/182, 177/182, 182/182 |
| Spreadsheet.BlankRow | components/DashboardViewer.tsx:76 | a new row has one empty text cell per header |
| Spreadsheet.Viewer.constructor | components/DashboardViewer.tsx:15-31 | a stored sheet is shown as stored; otherwise the template (or default) is processed, shown and stored |
| Spreadsheet.Viewer.HandleCellEdit | components/DashboardViewer.tsx:65-72 | the sheet shown is the processed sheet with the one cell edited, and it is stored under the tool's key |
| Spreadsheet.Viewer.AddRow | components/DashboardViewer.tsx:74-78 | one blank row as wide as the header is appended; earlier rows, headers and storage are unchanged |
| SpcLog.Added | components/SPCModule.tsx:23-28 | exactly one entry is appended and earlier entries are kept; it carries the value, machine and lot, and is named by its 1-based position |
| SpcLog.AddedKeepsNaming | components/SPCModule.tsx:23-28 | appending keeps every entry of the log named by its 1-based position |
| SpcLog.NamesDistinct | components/SPCModule.tsx:24 | no two entries of the log share a name |
| SpcLog.Values | components/SPCModule.tsx:17 | the statistics get the values in insertion order |
| SpcLog.IsNok | components/SPCModule.tsx:146 | a point is flagged NOK exactly when it lies outside LSL .. USL |
| SpcLog.InSpecIsClosedInterval | components/SPCModule.tsx:146 | with LSL <= USL, the limits themselves are not flagged NOK |
| SpcLog.CpAlert | components/SPCModule.tsx:179 | raised with no data (fallback '0') and, on a report, exactly when Cp < 1.33; for a degenerate sample (NaN or infinite Cp) never raised for one point; for n >= 2 raised exactly when the limits are inverted (USL < LSL, Cp = -Infinity) |
| SpcLog.CpkAlert | components/SPCModule.tsx:180 | raised with no data and, on a report, exactly when Cpk < 1.33; for a degenerate sample never raised for one point, and for a constant sample within ordered limits raised exactly when the mean lies outside them (Cpk = -Infinity); with inverted limits raised unless the mean sits on a limit (NaN) |
| SpcLog.ReportedStatus | components/SPCModule.tsx:37 | no status exactly without data (sent as 'UNKNOWN'); a report's own status; a degenerate sample is OPTIMAL or CRITICAL: CRITICAL for one point (NaN Cpk), and for a constant sample OPTIMAL exactly when the mean lies strictly inside the limits |
| SpcLog.CpkAlertIffNotOptimal | components/SPCModule.tsx:180-182 | on a report the Cpk alert is shown exactly when the status is not OPTIMAL |
| SpcLog.SinglePointReport | components/SPCModule.tsx:16-18 | one logged point is reported CRITICAL and raises neither alert |
| SpcLog.StatsIgnoreOrder | components/SPCModule.tsx:16-18 | logs with the same values in any order get the same statistics |
| SpcLog.SpcSession.constructor | components/SPCModule.tsx:8-14 | an empty log, lot LOT-2025-001, machine WM-INJ-04, limits 9.5 .. 10.5 around 10.0, no analysis |
| SpcLog.SpcSession.HandleAdd | components/SPCModule.tsx:20-31 | a parsed number is appended, named by position and stamped with machine and lot, and the input cleared; NaN changes nothing |
| SpcLog.SpcSession.EditSpec | components/SPCModule.tsx:96-112 | the limits and nominal value are replaced, nothing else changes, and the log stays named by position |
| SpcLog.SpcSession.ClearData | components/SPCModule.tsx:46-51 | confirmed: the log and the analysis are emptied; declined: nothing changes |
| SpcLog.RcaEnabled | components/SPCModule.tsx:273 | the button is enabled only with at least three points, and then exactly when no analysis is running |
| SpcLog.SpcSession.RequestRca | components/SPCModule.tsx:33-37 | under three points no request and no state change; otherwise the analysis starts and the request carries the log and its status; an enabled button (components/SPCModule.tsx:273) always starts one |
| SpcLog.SpcSession.ReceiveRca | components/SPCModule.tsx:37-43 | the answer, if any, is shown; the analysis ends either way |
| ToolAccess.Visible | components/Dashboard.tsx:17-19 | a tool is visible only to a profile it allows; with ALL exactly to those profiles; with one area never when the tool belongs to another area |
| ToolAccess.FilteredTools | components/Dashboard.tsx:16-20 | the filter never returns more tools than the registry has |
| ToolAccess.FilteredMembership | components/Dashboard.tsx:16-20 | a tool is shown iff it is in the registry, its area matches (or ALL is selected) and the profile is allowed |
| ToolAccess.FilteredIsSubsequence | components/Dashboard.tsx:16 | the result is a subsequence of the registry, in registry order |
| ToolAccess.AreaRefinesAll | components/Dashboard.tsx:17-19 | one area's tools are the all-areas result filtered by area, hence a subsequence of it |
| ToolAccess.NeverShownWithoutProfile | components/Dashboard.tsx:18-19 | no area selection shows a tool to a profile it does not allow |
| ToolAccess.AllAreasIsProfileRule | components/Dashboard.tsx:17 | with ALL, the result is exactly the registry tools allowing the profile |
| ToolAccess.AdminCatalogue | constants.tsx:7-68 | with ALL, ADMIN sees exactly the five registry tools other than `cep-stats`, in registry order; `cep-stats` is never shown to ADMIN under any area choice |
| ToolAccess.OperatorQualityArea | constants.tsx:7-68 | OPERATOR in the quality-management area sees only `cep-stats` |
| Admin.DefaultAdmin | components/AdminModule.tsx:14-16 | the seeded user is an active ADMIN whose last login is today |
| Admin.NamesRoundTrip | types.ts:2-17 | every profile and business unit is read back from its stored name |
| Admin.UsersRoundTrip | components/AdminModule.tsx:10-18 | a stored user list reads back as the same list |
| Admin.WithoutId | components/AdminModule.tsx:38 | the filter never lengthens the list and no remaining user has the deleted id |
| Admin.WithoutIdMembers | components/AdminModule.tsx:38 | after a delete a user remains iff it was there and has another id |
| Admin.WithoutIdAppend | components/AdminModule.tsx:38 | the filter keeps the remaining users in their order: it distributes over concatenation |
| Admin.WithoutAbsentId | components/AdminModule.tsx:38 | deleting an id no user has changes nothing |
| Admin.NewUser | components/AdminModule.tsx:24-29 | a new user takes the given id, the form's name, email, profile and unit, is active, and has last login 'Primeiro Acesso' |
| Admin.Exported | components/AdminModule.tsx:44-50 | the backup's keys are exactly the stored keys starting with `EQPS_`, with their stored values |
| Admin.Indexed | components/AdminModule.tsx:66 | `Object.keys` of an array or string: keys are exactly the numerals "0" .. "n-1", each naming its element |
| Admin.Entries | components/AdminModule.tsx:66 | `Object.keys(data)`: null has no entries (the call throws); an object gives its own fields; an array or a string gives its elements or characters under the index keys "0" .. "n-1"; a boolean or number gives none |
| Admin.AdminConsole.constructor | components/AdminModule.tsx:9-20 | a stored value is decoded as the user list, or as None when it is not one; without a stored value the one default ADMIN user is loaded and stored |
| Admin.AdminConsole.FillForm | components/AdminModule.tsx:111-124 | typing changes the form only |
| Admin.AdminConsole.AddUser | components/AdminModule.tsx:22-34 | exactly `NewUser(form, id)` appended: form's name, email, profile and unit, the new id, active, 'Primeiro Acesso'; list stored; form reset to OPERATOR / QA |
| Admin.AdminConsole.DeleteUser | components/AdminModule.tsx:36-41 | confirmed: the list without that id, stored; declined: list and storage unchanged |
| Admin.AdminConsole.ExportData | components/AdminModule.tsx:43-50 | the loop over the stored keys collects exactly `Exported(storage)` |
| Admin.AdminConsole.WriteEntries | components/AdminModule.tsx:66-68 | the `forEach` loop writes every entry over its key and keeps every other key |
| Admin.AdminConsole.ImportData | components/AdminModule.tsx:59-76 | succeeds iff the file parsed to a non-null value; then every entry of `Object.keys` overwrites its key and other keys are kept; on failure nothing changes |
| Admin.AdminConsole.RestoreOwnBackup | components/AdminModule.tsx:43-74 | exporting and then importing that backup always succeeds and leaves the store unchanged |
| Admin.AdminConsole.RestoreAfterReset | components/AdminModule.tsx:43-83 | exporting, resetting and importing the backup succeeds and leaves exactly the `EQPS_` entries the store held |
| Admin.AdminConsole.ResetDB | components/AdminModule.tsx:78-83 | confirmed: the store is empty; declined: unchanged |
| Admin.ReloadAfterReset | components/AdminModule.tsx:78-83 | after a confirmed reset and the ADMIN login that reopens the console (App.tsx:59), the directory shows only the default administrator, and the store holds exactly the session and that directory |
| Admin.ReloadAfterBadImport | components/AdminModule.tsx:9-12 | a backup whose `EQPS_USERS` entry is a number is imported as is, and the reloaded screen has no user list to show |

## Left out

- Number formatting: `toFixed(4)` / `toFixed(2)` on the engine's results and `toFixed(1) + '%'` on Pareto shares. Values are kept exact.
- SpcLog.CpAlert: compares the unrounded Cp with 1.33, where the source parses the `toFixed(2)` text. A Cp just below 1.33 that rounds to "1.33" raises no alert in the source, but the model raises one.
- SpcLog.CpkAlert: the same rounding gap as CpAlert, for Cpk.
- SpcLog.CpkAlertIffNotOptimal: holds for the unrounded Cpk. In the source, a Cpk just below 1.33 that rounds to "1.33" is ACCEPTABLE but raises no alert.
- Spreadsheet.ToNumber: text with a sign, a decimal point, an exponent or surrounding blanks is treated as NaN. JavaScript's `Number` accepts these. Edited cells are text, so such an edit counts as 0 in an RPN.
- IEEE `NaN` and `Infinity`: modelled only where the engine divides by zero, as `DegenerateVariance` and its alert and status readings. The limits themselves are always real numbers (`parseFloat` of an empty limit field gives NaN, which is not modelled).
- StatsEngine.CalculateStats: only one direction is proved for the degenerate case. Equal values give `DegenerateVariance` (ConstantSampleDegenerate). The converse, that zero spread implies equal values, is not proved.
- Spreadsheet.ProcessLogic: the Pareto tool requires every frequency to be numeric. The source sorts with a comparator that returns NaN for non-numeric frequencies, and the resulting order is implementation-defined.
- Spreadsheet.Processed: has the same numeric-frequency requirement as ProcessLogic.
- Spreadsheet.Viewer.HandleCellEdit: for the Pareto tool, requires numeric frequencies after the edit, as ProcessLogic does. The source writes the edit into the row object it shares with the previous state; the model copies the row. The `if (!data) return` guard and the loading flag are left out, because a viewer in the model always holds its sheet.
- Spreadsheet.Viewer.constructor: a stored sheet is taken as is. The JSON text in storage is not modelled.
- Admin.AdminConsole.constructor: a stored value that is not a list of complete user records loads as `None`. The source loads whatever parses and fails when it renders: `users.map` needs an array and `user.name[0]` a name (components/AdminModule.tsx:144, 148). A record that lacks only other fields still renders in the source but is `None` here. Every list the screen itself writes decodes (Admin.UsersRoundTrip).
- Admin.AdminConsole.AddUser: requires a loaded user list, because a screen that failed to render offers no form. It also requires a non-empty name and email, which is what the form's `required` fields enforce. The browser's e-mail format check is left out. The form's unit is not editable on screen; it is kept as a field.
- Admin.AdminConsole.DeleteUser: requires a loaded user list, for the same reason as AddUser.
- Admin.AdminConsole.ImportData: storage values are JSON values rather than text, so `JSON.stringify(data[key])` is the value itself. `FileReader` and the success and error alerts are left out. The page reload after a successful import is not part of the method; Admin.ReloadAfterBadImport builds a new `AdminConsole` from the store to show it, and Admin.ReloadAfterReset does the same after a reset and a fresh login.
- Admin.AdminConsole.ExportData: the Blob download and its dated file name are left out. Every stored value is a JSON value, so the source's `|| '{}'` fallback cannot occur.
- `Math.random` user ids and `new Date()` stamps are parameters.
- The root-cause service (`generateRCA`) is not part of this model. Its answer is the `response` parameter of `SpcSession.ReceiveRca`, with `None` for a failed call, which leaves the previous analysis shown. A reply of `undefined` (services/geminiService.ts:57) is passed as `Some("")`: the source then clears the analysis, and an empty text renders the same placeholder (components/SPCModule.tsx:263).
- Typing into the SPC reading field is not modelled: `HandleAdd` receives the result of `parseFloat`.
- Tool icons, descriptions and the `external` flag, and the other modules' screens, charts and styling, are not part of this model.
