# Project management dashboard: a Dafny model

This project models the state logic of a small project-management dashboard.
A graphic designer uses it to track work for three client brands: Wami Live,
Luck On Fourth and The Hideout. Two components are modelled:

- **The project board** (`ProjectDashboard`, dashboard.dfy). It holds the
  project list and the per-brand pending invoices and exported-invoice history.
  It also holds the submission form and the price and confirmation dialogs.
  Its handlers cover:
  - reordering by drag and drop, which renumbers priorities;
  - status changes, where Completed goes through the price dialog and adds a
    priced snapshot to the brand's pending invoice;
  - creating and editing a project, and attaching and removing files;
  - the confirmation dialog, which deletes one project or bulk-deletes the
    Completed ones. The same dialog also has an invoice-history mode and a
    pending-snapshot mode, which the page offers to the invoice manager through
    two callbacks.
- **The invoice manager** (`InvoiceManagement`, invoices.dfy). Its load effect
  groups the loaded rows per brand and loads the per-brand counters. It also
  covers the brand total, removing a snapshot from a pending invoice,
  toggling an invoice's paid flag, clearing a brand's history, the next invoice
  number, and the data side of the PDF export: table rows, page breaks,
  number padding, the file name and the history record.

Three small modules support them:
- `Collections`: `filter`, `findIndex` and the `arrayMove` of the drag-and-drop
  library.
- `Text`: `includes`, integer `toString`, `padStart` and `toFixed(2)` on cents.
- `Domain`: brands, projects, snapshots, exported invoices and price sums.

Both components change state step by step, so each is a class. The manager's
`page` field is the dashboard whose pending and exported dictionaries it edits,
because in the original the manager receives the page's state and setters.
Every backend call is a parameter: a success flag, or the rows a query
returns (`None` for a failed query). Money is integer cents and dates are
integers.

## Model

| member | source | states |
|---|---|---|
| Collections.ArrayMoveSpec | app/page.tsx:873 | arrayMove keeps the length and the multiset of projects, puts the moved project at the target index, keeps every other project's relative order, and changes nothing when source and target coincide |
| Text.UnsignedFixed2Denotes | components/invoice-manager.tsx:378 | the `toFixed(2)` text of an amount has whole digits, a point and exactly two digits, which read back as the amount in cents |
| Text.ToFixed2Denotes | components/invoice-manager.tsx:378 | `toFixed(2)` of a non-negative amount reads back as the amount; a negative amount gives a minus sign followed by the text of its magnitude |
| Domain.ParseBrand | components/invoice-manager.tsx:116-118 | a row's brand text gives a brand exactly when it is one of the three brand names |
| Domain.BrandMap | app/page.tsx:304-313 | the per-brand dictionary starts with all three brand keys, each holding the given value |
| Domain.SumPricesConcat | components/invoice-manager.tsx:206-208 | the brand total of two concatenated lists is the sum of their totals |
| Domain.WithoutInvoiceProjectExactly | components/invoice-manager.tsx:222-225 | removal keeps exactly the snapshots with another id, and removing twice is removing once |
| ProjectDashboard.PriorityColor | app/page.tsx:100-104 | high colour exactly for priority <= 3, medium exactly for 4-7, low exactly above 7 |
| ProjectDashboard.ProjectsByStatusExactly | app/page.tsx:914-916 | a project is returned exactly when it is in the list and has the requested status; a list of that status only is returned whole |
| ProjectDashboard.ActiveAndCompletedPartition | app/page.tsx:940 | the board lists exactly the projects that are not Completed, and board plus Completed count every project once |
| ProjectDashboard.RoundedPercent | app/page.tsx:920 | the result is at most 100 and lies within half a percent of 100 * completed / total |
| ProjectDashboard.CompletionPercentage | app/page.tsx:918-921 | 0 for no projects, otherwise the Completed share rounded to the nearest percent, never above 100 |
| ProjectDashboard.IndexOfId | app/page.tsx:870-871 | findIndex by id: an index holding the id with no earlier project holding it, or None when no project has it |
| ProjectDashboard.DropIndex | app/page.tsx:871-873 | the index arrayMove receives is in range: a missing or unknown drop target gives the last position, a listed one gives the first index holding its id |
| ProjectDashboard.PriorityWrites | app/page.tsx:880-887 | one write per project, in display order, giving the project at position i the priority i + 1 |
| ProjectDashboard.PrioritiesDense | app/page.tsx:880-883 | priorities written by position are exactly 1..N and pairwise distinct |
| ProjectDashboard.SubmissionData | app/page.tsx:527-557 | a record is written exactly when every field is filled; it copies the form, with the edited project's status or Pending for a new one |
| ProjectDashboard.AcceptedFilesExactly | app/page.tsx:494-500 | exactly the files of at most 10 MB are kept, and a selection with no large file is kept whole |
| ProjectDashboard.WithoutFileExactly | app/page.tsx:517-522 | exactly the files with another id are kept |
| ProjectDashboard.SetStatus | app/page.tsx:623 | the projects with the given id get the new status; nothing else in any project changes (the same update marks a project Completed after a price is submitted) |
| ProjectDashboard.Snapshot | app/page.tsx:678-683 | the pending snapshot is the whole project with its status set to Completed, carrying the price and the time it was added |
| ProjectDashboard.DeleteTargetAsWritten | app/page.tsx:799 | the lookup as written picks the first project whose title occurs anywhere in the dialog caption |
| ProjectDashboard.DeleteTarget | app/page.tsx:799 | the corrected lookup picks the first project whose own delete caption is the dialog's caption |
| ProjectDashboard.DeleteLabelInjective | app/page.tsx:718 | different titles give different delete captions |
| ProjectDashboard.DeleteTargetIsNamedProject | app/page.tsx:710-719 | with the corrected lookup, confirming the dialog opened for a project targets that project, unless an earlier project has the same title |
| ProjectDashboard.DeleteTargetAsWrittenFindsNamed | app/page.tsx:799 | as written, the dialog opened for a project targets it when no earlier project's title occurs in its caption |
| ProjectDashboard.DeleteTargetAsWrittenPicksEarlierTitle | app/page.tsx:799 | with "Flyer" listed before "Flyer 2", the dialog for "Flyer 2" targets "Flyer" as written and "Flyer 2" when corrected |
| ProjectDashboard.WithoutProjectExactly | app/page.tsx:801-811 | after a delete by id, a project remains exactly when it was listed and has another id, and the list shrinks when the id was listed |
| ProjectDashboard.Dashboard.constructor | app/page.tsx:295-368 | no projects, all three brands with empty pending and history lists, an empty form with priority 1, and closed dialogs |
| ProjectDashboard.Dashboard.HandleDragEnd | app/page.tsx:866-897 | a drop on itself changes nothing; otherwise the list is arrayMoved (a permutation with the project at the drop index) and one write per position gives priority position + 1 |
| ProjectDashboard.Dashboard.HandleStatusChange | app/page.tsx:599-632 | Completed for a listed project only opens the price dialog; any other change writes to the backend and, on success, changes only that project's status |
| ProjectDashboard.Dashboard.EnterPrice | app/page.tsx:1692 | typing changes only the dialog's price |
| ProjectDashboard.Dashboard.HandlePriceSubmit | app/page.tsx:634-708 | no project: nothing; a price that is not positive, or a failed write: nothing changes; otherwise one snapshot is appended to the brand, the brand total grows by the price, the project becomes Completed and the dialog closes |
| ProjectDashboard.Dashboard.HandleEdit | app/page.tsx:850-864 | the form is filled from the project, which becomes the one being edited |
| ProjectDashboard.Dashboard.HandleSubmit | app/page.tsx:524-597 | an incomplete form writes nothing; a complete one writes SubmissionData; on success the edit ends and the form resets with priority length + 1; on failure nothing changes |
| ProjectDashboard.Dashboard.ProcessFiles | app/page.tsx:493-515 | the accepted files are appended, in order, after the form's files |
| ProjectDashboard.Dashboard.RemoveFile | app/page.tsx:517-522 | the form's files with that id are removed and nothing else changes |
| ProjectDashboard.Dashboard.HandleDelete | app/page.tsx:710-720 | a listed project opens the dialog captioned with its title; an unknown id changes nothing |
| ProjectDashboard.Dashboard.HandleDeleteInvoiceProject | app/page.tsx:722-732 | opens the removal dialog and remembers the brand and project id |
| ProjectDashboard.Dashboard.HandleClearCompleted | app/page.tsx:756-769 | opens the bulk dialog with the number of Completed projects; with none it reports a `ValidationError` and changes nothing |
| ProjectDashboard.Dashboard.OpenInvoiceHistoryClear | app/page.tsx:1031-1038 | opens the dialog in invoice mode with the brand and the count |
| ProjectDashboard.Dashboard.ConfirmClearCompleted | app/page.tsx:771-848 | the first matching branch runs. Invoice mode empties only that brand's history. A remembered snapshot leaves only that brand's pending list. A delete caption deletes the first project whose title occurs in the caption, as the code is written. Otherwise only the Completed projects go. Each branch leaves the other dictionaries alone and covers backend failure |
| InvoiceManagement.GroupByBrand | components/invoice-manager.tsx:94-119 | every brand key is present and holds the converted rows naming that brand, in load order |
| InvoiceManagement.GroupingPartition | components/invoice-manager.tsx:100-119 | every loaded row lands in exactly one brand's list or is dropped for an unknown brand |
| InvoiceManagement.OfBrandSource | components/invoice-manager.tsx:116-118 | every grouped value comes from a row naming that brand |
| InvoiceManagement.GroupedSnapshots | components/invoice-manager.tsx:100-118 | a grouped pending snapshot carries the brand it is filed under and the id of a row of that brand |
| InvoiceManagement.CounterDefaults | components/invoice-manager.tsx:166-180 | all brands start at 1 and each counter row overwrites its brand's counter |
| InvoiceManagement.LastCounterDefault | components/invoice-manager.tsx:170-174 | a brand with no counter row keeps 1 |
| InvoiceManagement.LastCounterLastRow | components/invoice-manager.tsx:176-178 | otherwise the last row naming the brand decides its counter |
| InvoiceManagement.BrandTotalAppend | components/invoice-manager.tsx:206-208 | appending snapshots raises the brand total by exactly their prices, a missing price counting 0, and leaves the other brands' totals alone; a missing brand counts as empty |
| InvoiceManagement.BrandTotalRemoval | components/invoice-manager.tsx:206-225 | removing a project lowers the brand total by exactly the prices of its snapshots and leaves the other brands' totals alone |
| InvoiceManagement.ReadyKeptByAdding | components/invoice-manager.tsx:506-508 | a brand whose total has reached $200 stays ready to invoice when snapshots priced at zero or more are added |
| InvoiceManagement.RemovalLowersTotal | components/invoice-manager.tsx:210-232 | removing a project lowers the brand total by exactly the prices of the removed snapshots |
| InvoiceManagement.TogglePaid | components/invoice-manager.tsx:235-240 | the paid flag flips exactly on the invoices with that id; nothing else changes |
| InvoiceManagement.TogglePaidTwice | components/invoice-manager.tsx:234-240 | toggling the same invoice twice restores the history |
| InvoiceManagement.PaidFlagSent | components/invoice-manager.tsx:246-249 | the flag written is the negation of the first matching invoice's old flag, or true when none matches |
| InvoiceManagement.NextInvoiceNumber | components/invoice-manager.tsx:295-314 | the remote number when the call succeeds, else the local counter; a missing or zero value becomes 1, so it is never 0 |
| InvoiceManagement.InvoiceNumberTextDenotes | components/invoice-manager.tsx:326 | the padded number has at least three digits, denotes the number, and is the plain decimal text from 100 up |
| InvoiceManagement.TruncateTitle | components/invoice-manager.tsx:374 | titles up to 30 characters are unchanged; longer ones keep their first 30 characters followed by "..." |
| InvoiceManagement.RowYOnPage | components/invoice-manager.tsx:379-385 | every row position lies between the top margin 30 and the page bottom 250 |
| InvoiceManagement.LinesMeaning | components/invoice-manager.tsx:367-386 | the table has one line per snapshot, in order, and each sits at its row position on the page |
| InvoiceManagement.LayoutRows | components/invoice-manager.tsx:356-386 | the loop draws exactly that table, its running total is the brand total, and the position stays on the page |
| InvoiceManagement.UnderscoreRunsMeaning | components/invoice-manager.tsx:407 | replacing whitespace runs leaves no whitespace and keeps text without whitespace unchanged |
| InvoiceManagement.ReplaceFirstAbsent | components/invoice-manager.tsx:408-410 | a string-pattern replace leaves a text in which the pattern occurs nowhere unchanged |
| InvoiceManagement.ReplaceFirstWhole | components/invoice-manager.tsx:408-410 | a text that is the pattern is replaced whole |
| InvoiceManagement.UnderscoreRunsThreeWords | components/invoice-manager.tsx:407 | three words separated by single spaces are joined by underscores |
| InvoiceManagement.FileStemOfBrand | components/invoice-manager.tsx:406-411 | each brand's file name starts with WAMI_LIVE, LUCK_ON_FOURTH or THE_HIDEOUT |
| InvoiceManagement.AmountTextDenotes | components/invoice-manager.tsx:378 | the amount column is a dollar sign, a minus sign for a negative amount, then whole units, a point and two digits that read back as the amount in cents |
| InvoiceManagement.ExportRecord | components/invoice-manager.tsx:414-422 | the history record has the padded number, the file name, the total of the prices, isPaid false and a copy of the pending list |
| InvoiceManagement.PrepareExport | components/invoice-manager.tsx:356-422 | the export's table and record are the specified ones, and the record total is the one the table loop adds up |
| InvoiceManagement.InvoiceManager.constructor | components/invoice-manager.tsx:61-65 | every brand's counter starts at 1 |
| InvoiceManagement.InvoiceManager.LoadInvoiceData | components/invoice-manager.tsx:76-185 | a failed pending query changes nothing; otherwise pending snapshots are grouped; a failed history query stops there; otherwise history is grouped and, when the counter query succeeds, counters are reloaded |
| InvoiceManagement.InvoiceManager.RemoveFromInvoice | components/invoice-manager.tsx:210-232 | on success the project leaves only that brand's pending list and the brand total drops by the removed prices; on failure nothing changes |
| InvoiceManagement.InvoiceManager.ToggleInvoicePaid | components/invoice-manager.tsx:234-262 | the local flip happens whatever the backend answers, and the flag sent is PaidFlagSent |
| InvoiceManagement.InvoiceManager.ClearInvoiceHistory | components/invoice-manager.tsx:264-293 | an empty history is reported as a `ValidationError` and changes nothing; otherwise only that brand's history empties once the backend agrees |
| InvoiceManagement.InvoiceManager.ExportInvoice | components/invoice-manager.tsx:316-481 | an empty pending list is reported as a `ValidationError` and changes nothing; otherwise the export is done as ExportPending states |
| InvoiceManagement.InvoiceManager.ExportPending | components/invoice-manager.tsx:322-472 | the record is appended to history whatever the insert answers; only a saved record moves the counter to number + 1 and empties pending; the table drawn is Lines of the pending list |
| InvoiceManagement.InvoiceManager.AppendToHistory | components/invoice-manager.tsx:424-429 | the record joins the end of that brand's history only |
| InvoiceManagement.InvoiceManager.CommitExport | components/invoice-manager.tsx:424-465 | history gains the record, the brand counter becomes number + 1 and the brand's pending list empties |

## Left out

- Persistence: every Supabase call is a success flag or an optional row list. The effects of the remote calls themselves are not modelled.
- Reloads: `loadProjects` re-reads and re-sorts the list after a submit or a delete, and the drag handler's `catch` calls it too (app/page.tsx:890-895). It is not modelled. A successful delete is modelled as the same filter applied to the local list. After a submit the list is left as it was.
- Drag writes: each priority update resolves to a result whose `error` the loop never reads (app/page.tsx:885-887). A failed write therefore leaves the local reorder standing. The model's drag handler returns the writes, takes no answer from the backend and keeps the reorder.
- The initial table setup and the project load effect (app/page.tsx:370-472) are not part of this model.
- Drawing: the jsPDF calls (fonts, lines, header texts, pages, saving) are left out. The export yields the table lines, each with its vertical position.
- Inputs: `Date.now()`, `new Date()`, `Math.random()`, object URLs and `date-fns` formatting are parameters (`now`, `newId`, `dateText`) or file fields.
- Floating point: prices are integer cents. `parseFloat` becomes `Option<int>`, with `None` for text that is not a number. `toFixed(2)` is modelled on cents. Rounding of binary fractions is not modelled.
- ProjectDashboard.RoundedPercent: computes `Math.round` on the exact rational, not on the floating-point quotient.
- Text: strings are sequences of characters, not UTF-16 code units. The regular expression `\s` is limited to ASCII whitespace.
- Backend atomicity: the counter RPC's atomic increment is the `data` parameter.
- User feedback: toasts, loading spinners, scrolling, tabs and the mobile menu are reduced to the returned `Outcome`.
- Exceptions: exceptions thrown by a backend call are treated like its failure.
- Outcomes: an early return with an error toast is a `ValidationError`; a silent early return is `NothingToDo`.
- Invoice manager's own dialog: its `clearDialog`, `projectToDelete` and `handleDeleteInvoiceProject` (components/invoice-manager.tsx:67-73, 483-494) are never read by the component.
- Unreachable page paths: the invoice manager declares the callbacks `onClearInvoiceHistory` and `onDeleteProject` (components/invoice-manager.tsx:35-38) but never calls them. Its buttons call its own `removeFromInvoice` and `clearInvoiceHistory` (components/invoice-manager.tsx:556, 589). So `ProjectDashboard.Dashboard.OpenInvoiceHistoryClear`, `ProjectDashboard.Dashboard.HandleDeleteInvoiceProject` and the first two branches of `ProjectDashboard.Dashboard.ConfirmClearCompleted` model page code that no user action reaches. They are kept because the page defines them.
- ProjectDashboard.Dashboard.ConfirmClearCompleted: deletes through the substring lookup as written (`DeleteTargetAsWritten`). The corrected lookup `DeleteTarget` and its property `DeleteTargetIsNamedProject` are stated beside it, not substituted into the handler.
- Brands as text: pending snapshots, remembered deletions and dialog captions carry a brand. The model stores it as one of the three brands.
  - Counter and history keys naming an unknown brand are dropped instead of added to the dictionary.
  - An invoice-mode caption naming no brand leaves the history unchanged.
  - A loaded brand text that names an inherited object property, such as `constructor` or `toString`, is truthy as a dictionary lookup (components/invoice-manager.tsx:116-117, 154-155). The `push` onto it then throws, the `catch` at components/invoice-manager.tsx:184 ends the load and an error toast is shown. For a pending row this happens before any state is set (components/invoice-manager.tsx:121), so no pending lists, history or counters change. For a history row the pending lists have already been set, so only history and counters keep their old values. The model drops such a row like any other unknown brand, so `LoadInvoiceData` reports `Success` with the grouped lists. The app itself only writes the three brand names.
- Project types: a loaded row's type is assumed to be Flyer or Promo Video.
- ProjectDashboard.Dashboard.HandleDragEnd: requires the dragged project to be in the list, because the board only renders listed projects.
- Drag renumbering: priorities are renumbered over the whole list, Completed projects included, which is what the code does. The board itself shows only the projects that are not Completed.
- Threshold: the "Ready to invoice" test is `ReadyToInvoice`, with $200 written as 20000 cents. Only the test is modelled, not the badge it shows.

## Findings

| source | as written | input that shows it | evidently intended | confidence | as-written member | corrected member |
|---|---|---|---|---|---|---|
| app/page.tsx:799 | the project to delete is the first one whose title occurs anywhere in the caption `Delete "<title>"` | projects titled "Flyer" then "Flyer 2"; confirming the dialog opened for "Flyer 2" deletes "Flyer" | delete the project the dialog was opened for: the one whose own caption equals the dialog's | not executed | ProjectDashboard.DeleteTargetAsWrittenPicksEarlierTitle | ProjectDashboard.DeleteTargetIsNamedProject |
