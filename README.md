# Veterinary AI app: wizard and registry logic in Dafny

This project models the logic of four parts of a React veterinary app and proves properties about that logic.

- **The diagnosis wizard** (`DiagnosisPage`). Five ordered steps: animal, symptoms, image, result and treatment.
  - The page has next, previous and start-over handlers, plus a jump from the step indicator.
  - The "next" button is gated on the first two steps. The handler itself does not check the gate.
  - Leaving the image step starts an interval that raises `aiProgress` by ten per firing. A firing that finds 100 stops the interval and clears `isAnalyzing`.
  - The wizard is the class `DiagnosisPage.Wizard`. Each handler is a method. Each firing of an analysis interval is the method `Tick`.
- **The symptom step** (`SymptomSelector`).
  - Toggling a symptom id in the selection.
  - "Clear all".
  - The search-and-category filter over the symptom catalog.
- **The result view** (`DiagnosisResult`).
  - Its loading progress: +5 per firing, held at 95 while loading, and 100 once loading ends. This is the class `DiagnosisResult.LoadingProgress`.
  - The style table of the four urgencies.
  - The three colour bands of the confidence bar.
- **The animal registry page** (`AnimalsPage`).
  - The filter-then-sort pipeline, paging by six, the five-button page window and the previous/next clamps.
  - The handlers that delete, add, edit and clear filters. These are the class `AnimalsPage.Registry`.
  - The page's effect recomputes the shown list and goes back to page 1 whenever the records or a filter setting take a new value.
- **The add/edit form** (`AnimalForm`). The modal's form data starts from the record it is mounted with, or from the add defaults.

Two helper modules carry the JavaScript library semantics the code relies on:

- `Seqs` models `Array.prototype.filter` and a stable `Array.prototype.sort`.
- `Text` models `String.prototype.includes`. In JavaScript every string includes the empty string.

The browser's share is passed in as parameters:

- the answer of `window.confirm`;
- the id from `Date.now()`;
- the date from `toLocaleDateString`;
- the data URL the file reader produced;
- the two sort keys. `checkupTime` stands for `new Date(lastCheckup).getTime()`, with `None` where that time is NaN. `nameOrder` stands for `localeCompare`.

Every `lastCheckup` the app holds is a date written in Persian digits (`۱۴۰۲/۱۰/۱۵`). That covers the mock records and the records it adds with `toLocaleDateString('fa-IR')`. `new Date` cannot parse such a date, so every comparison under "newest" or "oldest" is NaN. The sort treats NaN as 0, a tie, so both orders keep the filtered order (`AnimalsPage.DisplayedUnparsableDates`). `AnimalsPage.DisplayedByCheckup` states the order for dates that do parse.

The analysis cannot be cancelled, and nothing guards against firings of an earlier interval:

- Each departure from the image step starts one more interval, and nothing but the interval itself stops it. `Wizard.runningTimers` counts the intervals still running.
- "Previous" and "start over" leave the intervals running.
- `aiProgress` is reset only by start over. A second analysis without start over stops at its first firing (`DiagnosisPage.RerunWithoutStartOver`).
- The "next" handler advances even when the button's gate is closed. The gate is the predicate `NextDisabled`.

## Model

| member | source | states |
|---|---|---|
| Text.IncludesIffOccurs | src/features/diagnosis/components/SymptomSelector.tsx:25 | `includes` holds exactly when the term occurs at some position of the string |
| Text.EmptyIsIncluded | src/features/diagnosis/components/SymptomSelector.tsx:25 | every string includes the empty search term |
| Text.IncludesSelf | src/features/diagnosis/components/SymptomSelector.tsx:25 | every string includes itself |
| Text.Includes | src/features/diagnosis/components/SymptomSelector.tsx:25 | `s.includes(t)`, tried at each start position; a term longer than the string is never included |
| Seqs.Filter | src/features/diagnosis/components/SymptomSelector.tsx:24-28 | `filter` returns an order-preserving sub-list holding exactly the passing elements |
| Seqs.FilterMultiset | src/features/diagnosis/components/SymptomSelector.tsx:24-28 | each passing element is kept exactly as often as it occurs, and each failing one is dropped |
| Seqs.FilterShortens | src/features/diagnosis/components/SymptomSelector.tsx:24-28 | the filter shortens the list exactly when some element fails |
| Seqs.FilterAppend | src/features/diagnosis/components/SymptomSelector.tsx:32 | filtering a concatenation is the concatenation of the filtered parts |
| Seqs.FilterKeepsAll | src/features/diagnosis/components/SymptomSelector.tsx:24-28 | when every element passes, the filter returns its input |
| Seqs.FilterNoDup | src/features/diagnosis/components/SymptomSelector.tsx:32 | filtering a list without duplicates gives a list without duplicates |
| Seqs.FilterCongruent | src/pages/AnimalsPage.tsx:76-92 | predicates that agree on the elements filter alike |
| Seqs.FilterFuse | src/pages/AnimalsPage.tsx:76-92 | filtering by p and then by q is filtering once by their conjunction |
| Seqs.Insert | src/pages/AnimalsPage.tsx:95-106 | one insertion step of the sort adds exactly the new element |
| Seqs.InsertMembers | src/pages/AnimalsPage.tsx:95-106 | after an insertion the list holds the new element and the old ones, and nothing else |
| Seqs.Sort | src/pages/AnimalsPage.tsx:95-106 | the sort returns a permutation of its input |
| Seqs.InsertSorted | src/pages/AnimalsPage.tsx:95-106 | inserting into a list sorted by a total preorder keeps it sorted |
| Seqs.SortSorted | src/pages/AnimalsPage.tsx:95-106 | under a total preorder, the sort's output is ordered by the comparator |
| Seqs.SortStable | src/pages/AnimalsPage.tsx:103-104 | a comparator that calls every pair equal leaves the order unchanged, because the sort is stable |
| Seqs.InsertPassesOthers | src/pages/AnimalsPage.tsx:95-106 | inserting an element that a predicate rejects leaves the elements it accepts as they were |
| Seqs.InsertBeforeTied | src/pages/AnimalsPage.tsx:95-106 | an element no later than every accepted element is inserted before all of them |
| Seqs.SortKeepsTiedOrder | src/pages/AnimalsPage.tsx:95-106 | stability: when the comparator chains among k and the list's own elements, the elements tied with k come out in their input order |
| Seqs.InsertKeepsNoneBefore | src/pages/AnimalsPage.tsx:95-106 | inserting an element no earlier than y keeps every element no earlier than y |
| Seqs.PrependSorted | src/pages/AnimalsPage.tsx:95-106 | an element no later than all of a sorted list, put in front, keeps it sorted |
| Seqs.InsertCongruent | src/pages/AnimalsPage.tsx:95-106 | insertion depends only on the comparator's values between the new element and the list's elements |
| Seqs.SortCongruent | src/pages/AnimalsPage.tsx:95-106 | the sorted list depends only on the comparator's values on the list's own elements |
| SymptomSelector.RemoveAll | src/features/diagnosis/components/SymptomSelector.tsx:32 | every occurrence of the id is gone, other ids keep their order and multiplicity, and the list shrinks exactly when the id was present |
| SymptomSelector.Toggle | src/features/diagnosis/components/SymptomSelector.tsx:30-36 | afterwards the id is selected exactly when it was not; an absent id is appended at the end; a present one is removed in order; other ids keep their multiplicity |
| SymptomSelector.ToggleTwiceAbsent | src/features/diagnosis/components/SymptomSelector.tsx:30-36 | toggling an absent id twice gives back exactly the original list |
| SymptomSelector.ToggleTwicePresent | src/features/diagnosis/components/SymptomSelector.tsx:30-36 | toggling a selected id twice moves it to the end, and the same ids are selected |
| SymptomSelector.ToggleKeepsNoDup | src/features/diagnosis/components/SymptomSelector.tsx:30-36 | a selection without duplicates stays without duplicates |
| SymptomSelector.Matches | src/features/diagnosis/components/SymptomSelector.tsx:24-28 | the filter's test: the name or the id includes the term, and the category is the selected one or "all" |
| SymptomSelector.FilteredSymptoms | src/features/diagnosis/components/SymptomSelector.tsx:24-28 | an order-preserving sub-list of the catalog holding exactly the entries whose name or id includes the term and whose category is selected or "all" |
| SymptomSelector.NoFilterShowsCatalog | src/features/diagnosis/components/SymptomSelector.tsx:24-28 | an empty term with category "all" shows the whole catalog |
| SymptomSelector.EntryFindsItself | src/features/diagnosis/components/SymptomSelector.tsx:24-28 | searching an entry's name in its category, or its id in "all", keeps that entry |
| DiagnosisPage.StepIndex | src/pages/DiagnosisPage.tsx:38-46 | every step has an index in 0..4 that holds that step |
| DiagnosisPage.StepIndexOfPosition | src/pages/DiagnosisPage.tsx:38-46 | the steps are distinct, so each position is the index of its own step |
| DiagnosisPage.NextStep | src/pages/DiagnosisPage.tsx:49-50 | a following step exists exactly below index 4, and it sits at index + 1 |
| DiagnosisPage.PrevStep | src/pages/DiagnosisPage.tsx:74-75 | a preceding step exists exactly above index 0, and it sits at index - 1 |
| DiagnosisPage.NextPrevInverse | src/pages/DiagnosisPage.tsx:48-78 | forward then back, or back then forward, returns to the same step |
| DiagnosisPage.NextShown | src/pages/DiagnosisPage.tsx:405 | "next" is rendered on every step except the last, treatment |
| DiagnosisPage.PrevShown | src/pages/DiagnosisPage.tsx:393 | "previous" is rendered on every step except the first, animal |
| DiagnosisPage.ButtonsOfferedIffNeighbour | src/pages/DiagnosisPage.tsx:393-405 | "previous" is shown exactly when there is a step before, and "next" exactly when there is a step after |
| DiagnosisPage.NextDisabled | src/pages/DiagnosisPage.tsx:410-413 | the button's `disabled` expression; its cases are proved in `GateOnlyOnFirstTwoSteps` |
| DiagnosisPage.GateOnlyOnFirstTwoSteps | src/pages/DiagnosisPage.tsx:410-413 | "next" is disabled exactly when no animal is chosen on step 1 or no symptom is selected on step 2, and never later |
| DiagnosisPage.IsCompleted | src/pages/DiagnosisPage.tsx:239 | a completed step is never the current one, and no step is completed on the first step |
| DiagnosisPage.CompletedArePrefix | src/pages/DiagnosisPage.tsx:239 | the steps marked completed are exactly those before the current one |
| DiagnosisPage.AnalysisTick | src/pages/DiagnosisPage.tsx:58-64 | a firing stops the interval exactly when progress is at least 100 |
| DiagnosisPage.AnalysisTickKeepsRange | src/pages/DiagnosisPage.tsx:57-65 | from a multiple of ten in [0, 100], a firing stays a multiple of ten in [0, 100], never goes down, and a stopping firing keeps 100 |
| DiagnosisPage.AnalysisReaches100 | src/pages/DiagnosisPage.tsx:57-66 | the interval climbs by exactly ten per firing without stopping, reaches 100, and the firing after that stops it |
| DiagnosisPage.Wizard.constructor | src/pages/DiagnosisPage.tsx:30-36 | the initial hook values: step "animal", nothing selected, no image, not analysing, progress 0 |
| DiagnosisPage.Wizard.NextEnabled | src/pages/DiagnosisPage.tsx:405-413 | "next" can be clicked only before the last step, and only with the gate open |
| DiagnosisPage.Wizard.Next | src/pages/DiagnosisPage.tsx:48-71 | at the last step nothing changes; from the image step it goes to the result step, sets `isAnalyzing` and starts one interval; otherwise it moves one step on; the inputs are untouched |
| DiagnosisPage.Wizard.Tick | src/pages/DiagnosisPage.tsx:57-65 | one firing: below 100 add ten; at 100 stop this interval and clear `isAnalyzing`; progress never goes down |
| DiagnosisPage.Wizard.Prev | src/pages/DiagnosisPage.tsx:73-78 | move one step back, or stay on "animal"; only the step changes |
| DiagnosisPage.Wizard.StartOver | src/pages/DiagnosisPage.tsx:88-95 | every input cleared, not analysing, progress 0, step "animal"; running intervals keep running |
| DiagnosisPage.Wizard.JumpTo | src/pages/DiagnosisPage.tsx:252 | the indicator sets any step, with no gate |
| DiagnosisPage.Wizard.SelectAnimal | src/pages/DiagnosisPage.tsx:339 | the chosen type is stored, and on step 1 the gate is closed exactly when it is empty |
| DiagnosisPage.Wizard.ToggleSymptom | src/pages/DiagnosisPage.tsx:345-346 | the selection becomes the selector's toggle of it; adding an id opens the symptom step's gate |
| DiagnosisPage.Wizard.ClearSymptoms | src/features/diagnosis/components/SymptomSelector.tsx:90 | "clear all" yields the empty selection, which closes the symptom step's gate |
| DiagnosisPage.Wizard.UploadImage | src/pages/DiagnosisPage.tsx:80-86 | the uploaded image becomes the data URL read |
| DiagnosisPage.RerunWithoutStartOver | src/pages/DiagnosisPage.tsx:48-71 | from a fresh wizard the first analysis stops at its eleventh firing; going back to the image step and on again without start over gives an analysis that stops at its first firing |
| DiagnosisResult.UrgencyConfig | src/features/diagnosis/components/DiagnosisResult.tsx:36-41 | `urgencyConfig[urgency]`, the badge colour, label and icon of each urgency |
| DiagnosisResult.UrgencyConfigDistinct | src/features/diagnosis/components/DiagnosisResult.tsx:36-41 | distinct urgencies have distinct colours, labels and icons |
| DiagnosisResult.ConfidenceBand | src/features/diagnosis/components/DiagnosisResult.tsx:128-131 | the bar's colour by confidence; its intervals are proved in `ConfidenceBandIntervals` |
| DiagnosisResult.ConfidenceBandIntervals | src/features/diagnosis/components/DiagnosisResult.tsx:128-131 | green exactly above 80, yellow exactly in (60, 80], orange exactly at or below 60 |
| DiagnosisResult.ConfidenceBandMonotone | src/features/diagnosis/components/DiagnosisResult.tsx:128-131 | a higher confidence never gets a lower band |
| DiagnosisResult.WizardDiagnosisStyle | src/pages/DiagnosisPage.tsx:358-363 | the wizard's fixed result (94, medium) shows a green bar and the yellow badge |
| DiagnosisResult.LoadingTick | src/features/diagnosis/components/DiagnosisResult.tsx:25-28 | one firing of the loading interval: add five, or hold at 95 |
| DiagnosisResult.LoadingTickCases | src/features/diagnosis/components/DiagnosisResult.tsx:25-28 | below 95 a firing adds 5; at 95 or more it yields exactly 95; from a multiple of five up to 95 it never goes down |
| DiagnosisResult.LoadingFromZero | src/features/diagnosis/components/DiagnosisResult.tsx:20-29 | from 0, the n-th firing shows min(5n, 95), so the progress never passes 95 and never decreases |
| DiagnosisResult.LoadingShifted | src/features/diagnosis/components/DiagnosisResult.tsx:24-29 | from a multiple of five up to 95, n firings add 5n, held at 95 |
| DiagnosisResult.LoadingRestartDropsFrom100 | src/features/diagnosis/components/DiagnosisResult.tsx:22-34 | progress is not reset when loading restarts, so a firing at 100 drops it to 95 |
| DiagnosisResult.LoadingProgress.constructor | src/features/diagnosis/components/DiagnosisResult.tsx:20-34 | mounting shows 0 with the interval running when loading, else 100 |
| DiagnosisResult.LoadingProgress.SetLoading | src/features/diagnosis/components/DiagnosisResult.tsx:22-34 | a new prop: loading keeps the progress and runs the interval; not loading sets 100 and clears it |
| DiagnosisResult.LoadingProgress.Tick | src/features/diagnosis/components/DiagnosisResult.tsx:24-29 | one firing of the loading interval; from at most 95 the progress never goes down and stays at most 95 |
| AnimalTypes.Merge | src/pages/AnimalsPage.tsx:155 | `{ ...animal, ...animalData }`: each field the form carries replaces the record's |
| AnimalTypes.MergeIdentities | src/pages/AnimalsPage.tsx:155 | spreading an empty form keeps the record; spreading a whole record gives that record |
| AnimalTypes.MergeKeepsId | src/pages/AnimalsPage.tsx:155 | the spread keeps the record's id unless the form carries one |
| AnimalTypes.NewAnimal | src/pages/AnimalsPage.tsx:143-150 | the added record carries the fresh id, today's date as last check-up, empty history, medications and images, and the form's fields |
| AnimalForm.InitialForm | src/features/animals/components/AnimalModal.tsx:30-45 | a form mounted with a record starts as that record (spreading it back changes nothing); one mounted without starts at the add defaults, which carry every field the add handler needs and no id |
| AnimalForm.PassesRequired | src/features/animals/components/AnimalModal.tsx:192-196 | the browser's `required` check: name, breed, owner's name and owner's phone are filled in, or the submit handler never runs |
| AnimalForm.DefaultsAreRefused | src/features/animals/components/AnimalModal.tsx:30-45 | the add defaults leave the required fields empty, so they cannot be submitted unchanged |
| AnimalForm.FirstEditAsWritten | src/features/animals/components/AnimalModal.tsx:30-71 | the modal was mounted with no record, so the first edit starts from the add defaults; once the required fields are filled in, saving keeps the id, history and last check-up but turns the record into a healthy male dog of age and weight 1 with blank colour, microchip and insurance number, which changes any record that was not already a healthy dog of age 1 |
| AnimalForm.UnchangedEditKeyed | src/features/animals/components/AnimalModal.tsx:30-71 | a form mounted with the record being edited, saved unchanged, leaves the record as it was |
| AnimalsPage.MatchesSearch | src/pages/AnimalsPage.tsx:78-80 | the search test: the name, breed or owner's name includes the term |
| AnimalsPage.PassesFilters | src/pages/AnimalsPage.tsx:76-92 | a record passes each of the three filters, or that filter is off |
| AnimalsPage.SearchStage | src/pages/AnimalsPage.tsx:76-82 | the search filter, applied only for a non-empty term |
| AnimalsPage.TypeStage | src/pages/AnimalsPage.tsx:85-87 | the type filter, applied only when the type is not "all" |
| AnimalsPage.StatusStage | src/pages/AnimalsPage.tsx:90-92 | the status filter, applied only when the status is not "all" |
| AnimalsPage.FilterAnimals | src/pages/AnimalsPage.tsx:72-92 | a record is kept exactly when it matches the search (name, breed or owner; or no term), the type (or "all") and the status (or "all") |
| AnimalsPage.SearchStageIsFilter | src/pages/AnimalsPage.tsx:76-82 | the search step, skipped for an empty term, is one filter that every record passes when the term is empty |
| AnimalsPage.TypeStageIsFilter | src/pages/AnimalsPage.tsx:85-87 | the type step, skipped for "all", is one filter that every record passes under "all" |
| AnimalsPage.StatusStageIsFilter | src/pages/AnimalsPage.tsx:90-92 | the status step, skipped for "all", is one filter that every record passes under "all" |
| AnimalsPage.FilterAnimalsIsOneFilter | src/pages/AnimalsPage.tsx:73-92 | the three successive filters are one filter by their conjunction, so the result is an order-preserving sub-list |
| AnimalsPage.Comparator | src/pages/AnimalsPage.tsx:95-106 | the comparator chosen by `sortBy`: time difference, either way round, name comparison, or 0 |
| AnimalsPage.TimeDifference | src/pages/AnimalsPage.tsx:97-100 | the difference of two check-up times, 0 when either is NaN |
| AnimalsPage.Displayed | src/pages/AnimalsPage.tsx:95-108 | sorting only reorders: the shown list is a permutation of the filtered one |
| AnimalsPage.CheckupOrder | src/pages/AnimalsPage.tsx:97-100 | the check-up comparator with an unparsable date read as time 0 |
| AnimalsPage.CheckupSortedByTime | src/pages/AnimalsPage.tsx:97-100 | on records whose dates all parse, the check-up sort is sorted by time |
| AnimalsPage.TimesInOrder | src/pages/AnimalsPage.tsx:97-100 | a list sorted by check-up time whose dates all parse has its times in order |
| AnimalsPage.DisplayedByCheckup | src/pages/AnimalsPage.tsx:97-100 | when every record's date parses, "newest" lists later check-ups first, and "oldest" earlier ones first |
| AnimalsPage.DisplayedUnparsableDates | src/pages/AnimalsPage.tsx:97-100 | when no record's date parses, "newest" and "oldest" both keep the filtered order |
| AnimalsPage.DisplayedByName | src/pages/AnimalsPage.tsx:101-102 | "name" lists names in the order of the name comparison |
| AnimalsPage.DisplayedKeepsTiedOrder | src/pages/AnimalsPage.tsx:95-106 | when the comparator chains among k and the filtered records, records it ties with k keep their filtered order |
| AnimalsPage.CheckupTransitiveOnParsed | src/pages/AnimalsPage.tsx:97-100 | among records whose dates all parse, the "newest" and "oldest" comparators chain |
| AnimalsPage.DisplayedByCheckupKeepsTies | src/pages/AnimalsPage.tsx:97-100 | when k's and every record's dates parse, records with k's check-up time keep their filtered order under "newest" and "oldest" |
| AnimalsPage.DisplayedUnsorted | src/pages/AnimalsPage.tsx:103-104 | any other sort key keeps the filtered order |
| AnimalsPage.TotalPages | src/pages/AnimalsPage.tsx:113 | the ceiling of n / 6: the fewest pages of six that hold n records |
| AnimalsPage.SliceBound | src/pages/AnimalsPage.tsx:116 | `slice` clips a bound into [0, length] |
| AnimalsPage.Slice | src/pages/AnimalsPage.tsx:116 | `s.slice(start, end)`, never longer than `s` |
| AnimalsPage.PageItems | src/pages/AnimalsPage.tsx:114-116 | `currentAnimals`, the records of one page |
| AnimalsPage.PageItemsSlice | src/pages/AnimalsPage.tsx:114-116 | page p holds records [(p-1)*6, p*6) clipped to the list |
| AnimalsPage.PageItemsRange | src/pages/AnimalsPage.tsx:113-116 | a page holds at most six records, and some exactly when it comes no later than the last page |
| AnimalsPage.PagesUpToIsPrefix | src/pages/AnimalsPage.tsx:113-116 | pages 1..k laid end to end are the first min(6k, n) records |
| AnimalsPage.PagesCoverAll | src/pages/AnimalsPage.tsx:113-116 | all the pages together hold every record once, in order |
| AnimalsPage.PageNumber | src/pages/AnimalsPage.tsx:459-469 | the number on window button i: from 1, from the last five, or centred on the current page |
| AnimalsPage.PageWindow | src/pages/AnimalsPage.tsx:459-469 | the window holds min(5, totalPages) consecutive page numbers, all in [1, totalPages] |
| AnimalsPage.WindowShowsCurrentPage | src/pages/AnimalsPage.tsx:459-469 | the window contains the current page whenever that page exists |
| AnimalsPage.PrevPage | src/pages/AnimalsPage.tsx:451 | the "previous" button never goes below page 1 |
| AnimalsPage.NextPage | src/pages/AnimalsPage.tsx:492 | the "next" button never goes past the last page |
| AnimalsPage.ClampsStayInRange | src/pages/AnimalsPage.tsx:451-493 | a page in [1, totalPages] stays there under either button; away from the ends the buttons undo each other |
| AnimalsPage.RemoveById | src/pages/AnimalsPage.tsx:133 | exactly the records with that id are removed; the others keep their order and multiplicity |
| AnimalsPage.ApplyEdit | src/pages/AnimalsPage.tsx:153-157 | the length is unchanged, and records with another id are unchanged |
| AnimalsPage.ApplyEditProperties | src/pages/AnimalsPage.tsx:153-157 | records with the selected id get the form spread over them; a form without an id keeps all ids; an empty form, or an id nobody has, changes nothing |
| AnimalsPage.Registry.constructor | src/pages/AnimalsPage.tsx:40-54 | the initial state after the effect's first run: default filters, page 1, modal closed in add mode |
| AnimalsPage.Registry.Shown | src/pages/AnimalsPage.tsx:116 | the records on the current page; `ShownIsAPage` bounds it |
| AnimalsPage.Registry.ShownIsAPage | src/pages/AnimalsPage.tsx:113-116 | the current page shows at most six records, and some whenever any record passes |
| AnimalsPage.Registry.RunFilterEffect | src/pages/AnimalsPage.tsx:72-110 | the effect stores the pipeline's output and goes back to page 1 |
| AnimalsPage.Registry.SetFilters | src/pages/AnimalsPage.tsx:72-110 | new filter settings, then the effect: the list is recomputed and the page is 1 |
| AnimalsPage.Registry.SetAnimals | src/pages/AnimalsPage.tsx:72-110 | `setAnimals` with a new array: the effect re-runs, the list is recomputed and the page is 1 |
| AnimalsPage.Registry.SetSearchTerm | src/pages/AnimalsPage.tsx:252 | a new search term recomputes the list and returns to page 1; the same term changes nothing |
| AnimalsPage.Registry.SetSelectedType | src/pages/AnimalsPage.tsx:264 | a new type recomputes the list and returns to page 1; the same type changes nothing |
| AnimalsPage.Registry.SetSelectedStatus | src/pages/AnimalsPage.tsx:280 | a new status recomputes the list and returns to page 1; the same status changes nothing |
| AnimalsPage.Registry.SetSortBy | src/pages/AnimalsPage.tsx:295 | a new sort key re-sorts and returns to page 1; the same key changes nothing |
| AnimalsPage.Registry.ClearFilters | src/pages/AnimalsPage.tsx:161-166 | the settings become "", "all", "all" and "newest"; page 1 if any of them changed |
| AnimalsPage.Registry.DeleteAnimal | src/pages/AnimalsPage.tsx:131-135 | a confirmed delete removes exactly the records with that id and returns to page 1; a declined one changes nothing |
| AnimalsPage.Registry.OpenAdd | src/pages/AnimalsPage.tsx:119-123 | the form opens empty, in add mode |
| AnimalsPage.Registry.OpenEdit | src/pages/AnimalsPage.tsx:125-129 | the form opens on the record, in edit mode |
| AnimalsPage.Registry.CloseModal | src/pages/AnimalsPage.tsx:537 | the form closes |
| AnimalsPage.Registry.SaveAnimal | src/pages/AnimalsPage.tsx:141-159 | add appends one new record; edit spreads the form over the records with the selected id; edit with no selection changes nothing |
| AnimalsPage.Registry.GoToPage | src/pages/AnimalsPage.tsx:474 | a window button sets that page, which is a real page |
| AnimalsPage.Registry.StepPageBack | src/pages/AnimalsPage.tsx:451 | the page becomes max(p - 1, 1) and stays in range |
| AnimalsPage.Registry.StepPageForward | src/pages/AnimalsPage.tsx:492 | the page becomes min(p + 1, totalPages) and stays in range |

## Left out

- Timers: `setInterval`, `clearInterval` and their delays are not modelled. A firing is an explicit `Tick` call that the caller issues while an interval is running. Wall-clock time and the interleaving of overlapping intervals are not modelled.
- `DiagnosisPage.Wizard.Tick` models one firing of one running interval. When several intervals run at once (see `runningTimers`), each of their firings is one `Tick`.
- Mounting and unmounting of the result view is not modelled. The page mounts `DiagnosisResult` only on the result step, so leaving that step discards its progress. `LoadingProgress` models one mounted instance.
- Rendering, animation, styling, the particle effect, the progress-bar widths, the charts, the statistics cards and the fake assistant chat panel are left out. They are presentation only.
- The file reader, `window.confirm`, `alert`, `Date.now()` and `toLocaleDateString` are browser calls. The model takes their results as method parameters.
- Date parsing and `localeCompare` are foreign library code. They are the parameters `checkupTime` and `nameOrder`. `checkupTime` gives `None` for a date that does not parse.
- AnimalsPage.DisplayedByCheckup: states the order only for records whose dates all parse. The app holds no such record; for the dates it does hold, `AnimalsPage.DisplayedUnparsableDates` gives the order.
- `Seqs.Sort` is a stable insertion sort. It keeps tied elements in their input order, and under a total preorder its output is sorted. When some dates parse and others do not, the check-up comparator is not consistent: NaN ties an unparsable date with every date, while parsable dates are ordered. The browser's order for such a list is implementation-defined, and the model's order is not claimed to match it.
- `AnimalsPage.DisplayedByName`: proved only when `nameOrder` is a total preorder. `localeCompare` is assumed to be one.
- `AnimalsPage.Registry.SaveAnimal` takes the submitted form data as a parameter. The modal's form state is modelled on its own in `AnimalForm`.
- `AnimalForm.PassesRequired` checks only the four required text inputs. The required number and select inputs always hold a value, so their checks never block a submit and are not modelled.
- `AnimalsPage.Registry.SaveAnimal`: in add mode the model requires the form to carry every required field. The source casts the form data with `as Animal`, and its add form fills all those fields. A form missing fields would put `undefined` into the record, which the model cannot represent.
- `AnimalTypes.Animal`: `age` and `weight` are reals. JavaScript's floating-point rounding, and `parseFloat` in the form, are not modelled.
- The mock catalogs (`animalsData`, `symptomsData`) are inputs, not constants of the model.
- The type and status filters compare the record's stored string with the selected option. Records of other shapes are not modelled, because the record type allows only the listed values.

## Findings

| source | as written | input that shows it | evidently intended | confidence | as-written member | corrected member |
|---|---|---|---|---|---|---|
| src/features/animals/components/AnimalModal.tsx:30-45 | the form data is set once, from the `animal` prop or else the add defaults, when the modal mounts. The page renders the modal always, with no `key`, and first with no record selected (src/pages/AnimalsPage.tsx:51, 535-541) | in a freshly loaded page, open "edit" on a cat, fill in the four required fields and save: the record becomes a healthy male dog of age and weight 1 with blank colour, microchip and insurance number. Likewise an edit after an add starts from the values typed for the add | the edit form starts from the record being edited, so saving unchanged keeps it | medium, not executed | AnimalForm.FirstEditAsWritten | AnimalForm.UnchangedEditKeyed |
