# Document-intelligence UI mockup: verified model of its state logic

The repository is a React front end for a document-analysis product: seven
screens rendered from hard-coded data. What logic it has is small and
sequential, and this project models its state logic in Dafny:

- `navigation.dfy` (module `Navigation`, from `src/App.tsx`): the root
  switcher's two state cells, `currentScreen` and `selectedDocumentId`, the
  `handleNavigate` and `handleLogin` callbacks that change them (class
  `App`), and the `renderScreen` dispatch from a screen name to a view.
  Because `handleNavigate` casts any string to `Screen`, the current screen
  is a `string` in the model. The fallback to the login view is therefore
  reachable in the model, where the parameter may be any string; no caller
  in the program passes a name outside the seven.
- `search.dfy` (module `Search`, from `src/components/SearchScreen.tsx`):
  the `SearchFilter` record, the updater `handleFilterChange` gives to
  `setFilters` (append on check, filter out on uncheck, replace the date
  range), `clearFilters` (class `SearchScreen`), and `activeFiltersCount`.
- `processing.dfy` (module `Processing`, from
  `src/components/ProcessingScreen.tsx`): one timer tick over
  `overallProgress`, `isCompleted` and `processedCount` (class
  `ProcessingScreen`, whose ghost tick counter ties the fields to the
  progress after that many ticks), the step classification
  `getStepStatus`, the clamped step bar and the cap on the processed count.
- `upload.dfy` (module `Upload`, from `src/components/UploadScreen.tsx`):
  the document list and drag flag (class `UploadScreen`) with the drop and
  drag handlers, `hasCompletedDocuments`, `getStatusText`, the per-entry
  progress bar and the "Processar Documentos" action.
- `dashboard.dfy` (module `Dashboard`, from
  `src/components/DashboardScreen.tsx`): the `stats` counts obtained with
  `filter(...).length`, the fixture list, and the priority and risk labels.
- `wrappers.dfy`: the `Option` type that stands for an optional argument or
  an absent value.

Exactness of the step classification: `getStepStatus` computes
`(p - 20i) / 20 * 100` in floating point. For integer `p` and `i` this has
the sign of `p - 20i` and reaches 100 exactly when `p - 20i >= 20`, so the
model uses the exact integer `5 * (p - 20i)`.

The selector has seven screens (`src/App.tsx:10`). The processing interval
is never cleared when the progress reaches 100: every later tick keeps the
progress at 100 and sets `isCompleted` again
(`src/components/ProcessingScreen.tsx:47-64`).

## Model

| member | source | states |
|---|---|---|
| Navigation.ScreenName | src/App.tsx:10 | each screen has its own literal, and each of the seven literals names exactly one screen |
| Navigation.ParseScreen | src/App.tsx:10 | a recognised name is exactly the literal of the screen it denotes |
| Navigation.ParseScreenName | src/App.tsx:10 | every screen literal is recognised as its own screen |
| Navigation.RenderScreen | src/App.tsx:25-43 | each of the seven names renders a view of its own screen; any other name renders the login view; a document view carries exactly the selected id |
| Navigation.RenderScreenInjective | src/App.tsx:26-40 | two different screens never render the same view |
| Navigation.App.constructor | src/App.tsx:13-14 | the app starts on the login screen with no selected document, showing the login view |
| Navigation.App.HandleNavigate | src/App.tsx:16-19 | the screen becomes the given name and the selection the given id; no id clears it; a document view then shows that id |
| Navigation.App.HandleLogin | src/App.tsx:21-23 | the screen becomes `upload` (upload view) and the selection is unchanged |
| Navigation.App.CurrentView | src/App.tsx:25-43 | an unknown screen name shows the login view; on the document screen the view receives the current selected id |
| Search.RemoveAll | src/components/SearchScreen.tsx:149-150 | the result holds no occurrence of the value, every other element with its multiplicity, and is shorter by the value's occurrences |
| Search.RemoveAllAppend | src/components/SearchScreen.tsx:149-150 | filtering preserves order: filtering a concatenation is the concatenation of the filtered parts |
| Search.RemoveAllAbsent | src/components/SearchScreen.tsx:149-150 | filtering out a value that is absent returns the list unchanged |
| Search.Toggled | src/components/SearchScreen.tsx:145-151 | checking appends the value at the end, keeping the old list as prefix; unchecking leaves no occurrence and keeps every other element |
| Search.FilterChange | src/components/SearchScreen.tsx:141-158 | a list key gets its toggled list and keeps the date range; the date range key takes the new value; every other list field is unchanged |
| Search.CheckThenUncheck | src/components/SearchScreen.tsx:145-151 | checking a value not present and then unchecking it restores the original filters |
| Search.UncheckAbsorbsCheck | src/components/SearchScreen.tsx:145-151 | check followed by uncheck equals uncheck alone, also for a value already present |
| Search.ActiveFiltersCount | src/components/SearchScreen.tsx:170-175 | the count is zero exactly when the filters are the initial ones |
| Search.ShowsActiveFilters | src/components/SearchScreen.tsx:217-239 | the count badge is shown, and while the filter panel is open the "Limpar" button is shown, exactly when the filters differ from the initial ones |
| Search.CheckIncrementsCount | src/components/SearchScreen.tsx:145-175 | checking a value raises the count by exactly one |
| Search.UncheckDecrementsCount | src/components/SearchScreen.tsx:149-175 | unchecking lowers the count by the number of occurrences of the value |
| Search.DateRangeCount | src/components/SearchScreen.tsx:152-175 | setting the date range changes the count only by whether the old and new ranges are `all` |
| Search.SearchScreen.constructor | src/components/SearchScreen.tsx:54-60 | the filters start empty with date range `all`, count 0 |
| Search.SearchScreen.HandleFilterChange | src/components/SearchScreen.tsx:141-158 | the new filters are the updater applied to the old ones |
| Search.SearchScreen.ClearFilters | src/components/SearchScreen.tsx:160-168 | the filters become the initial ones whatever they were (so clearing is idempotent), count 0, nothing shown |
| Processing.NextProgress | src/components/ProcessingScreen.tsx:49-55 | below 100 a tick adds 2, at or above 100 it gives 100; 100 is the only fixed point; an even progress in [0,100] stays even, in range and does not decrease |
| Processing.NextCompleted | src/components/ProcessingScreen.tsx:50-53 | once completed stays completed; a tick that finds progress at or above 100 sets it, and only such a tick does |
| Processing.CappedCount | src/components/ProcessingScreen.tsx:57-60 | the processed count is the smaller of the uncapped count and 3 |
| Processing.ProgressAfterClosedForm | src/components/ProcessingScreen.tsx:27-55 | after n ticks from 0 the progress is 2n up to tick 50 and 100 afterwards, always even and in [0,100] |
| Processing.ProgressMonotone | src/components/ProcessingScreen.tsx:49-55 | the progress never decreases over ticks |
| Processing.CompletedAfterExactly | src/components/ProcessingScreen.tsx:30-55 | the completion flag is set exactly from tick 51 on, one tick after the progress reaches 100 |
| Processing.GetStepStatus | src/components/ProcessingScreen.tsx:66-72 | step i is pending iff p <= 20i, completed iff p >= 20i+20, processing otherwise |
| Processing.StepBar | src/components/ProcessingScreen.tsx:160 | the step bar is within [0,100]: 0 when pending, 100 when completed, 5(p-20i) strictly inside when processing |
| Processing.StepsInOrder | src/components/ProcessingScreen.tsx:66-72 | a step that has started has every earlier step completed; an unfinished step has every later step pending; at most one step is processing |
| Processing.StepStatusMonotone | src/components/ProcessingScreen.tsx:66-72 | as progress grows a completed step stays completed and a started step never returns to pending |
| Processing.StepsAtEnds | src/components/ProcessingScreen.tsx:66-72 | all five steps are pending at 0 and completed at 100 |
| Processing.ProcessingScreen.constructor | src/components/ProcessingScreen.tsx:27-30 | progress 0, processed 0, not completed |
| Processing.ProcessingScreen.Tick | src/components/ProcessingScreen.tsx:47-64 | one tick applies the progress, completion and capped-count updaters; the progress stays even in [0,100] and does not decrease; completion implies progress 100 |
| Processing.ProcessingScreen.Remaining | src/components/ProcessingScreen.tsx:133 | the remaining figure is a natural number that adds up with the processed count to 3 |
| Upload.NewDocument | src/components/UploadScreen.tsx:43-49 | the dropped entry has the given id, status uploading and progress 0 |
| Upload.HasCompletedDocuments | src/components/UploadScreen.tsx:75 | true exactly when some entry has status completed |
| Upload.DropKeepsCompletion | src/components/UploadScreen.tsx:50-75 | prepending a dropped entry leaves `hasCompletedDocuments` unchanged |
| Upload.StatusText | src/components/UploadScreen.tsx:64-73 | completed reads "Concluído", uploading "Enviando", error "Erro", and each text belongs to that status only |
| Upload.StatusTextInjective | src/components/UploadScreen.tsx:64-73 | the three statuses have three different texts |
| Upload.ProgressBar | src/components/UploadScreen.tsx:171-173 | an entry shows a bar, with its own progress, exactly when it is uploading |
| Upload.ProcessAction | src/components/UploadScreen.tsx:180-189 | the process action, leading to `processing`, is offered exactly when some entry is completed |
| Upload.UploadScreen.constructor | src/components/UploadScreen.tsx:21-27 | the list starts with the three fixture entries (one completed), drag flag off |
| Upload.UploadScreen.HandleDragOver | src/components/UploadScreen.tsx:29-32 | the drag flag is on, the list unchanged |
| Upload.UploadScreen.HandleDragLeave | src/components/UploadScreen.tsx:34-37 | the drag flag is off, the list unchanged |
| Upload.UploadScreen.HandleDrop | src/components/UploadScreen.tsx:39-51 | the flag is off; the list is one longer with the new entry at its head and the old list as its tail; completion status unchanged |
| Dashboard.Filter | src/components/DashboardScreen.tsx:80-82 | the filtered list is no longer than the input, holds exactly the input's elements that pass, each as many times as in the input |
| Dashboard.FilterComplement | src/components/DashboardScreen.tsx:80-82 | filtering by a test and by its negation gives lengths that add up to the list length |
| Dashboard.FilterDisjoint | src/components/DashboardScreen.tsx:28-82 | filtering by a disjoint union of two tests counts as the sum of filtering by each |
| Dashboard.ComputeStats | src/components/DashboardScreen.tsx:78-83 | total is the list length; pending plus processed is the total; every count is at most the total |
| Dashboard.ProcessedIsReviewedPlusCompleted | src/components/DashboardScreen.tsx:28-82 | processed equals the number of reviewed plus completed documents |
| Dashboard.FixtureStats | src/components/DashboardScreen.tsx:35-83 | the fixture's cards read total 4, pending 1, critical 1, processed 3 |
| Dashboard.PriorityLabel | src/components/DashboardScreen.tsx:246-247 | high reads "Alta", medium "Média", low "Baixa", each text for that priority only |
| Dashboard.RiskLabel | src/components/DashboardScreen.tsx:257-259 | critical reads "Crítico", high "Alto", medium "Médio", low "Baixo", each text for that level only |
| Dashboard.LabelsInjective | src/components/DashboardScreen.tsx:246-259 | different priorities and different risk levels get different labels |

## Left out

- Processing.ProcessingScreen.Tick: `newCount` is a parameter; the formula `Math.floor(overallProgress / 33.33)` is floating point and reads the progress captured when the interval was armed, so only its cap to 3 is modelled.
- Timer scheduling (`setInterval`, `clearInterval`, `useEffect` re-arming on every progress change): one tick is one call of `Tick`.
- `getDocumentStatus` and the per-document bar of the processing screen: floating-point division by 33.33.
- The `currentStep` state cell of the processing screen: it is never updated.
- Search results, the search query, the `showFilters` toggle and the sort selector: the results are a fixed list, never filtered, ranked or sorted.
- Search.FilterChange: `value` is typed `any` in the source; the model takes a string, which is what every caller passes. An omitted `checked` is `undefined`, which is falsy, and is modelled as `false`.
- Login and insights screens: static arrays and markup only; the login form does no validation.
- The document screen: besides static arrays and markup, its only logic is the fallback `documentId || '1'` (`src/components/DocumentScreen.tsx:51`), which is not part of this model; the model stops at the id handed to the document view.
- Document ids from `Date.now()` are a parameter of `HandleDrop`; date formatting with `toLocaleDateString` is not modelled.
- Icons, colours, badge variants and the `./ui` components are not part of this model.
- Figures written as literals in the markup (such as "75% do total") are not computations and are not modelled.
