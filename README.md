# Generative medical tutor — a Dafny model of its core

The generative medical tutor trains medical students on simulated patients.
Clinical cases are imported from the Fultang hospital system. A language
model structures them, experts review them, and only approved cases are
offered to learners. A learner starts a simulation session on a case and
chats with a patient played by the language model. Approved cases can be
exported as a dataset.

This project models the core of that system and proves properties of the
model:

- **Frontend.**
  - The route guard (`frontend/middleware.ts`) redirects anonymous visitors away from the dashboard.
  - The token cookie handling and the request/response interceptors are in `frontend/lib/ApiService.js`.
  - The dashboard sidebar (`frontend/app/dashboard/layout.tsx`) covers active-entry highlighting, the badge, and the open/collapsed state.
- **Cases.**
  - The case tables and their constraints are in `backend/cases/models.py`.
  - The structured-case schemas are in `backend/cases/schema/case_schemas.py`.
  - The transactional importer (`backend/cases/services/case_importer.py`) normalises category names case-insensitively.
  - The `import_cases` and `export_dataset` management commands (CSV, JSON and JSON Lines).
- **Simulation.**
  - The session and message tables are in `backend/simulation/models.py`.
  - The approved-case validator is in `backend/simulation/serializers.py`.
  - The patient agent's conversation history and prompt variables are in `backend/simulation/agent/simulator.py`.
  - The session endpoints (start, post a message, list, retrieve) are in `backend/simulation/views.py`.

Pure code is modelled as functions and lemmas. Code that changes state is modelled as classes:

- `ApiService.ApiClient`, over a cookie jar;
- `DashboardNav.SidebarState`;
- `CaseImporter.CaseDatabase`;
- `SimViews.SimulationStore`.

Each method of these classes is either proved equal to a specification function, whose guarantees the lemmas state, or given its new state field by field (the `SidebarState` methods).

Database tables are sequences in insertion order, together with the next primary key. A transaction is staged on a copy of the tables and committed only if every step succeeds. Timestamps are readings of a logical clock that advances with every row created. The language model, the network and the clock are function or value parameters.

Modules (one file each):

- helpers: `Wrappers`, `Strings`, `Json`;
- frontend: `RouteGuard`, `ApiService`, `DashboardNav`;
- cases: `CaseModels`, `CaseSchemas`, `CaseImporter`, `ImportCases`, `ExportDataset`;
- simulation: `SimModels`, `SimSerializers`, `SimAgent`, `SimViews`.

The source files do not agree on the case's categories. `case_importer.py` imports `Category` and writes a case's `categories` and `raw_llm_suggestions`. `cases/admin.py` uses `categories` only (in `list_filter`, `filter_horizontal` and `display_categories`). `backend/cases/models.py` declares none of the three. The model follows the importer: a category table, a set of category ids on the case, and an optional list of suggested names.

A case's stored status is one of `non_approuve`, `approuve` and `rejete`. The export command selects `approuve` when no status is given.

## Model

| member | source | states |
|---|---|---|
| RouteGuard.AnyPrefix | frontend/middleware.ts:12 | true exactly when some listed route is a prefix of the path |
| RouteGuard.Middleware | frontend/middleware.ts:8-28 | computes the middleware's decision (no contract of its own; `RedirectIff` and `RedirectTarget` state what it decides) |
| RouteGuard.RedirectIff | frontend/middleware.ts:8-28 | a request is redirected iff its path starts with `/dashboard` and it carries no non-empty `auth-token` cookie |
| RouteGuard.RedirectTarget | frontend/middleware.ts:15-19 | the redirect goes to `/login` on the request's origin with `redirect=<original path>` as the only query parameter |
| RouteGuard.EmptyTokenIsAbsent | frontend/middleware.ts:10 | an empty `auth-token` cookie gives the same decision as no cookie |
| RouteGuard.ProtectedWithTokenPasses | frontend/middleware.ts:12-19 | a protected path with a non-empty token is let through |
| RouteGuard.UnprotectedPasses | frontend/middleware.ts:4-6 | a path outside `/dashboard` is let through whatever the cookies |
| RouteGuard.AuthRoutesPass | frontend/middleware.ts:21-25 | login/register pages are let through even with a token (the branch that would redirect to the dashboard is disabled) |
| RouteGuard.PrefixMatchIsPlain | frontend/middleware.ts:12 | matching is a plain prefix test: `/dashboardX` is protected too |
| ApiService.StoreThenRead | frontend/lib/ApiService.js:55-84 | storing a non-empty token and reading it back gives that token |
| ApiService.FalsyStoreIsNoOp | frontend/lib/ApiService.js:55-66 | storing `null`, `undefined` or "" leaves the jar unchanged |
| ApiService.StoredCookieAttributes | frontend/lib/ApiService.js:58-62 | the stored cookie lasts 7 days, is SameSite=Strict, and is Secure exactly in production |
| ApiService.StoreSupersedes | frontend/lib/ApiService.js:55-84 | a later token replaces an earlier one |
| ApiService.ClearThenRead | frontend/lib/ApiService.js:76-96 | after clearing, no token can be read |
| ApiService.ClearIdempotent | frontend/lib/ApiService.js:89-96 | clearing twice equals clearing once |
| ApiService.OtherCookiesUntouched | frontend/lib/ApiService.js:55-96 | storing and clearing change no other cookie |
| ApiService.BearerRoundTrip | frontend/lib/ApiService.js:20-29 | the `Authorization` value is `Bearer <token>`, and parsing it gives the token back (both directions) |
| ApiService.ApiClient.constructor | frontend/lib/ApiService.js:11-17 | a new client has the given cookie jar and has made no navigation |
| ApiService.RequestConfig.constructor | frontend/lib/ApiService.js:13-15 | a request configuration carries the given headers |
| ApiService.ApiClient.StoreToken | frontend/lib/ApiService.js:55-70 | a truthy token is written with its attributes; any other value changes nothing |
| ApiService.ApiClient.GetToken | frontend/lib/ApiService.js:76-84 | returns the token, or none when absent or empty; the jar is unchanged |
| ApiService.ApiClient.ClearToken | frontend/lib/ApiService.js:89-96 | removes only the token cookie |
| ApiService.ApiClient.AuthorizeRequest | frontend/lib/ApiService.js:20-29 | with a token, sets `Authorization: Bearer <token>` on the same config object; without one, leaves the config as it is |
| ApiService.ApiClient.SettleResponse | frontend/lib/ApiService.js:32-44 | a 401 clears the token and, in a browser, navigates to `/login` once; any other outcome changes nothing; the outcome is passed on unchanged either way |
| ApiService.SessionGatesDashboard | frontend/lib/ApiService.js:55-96 | the route guard lets the dashboard through after a token is stored and redirects again after the token is cleared |
| DashboardNav.NoPathnameNothingActive | frontend/app/dashboard/layout.tsx:62-66 | without a pathname no entry is active |
| DashboardNav.DashboardExactOnly | frontend/app/dashboard/layout.tsx:62-66 | the dashboard home is active only on `/dashboard` exactly |
| DashboardNav.IsActive | frontend/app/dashboard/layout.tsx:62-66 | computes `isActive(href)` for the current pathname (no contract of its own; the three lemmas around it state its meaning) |
| DashboardNav.OtherEntriesByPrefix | frontend/app/dashboard/layout.tsx:62-66 | any other entry is active iff the path starts with its target |
| DashboardNav.NavHrefsPrefixFree | frontend/app/dashboard/layout.tsx:69-96 | no navigation target other than home is a prefix of another |
| DashboardNav.NavHrefsMatchNavigation | frontend/app/dashboard/layout.tsx:69-96 | the targets are exactly those of the navigation table, in order |
| DashboardNav.AtMostOneActive | frontend/app/dashboard/layout.tsx:62-96 | on any page at most one sidebar entry is highlighted |
| DashboardNav.BadgeLabelMeaning | frontend/app/dashboard/layout.tsx:191-198 | a shown badge reads "99+" above 99 and otherwise its own number, which parses back |
| DashboardNav.BadgeLabel | frontend/app/dashboard/layout.tsx:197 | computes the badge caption (no contract of its own; `BadgeLabelMeaning` states it) |
| DashboardNav.BadgeZeroShowsStrayZero | frontend/app/dashboard/layout.tsx:191-198 | as written, a badge of 0 renders the text "0" |
| DashboardNav.BadgeIntended | frontend/app/dashboard/layout.tsx:191-198 | the intended rule: a badge only for a defined positive count |
| DashboardNav.BadgeRulesAgreeExceptZero | frontend/app/dashboard/layout.tsx:191-198 | the written and intended rules agree on every input except 0 |
| DashboardNav.SidebarState.constructor | frontend/app/dashboard/layout.tsx:46-48 | the sidebar starts closed and expanded, with authentication still loading |
| DashboardNav.SidebarState.ToggleCollapsed | frontend/app/dashboard/layout.tsx:138 | flips the collapsed flag and nothing else |
| DashboardNav.SidebarState.OpenSidebar | frontend/app/dashboard/layout.tsx:116 | opens the mobile sidebar and nothing else |
| DashboardNav.SidebarState.CloseSidebar | frontend/app/dashboard/layout.tsx:284-315 | closes the mobile sidebar and nothing else |
| CaseModels.ParseHistoryType | backend/cases/models.py:77-82 | a parsed history type has the given stored value |
| CaseModels.ParseStatus | backend/cases/models.py:16-19 | a parsed status has the given stored value |
| CaseModels.StatusRoundTrip | backend/cases/models.py:16-19 | status values and statuses correspond one to one; no other value is a status |
| CaseModels.HistoryTypeDisplayMeaning | backend/cases/models.py:77-90 | each history type has a distinct value and label; a value outside the choices is displayed as it is |
| CaseModels.DiagnosisMarksFinal | backend/cases/models.py:135-137 | a final diagnosis is shown with the `[Final] ` mark and a non-final one starts with its description; both end with the case number |
| CaseModels.TextColumn | backend/cases/models.py:31-47 | an absent keyword stores ""; `null` violates NOT NULL |
| CaseModels.PositiveValue | backend/cases/models.py:39 | `None` and negative values are refused; others are stored |
| CaseModels.BoolColumn | backend/cases/models.py:133 | an absent keyword stores the default; `null` is refused |
| CaseModels.FilterDistinct | backend/cases/models.py:22 | filtering the case table keeps its unique keys unique |
| CaseModels.EmptyTablesValid | backend/cases/models.py:9-137 | the empty database satisfies every constraint |
| CaseModels.InsertCase | backend/cases/models.py:22 | a taken source id fails the unique constraint; otherwise the case gets the next key |
| CaseModels.InsertCaseValid | backend/cases/models.py:22-24 | inserting a case whose categories exist keeps the database valid |
| CaseModels.CascadeDelete | backend/cases/models.py:60-131 | deleting a case removes exactly its rows in all six child tables and keeps the database valid |
| CaseModels.DeleteCase | backend/cases/models.py:60-131 | computes a case deletion with its six cascades (no contract of its own; `CascadeDelete` states it) |
| CaseModels.VisibleIffApproved | backend/cases/views.py:15 | a case is listed iff it is stored and approved |
| CaseSchemas.ValidateAll | backend/cases/schema/case_schemas.py:64-69 | a list validates iff every item does, giving one validated item per input item in order |
| CaseSchemas.ValidateDumpAll | backend/cases/schema/case_schemas.py:61-69 | validating a dumped list gives the list back |
| CaseSchemas.ClinicalRoundTrip | backend/cases/schema/case_schemas.py:61-69 | clinical data survives a dump and a validation |
| CaseSchemas.ClinicalListsRoundTrip | backend/cases/schema/case_schemas.py:61-69 | each of the six lists of clinical data survives a dump and a validation |
| CaseSchemas.FullCaseRoundTrip | backend/cases/schema/case_schemas.py:73-76 | a full case survives a dump and a validation |
| CaseSchemas.SymptomRequiresOnlyName | backend/cases/schema/case_schemas.py:7-15 | a symptom needs only `nom`; other fields default to `None` |
| CaseSchemas.DiagnosisRequiresBoth | backend/cases/schema/case_schemas.py:34-36 | a diagnosis needs both `description` and `is_final` |
| CaseSchemas.PatientInfoRequirements | backend/cases/schema/case_schemas.py:52-56 | patient info needs age and sex; civil status and profession are optional |
| CaseSchemas.ClinicalRequiresAllParts | backend/cases/schema/case_schemas.py:61-69 | clinical data fails when any of its eight parts is missing |
| CaseSchemas.FullCaseRequiresAllParts | backend/cases/schema/case_schemas.py:73-76 | a full case fails without its pedagogical, simulation or clinical part |
| Json.Get | backend/cases/services/case_importer.py:23-27 | `dict.get(key, default)`: the default when absent, `None` for `null`, otherwise the value |
| Json.EscapeRoundTrip | backend/cases/management/commands/export_dataset.py:98 | decoding the escaped body of a string gives the string back |
| Json.SerializeNoNewline | backend/cases/management/commands/export_dataset.py:147-149 | a compact serialisation never contains a line break |
| Strings.JoinLength | backend/cases/management/commands/export_dataset.py:88 | a join is as long as its parts plus one separator per neighbour pair |
| Strings.JoinEmptyIff | backend/cases/management/commands/export_dataset.py:88 | with a non-empty separator, a join is empty iff there is no part or one empty part |
| Strings.Strip | backend/cases/services/case_importer.py:34 | the text between leading and trailing whitespace; it neither starts nor ends with whitespace |
| Strings.StripEmptyIff | backend/cases/services/case_importer.py:34-36 | stripping is empty iff the text is all whitespace |
| Strings.StripIdempotent | backend/simulation/agent/simulator.py:102 | stripping twice equals stripping once |
| Strings.DecimalRoundTrip | backend/cases/management/commands/export_dataset.py:101-105 | the decimal rendering of a number parses back to it |
| Strings.DecimalInjective | backend/cases/management/commands/export_dataset.py:101-105 | distinct numbers render differently |
| CaseImporter.FindIgnoreCase | backend/cases/services/case_importer.py:38-41 | the first category whose name equals the given one up to case, or none when there is none |
| CaseImporter.CategoryStepMeaning | backend/cases/services/case_importer.py:33-45 | a blank name changes nothing; otherwise one id is chosen naming a category equal to the stripped name up to case, and a category is created and reported exactly when none matched |
| CaseImporter.CategoryStep | backend/cases/services/case_importer.py:33-45 | computes one iteration of the category loop (no contract of its own; `CategoryStepMeaning` and `CategoryStepValid` state it) |
| CaseImporter.AssignCategories | backend/cases/services/case_importer.py:33-45 | computes the whole category loop (no contract of its own; `AssignCategoriesValid`, `AssignCategoriesExtends` and `AssignCategoriesChooses` state it) |
| CaseImporter.CategoryStepValid | backend/cases/services/case_importer.py:33-45 | one name keeps the category table valid (distinct names up to case) and the chosen ids existing |
| CaseImporter.AssignCategoriesValid | backend/cases/services/case_importer.py:33-45 | the whole loop keeps the table valid and the chosen ids existing |
| CaseImporter.AssignCategoriesExtends | backend/cases/services/case_importer.py:33-45 | existing categories are kept; new ones follow, one per reported name, in order, with consecutive ids |
| CaseImporter.AssignCategoriesChooses | backend/cases/services/case_importer.py:33-45 | one category is chosen per non-blank name |
| CaseImporter.RepeatedNameReusesCategory | backend/cases/services/case_importer.py:33-45 | a name repeated up to case and spaces creates nothing and gets the same category |
| CaseImporter.List | backend/cases/services/case_importer.py:75-91 | an absent list reads as empty; `null` fails as non-iterable |
| CaseImporter.CaseRecord | backend/cases/services/case_importer.py:47-73 | the case row carries the source id, the awaiting-review status, no validator, the raw suggested names and exactly the chosen categories; it is made iff no text field is `null` and the age and number of children are neither `null` nor negative; each field is the value given or, when absent, its default ('Titre manquant', '', 0, 'Inconnu', 'Non spécifié', `{}`); the summary is '' |
| CaseImporter.SymptomRow | backend/cases/services/case_importer.py:75-76 | a symptom row is created iff no text column is `null` and `degre` is present and non-negative; it points at the case, and each column stores the entry's key of the same name ("" when absent), `degre` its value |
| CaseImporter.HistoryRow | backend/cases/services/case_importer.py:78-79 | a history row is created iff no column is `null`; it points at the case, and `type` and `description` store the entry's values ("" when absent) |
| CaseImporter.TreatmentRow | backend/cases/services/case_importer.py:81-82 | a treatment row is created iff no column is `null`; it points at the case, and `nom`, `posologie`, `date_debut` and `efficacite` store the entry's values ("" when absent) |
| CaseImporter.ExamRow | backend/cases/services/case_importer.py:84-85 | an exam row is created iff no column is `null`; it points at the case, and `nom` and `resultat` store the entry's values ("" when absent) |
| CaseImporter.FindingRow | backend/cases/services/case_importer.py:87-88 | a finding row is created iff no column is `null`; it points at the case, and `nom_examen` and `resultat_observation` store the entry's values ("" when absent) |
| CaseImporter.DiagnosisRow | backend/cases/services/case_importer.py:90-91 | a diagnosis row is created iff no column is `null`; it points at the case, `description` stores the entry's value ("" when absent) and `is_final` its value (false when absent) |
| CaseImporter.SymptomRows | backend/cases/services/case_importer.py:75-76 | the loop succeeds iff the list is not `null` and every entry makes a symptom row; it then makes exactly one row per entry, in order, each the entry's row for the case (an absent list makes none) |
| CaseImporter.HistoryRows | backend/cases/services/case_importer.py:78-79 | the loop succeeds iff the list is not `null` and every entry makes a history row; it then makes exactly one row per entry, in order, each the entry's row for the case (an absent list makes none) |
| CaseImporter.TreatmentRows | backend/cases/services/case_importer.py:81-82 | the loop succeeds iff the list is not `null` and every entry makes a treatment row; it then makes exactly one row per entry, in order, each the entry's row for the case (an absent list makes none) |
| CaseImporter.ExamRows | backend/cases/services/case_importer.py:84-85 | the loop succeeds iff the list is not `null` and every entry makes a exam row; it then makes exactly one row per entry, in order, each the entry's row for the case (an absent list makes none) |
| CaseImporter.FindingRows | backend/cases/services/case_importer.py:87-88 | the loop succeeds iff the list is not `null` and every entry makes a finding row; it then makes exactly one row per entry, in order, each the entry's row for the case (an absent list makes none) |
| CaseImporter.DiagnosisRows | backend/cases/services/case_importer.py:90-91 | the loop succeeds iff the list is not `null` and every entry makes a diagnosis row; it then makes exactly one row per entry, in order, each the entry's row for the case (an absent list makes none) |
| CaseImporter.RowsAll | backend/cases/services/case_importer.py:75-91 | the loop succeeds iff every entry does, giving one row per entry in order |
| CaseImporter.BuildChildRows | backend/cases/services/case_importer.py:75-91 | the six loops succeed iff each one does, and then give exactly one row per entry of each of the six clinical lists, in order, each pointing at the new case |
| CaseImporter.AppendRowsValid | backend/cases/services/case_importer.py:75-91 | appending rows of an existing case keeps the database valid |
| CaseImporter.AppendRowsAdded | backend/cases/services/case_importer.py:75-91 | appending one row per entry of each clinical list leaves the existing rows first and exactly those rows after them |
| CaseImporter.WithCategoriesValid | backend/cases/services/case_importer.py:29-45 | the category stage keeps the tables valid and only appends categories |
| CaseImporter.SaveSpec | backend/cases/services/case_importer.py:16-93 | computes the whole save, step by step in source order (no contract of its own; `SaveSpecMeaning`, `SaveRefusesKnownSource`, `SaveEmptyUsesDefaults` and `BadSymptomFailsSave` state it) |
| CaseImporter.SaveSpecMeaning | backend/cases/services/case_importer.py:16-93 | a successful save keeps the database valid and adds exactly one case (given source id, awaiting review, raw suggestions, fields as `CaseRecord` gives them); existing categories are kept; each of the six child tables keeps its rows and gains exactly one row per entry of the matching clinical list, in order, each pointing at the new case |
| CaseImporter.SaveRefusesKnownSource | backend/cases/services/case_importer.py:47-48 | a source id already stored makes the save fail |
| CaseImporter.SaveEmptyUsesDefaults | backend/cases/services/case_importer.py:47-70 | saving `{}` writes a case made of defaults only, with no category and no child row |
| CaseImporter.BadSymptomFailsSave | backend/cases/services/case_importer.py:75-76 | a symptom without `degre`, or with `localisation` `null`, fails the whole save |
| CaseImporter.FindCategory | backend/cases/services/case_importer.py:38-41 | the loop finds the same category as `FindIgnoreCase` |
| CaseImporter.NormaliseCategories | backend/cases/services/case_importer.py:33-45 | the loop computes the category specification |
| CaseImporter.FirstFailure | backend/cases/services/case_importer.py:75-91 | the first failing entry's error is the loop's error |
| CaseImporter.CreateRows | backend/cases/services/case_importer.py:75-91 | the loop computes `RowsAll` |
| CaseImporter.CreateChildRows | backend/cases/services/case_importer.py:75-91 | the six loops compute `BuildChildRows` |
| CaseImporter.CaseDatabase.constructor | backend/cases/models.py:9-137 | a new database is empty and valid |
| CaseImporter.CaseDatabase.SaveStructuredData | backend/cases/services/case_importer.py:16-93 | keeps the database valid; on success the tables are those of `SaveSpec` and the case id and created names are returned; on failure nothing changes |
| ImportCases.FlatRecord | backend/cases/management/commands/import_cases.py:80-88 | the case row has the record's id as source id, the default status and no category; it is made iff no text field is `null` and `age` and `sexe` are present with a non-negative age; title, summary, objectives and reason are the value given or, when absent, 'Titre manquant' or ''; the columns not passed take their column defaults |
| ImportCases.FlatSave | backend/cases/management/commands/import_cases.py:78-95 | computes one record's transaction (no contract of its own; `FlatSaveMeaning` and `FlatNeedsAgeAndSex` state it) |
| ImportCases.FlatSaveMeaning | backend/cases/management/commands/import_cases.py:78-95 | a committed record keeps the database valid and adds one case with the next id, the record's source id and the fields `FlatRecord` gives; it appends exactly one symptom row per symptom entry and one history row per history entry, in order, for the new case; categories and the other four child tables are unchanged |
| ImportCases.FlatDefaults | backend/cases/management/commands/import_cases.py:82-85 | missing title, summary, objectives and reason take 'Titre manquant' and '' |
| ImportCases.FlatNeedsAgeAndSex | backend/cases/management/commands/import_cases.py:86-87 | without `age` or `sexe` the record is not saved |
| ImportCases.TakenStaysTaken | backend/cases/management/commands/import_cases.py:68 | a source id once taken stays taken as cases are added |
| ImportCases.ImportStep | backend/cases/management/commands/import_cases.py:66-99 | computes one iteration of the record loop (no contract of its own; `ImportStepMeaning` states it) |
| ImportCases.ImportRun | backend/cases/management/commands/import_cases.py:66-99 | computes the record loop (no contract of its own; `ImportRunPrefix`, `OutcomeAt`, `ImportRunValid` and `ImportedIdsTaken` state it) |
| ImportCases.HandleSpec | backend/cases/management/commands/import_cases.py:27-99 | computes the command (no contract of its own; `SetupFailureChangesNothing` and `RerunSkipsImported` state it) |
| ImportCases.ImportStepMeaning | backend/cases/management/commands/import_cases.py:66-99 | a record is skipped iff its id is empty or taken; a structuring failure is reported; the tables change only on import, which adds one case and takes the id |
| ImportCases.ImportRunPrefix | backend/cases/management/commands/import_cases.py:66-99 | a prefix of the records gives a prefix of the outcomes |
| ImportCases.OutcomeAt | backend/cases/management/commands/import_cases.py:66-99 | record k's outcome is one step from the tables the earlier records left |
| ImportCases.ImportRunValid | backend/cases/management/commands/import_cases.py:66-99 | the loop keeps the database valid and never alters an existing case |
| ImportCases.ImportedIdsTaken | backend/cases/management/commands/import_cases.py:78-97 | every imported record's id is taken at the end |
| ImportCases.AfterPrefix | backend/cases/management/commands/import_cases.py:66-99 | later records keep the cases an earlier prefix left |
| ImportCases.RerunSkipsImported | backend/cases/management/commands/import_cases.py:67-70 | a second run over the same records skips every record the first run imported |
| ImportCases.DuplicateInBatchSkipped | backend/cases/management/commands/import_cases.py:67-70 | a record whose id an earlier record in the batch imported is skipped |
| ImportCases.SkippedAnswerUnused | backend/cases/management/commands/import_cases.py:67-76 | the model's answer for a skipped record is never used |
| ImportCases.SetupFailureChangesNothing | backend/cases/management/commands/import_cases.py:31-62 | an API-key or fetch failure changes nothing and processes no record |
| ImportCases.SaveFlatCase | backend/cases/management/commands/import_cases.py:78-99 | commits the record's transaction on success, discards it on failure |
| ImportCases.Handle | backend/cases/management/commands/import_cases.py:27-99 | the command computes `HandleSpec`: one outcome per record, in order |
| ExportDataset.ParseFormat | backend/cases/management/commands/export_dataset.py:18 | an accepted format has the given name |
| ExportDataset.FormatRoundTrip | backend/cases/management/commands/export_dataset.py:18 | the three format names and the formats correspond one to one; any other name is refused |
| ExportDataset.ParseOptions | backend/cases/management/commands/export_dataset.py:14-33 | an invalid format is an error; absent options take csv, `./data_exports` and `approuve` |
| ExportDataset.Selected | backend/cases/management/commands/export_dataset.py:43-50 | computes the cases with the status (no contract of its own; `SelectedMeaning` states it) |
| ExportDataset.SelectedMeaning | backend/cases/management/commands/export_dataset.py:43 | exactly the stored cases with the requested status are exported, each once |
| ExportDataset.DefaultExportIsVisibleCases | backend/cases/management/commands/export_dataset.py:31 | the default export holds exactly the cases learners can see, in the same order |
| ExportDataset.FileNameMeaning | backend/cases/management/commands/export_dataset.py:59-60 | the file name begins `dataset_<status>_`, ends with `.<format>`, and the path is that name inside the output directory |
| ExportDataset.CsvShape | backend/cases/management/commands/export_dataset.py:76-111 | the header, then one eight-cell row per case |
| ExportDataset.CsvRow | backend/cases/management/commands/export_dataset.py:85-111 | computes one CSV row (no contract of its own; `CsvShape`, `CsvNumbersReadBack`, `PipeCellMeaning` and `HistoryCellMeaning` state it) |
| ExportDataset.CsvNumbersReadBack | backend/cases/management/commands/export_dataset.py:101-105 | the id and age cells parse back to the case's id and age |
| ExportDataset.PipeCellMeaning | backend/cases/management/commands/export_dataset.py:87-91 | a list cell is empty without rows and otherwise (with non-empty names) is not, with every name and a separator between neighbours |
| ExportDataset.HistoryCellMeaning | backend/cases/management/commands/export_dataset.py:93-98 | the history cell is empty iff the case has no history; otherwise it is one line of JSON array text |
| ExportDataset.HistoryItemMeaning | backend/cases/management/commands/export_dataset.py:94 | each history item carries the type's display label and the description |
| ExportDataset.ExportCsv | backend/cases/management/commands/export_dataset.py:73-111 | the loop computes the CSV table |
| ExportDataset.CaseJsonMeaning | backend/cases/management/commands/export_dataset.py:121-139 | a record has the fourteen keys in order, and each list has one item per related row |
| ExportDataset.CaseJson | backend/cases/management/commands/export_dataset.py:121-139 | computes one exported record (no contract of its own; `CaseJsonMeaning` states it) |
| ExportDataset.BuildDataset | backend/cases/management/commands/export_dataset.py:119-140 | the loop builds one record per case, in order |
| ExportDataset.WriteJsonl | backend/cases/management/commands/export_dataset.py:147-149 | the loop writes the JSON Lines text |
| ExportDataset.JsonlLines | backend/cases/management/commands/export_dataset.py:147-149 | reading the JSON Lines text line by line gives exactly the records' compact serialisations |
| ExportDataset.JsonlText | backend/cases/management/commands/export_dataset.py:147-149 | computes the JSON Lines text (no contract of its own; `JsonlLines` states it) |
| ExportDataset.NoMatchMessageIgnoresStatus | backend/cases/management/commands/export_dataset.py:53 | as written, the warning is the same literal text for every status |
| ExportDataset.NoMatchMessage | backend/cases/management/commands/export_dataset.py:53 | the intended warning starts and ends with the fixed text |
| ExportDataset.NoMatchMessageNamesStatus | backend/cases/management/commands/export_dataset.py:53 | the intended warning contains the status, which reads back from it |
| ExportDataset.HandleMeaning | backend/cases/management/commands/export_dataset.py:35-69 | no file iff no case has the status, and the warning is then the literal text with `{status}` in it; otherwise the path ends with the file name, and a JSON Lines file has one line per case |
| ExportDataset.HandleSpec | backend/cases/management/commands/export_dataset.py:35-67 | computes the command with the warning as written (no contract of its own; `HandleMeaning` states it) |
| ExportDataset.Handle | backend/cases/management/commands/export_dataset.py:35-67 | the command computes `HandleSpec`, including the warning as the source writes it |
| ExportDataset.HandleIntendedMeaning | backend/cases/management/commands/export_dataset.py:52-54 | with the warning corrected, the command writes exactly what it writes as written, and its no-match warning names the status, which reads back from it |
| SimModels.ParseSessionStatus | backend/simulation/models.py:12-15 | a parsed session status has the given value |
| SimModels.SessionStatusRoundTrip | backend/simulation/models.py:12-15 | the three status values and statuses correspond one to one |
| SimModels.ParseSender | backend/simulation/models.py:60-63 | a parsed sender has the given value |
| SimModels.SenderRoundTrip | backend/simulation/models.py:60-63 | the three sender values and senders correspond one to one |
| SimModels.NewSession | backend/simulation/models.py:30-44 | a new session is in progress, starts now and has no end time |
| SimModels.EmptySimTablesValid | backend/simulation/models.py:6-85 | the empty tables satisfy the invariant |
| SimModels.FilterKeepsOrder | backend/simulation/models.py:47 | filtering keeps the start-time/timestamp order |
| SimModels.DeleteSessionCascades | backend/simulation/models.py:65-70 | deleting a session removes exactly its messages and keeps the tables valid |
| SimModels.DeleteLearnerCascades | backend/simulation/models.py:23-28 | deleting a user removes exactly their sessions and those sessions' messages |
| SimModels.DeletePreservesValid | backend/simulation/models.py:65-70 | removing sessions together with their messages keeps the tables valid |
| SimModels.DeleteCaseProtectedMeaning | backend/simulation/models.py:17-22 | a case is refused deletion iff a session refers to it; otherwise sessions still refer to stored cases |
| SimSerializers.ToInteger | backend/simulation/serializers.py:39 | integers, and strings of digits, convert to their value |
| SimSerializers.ValidateCaseId | backend/simulation/serializers.py:43-52 | an accepted value is returned unchanged |
| SimSerializers.ValidateCaseIdMeaning | backend/simulation/serializers.py:43-52 | an id is accepted iff its case is in the learners' case list; a missing and an unapproved case get the same error |
| SimSerializers.ValidateStart | backend/simulation/serializers.py:39 | an absent `case_id` is "required"; `null` is refused |
| SimSerializers.ValidateStartAccepts | backend/simulation/serializers.py:39-52 | accepted iff the value is an integer naming a stored approved case |
| SimSerializers.OnlyContentIsWritable | backend/simulation/serializers.py:14-15 | a client can write `content` and nothing else |
| SimSerializers.MessageJsonMeaning | backend/simulation/serializers.py:14 | a serialized message has the five fields in order; the sender and content read back |
| SimAgent.EntryOf | backend/simulation/agent/simulator.py:72-75 | content is copied; the entry is human iff the learner sent the message |
| SimAgent.SessionMessagesMeaning | backend/simulation/agent/simulator.py:69 | in a time-ordered log, the session's messages are exactly its rows, in timestamp order |
| SimAgent.ChatHistoryMeaning | backend/simulation/agent/simulator.py:69-76 | one entry per message, in order, same content; system messages become model entries |
| SimAgent.ChatHistory | backend/simulation/agent/simulator.py:69-76 | computes the conversation as the model sees it (no contract of its own; `ChatHistoryMeaning` states it) |
| SimAgent.GetChatHistoryMessages | backend/simulation/agent/simulator.py:63-76 | the loop computes the history of the session's messages |
| SimAgent.PromptForMeaning | backend/simulation/agent/simulator.py:78-100 | "Aucun" when the case has no symptom/history; otherwise the ", "-join; persona and opening line are fixed; the history is the session's |
| SimAgent.PromptFor | backend/simulation/agent/simulator.py:78-100 | computes the prompt variables (no contract of its own; `PromptForMeaning` states it) |
| SimAgent.GenerateResponse | backend/simulation/agent/simulator.py:90-102 | the model's failure is passed on unchanged |
| SimAgent.GenerateResponseStripped | backend/simulation/agent/simulator.py:102 | the reply neither starts nor ends with whitespace, is empty only for an all-whitespace answer, and is a fixed point of stripping |
| SimViews.FindOwned | backend/simulation/views.py:111-116 | the caller's session with that id, or none when no such session is the caller's |
| SimViews.FirstInProgress | backend/simulation/views.py:150-155 | a session in progress of the caller on the case, or none when there is none |
| SimViews.LatestInProgress | backend/simulation/views.py:81-85 | the same lookup, taken from the newest end |
| SimViews.InProgressUnique | backend/simulation/views.py:150-155 | in valid tables a learner has at most one session in progress per case |
| SimViews.StartSpecMeaning | backend/simulation/views.py:139-159 | 400 and no change on an invalid `case_id`; 200 and no change with the existing session in progress; otherwise 201 with exactly one new in-progress session and no messages |
| SimViews.StartSpec | backend/simulation/views.py:139-159 | computes `start_session` (no contract of its own; `StartSpecMeaning`, `StartPreservesValid` and `StartTwiceReuses` state it) |
| SimViews.CreateSessionValid | backend/simulation/views.py:150-158 | creating a session where none is in progress keeps the tables valid |
| SimViews.StartPreservesValid | backend/simulation/views.py:139-159 | starting keeps the tables valid and sessions referring to stored cases |
| SimViews.StartTwiceReuses | backend/simulation/views.py:150-159 | starting again on the same case returns the same session with 200 and changes nothing |
| SimViews.CreateAgreesWithStart | backend/simulation/views.py:73-101 | in valid tables both start endpoints behave identically |
| SimViews.CreateSpec | backend/simulation/views.py:73-101 | computes `StartSimulationView.create` (no contract of its own; `CreateAgreesWithStart` states it) |
| SimViews.AppendMessage | backend/simulation/views.py:177-181 | the message is appended at the end and sessions are unchanged |
| SimViews.AppendMessageValid | backend/simulation/views.py:177-196 | adding a message to a stored session keeps the tables valid |
| SimViews.CaseById | backend/simulation/views.py:184 | the stored case with that id, or none when there is none |
| SimViews.PostRefusals | backend/simulation/views.py:168-175 | 404 iff the session is missing or not the caller's; 400 iff owned but without content; neither stores anything |
| SimViews.PostStores | backend/simulation/views.py:177-199 | the learner's message is stored first; 500 stores nothing more; 201 stores the patient reply right after and returns it |
| SimViews.PostSpec | backend/simulation/views.py:161-199 | computes `post_message` (no contract of its own; `PostRefusals`, `PostStores`, `PostPromptSeesMessage` and `PostPreservesValid` state it) |
| SimViews.PostPromptSeesMessage | backend/simulation/views.py:177-199 | the prompt's history is the session's conversation ending with the new message; 201 iff the model answers, and the reply is the stripped answer |
| SimViews.PostPreservesValid | backend/simulation/views.py:161-199 | posting keeps the tables valid |
| SimViews.ListSpec | backend/simulation/views.py:118-125 | 200 with one detail per listed session, each with its messages |
| SimViews.ReversedNewestFirst | backend/simulation/models.py:47 | reversing the sessions' insertion order gives newest-first order |
| SimViews.ListMeaning | backend/simulation/views.py:118-125 | the list holds exactly the caller's sessions, newest first |
| SimViews.RetrieveMeaning | backend/simulation/views.py:127-137 | 200 iff the session is the caller's; otherwise the same 404 whether it is missing or someone else's |
| SimViews.RetrieveSpec | backend/simulation/views.py:127-137 | computes `retrieve` (no contract of its own; `RetrieveMeaning` states it) |
| SimViews.SimulationStore.constructor | backend/simulation/models.py:6-85 | a new store has empty, valid tables |
| SimViews.SimulationStore.StartSession | backend/simulation/views.py:139-159 | keeps the tables valid and computes `StartSpec` |
| SimViews.SimulationStore.StartSimulation | backend/simulation/views.py:73-101 | keeps the tables valid and computes `CreateSpec` |
| SimViews.SimulationStore.PostMessage | backend/simulation/views.py:161-199 | keeps the tables valid and computes `PostSpec`: learner message, agent call, reply |

## Left out

- The language model is a parameter: the Gemini and LangChain calls, the prompt template text and the model settings are not modelled. The model's structuring step in the import command is given as a list of answers, one per record.
- Network and file I/O are not modelled:
  - the Fultang HTTP fetch and the mock file read are given as a fetch outcome;
  - file writes, `os.makedirs` and `csv.writer` quoting are left out; the CSV file is modelled as rows of cells.
- The pretty JSON export (`indent=4`) is modelled as the array value written, not as its indented text.
- Console and log output is left out (`stdout`/`stderr` messages, `print`, `console.log`), apart from the export's no-match warning, which is modelled as the source writes it (see Findings).
- `datetime.now()` is replaced: the export timestamp is a parameter, and row timestamps come from a logical clock. Two rows created within the same clock reading are therefore always ordered.
- Django ORM, DRF and HTTP are replaced:
  - tables are sequences in insertion order;
  - unordered querysets are read in table order;
  - responses are a status code with a payload datatype;
  - serializer field lists other than the chat message's are not modelled.
- CaseImporter.FindIgnoreCase: `get_or_create(name__iexact=…)` raises `MultipleObjectsReturned` when two stored categories differ only in case; the model returns the first match instead. `CategoryStateValid` (through `CaseModels.CategoriesValid`) keeps category names distinct up to case, so such tables are outside the model.
- SimViews.FirstInProgress: `get_or_create`'s `MultipleObjectsReturned` and its race between concurrent requests are not modelled. The invariant `SimValid` keeps at most one match.
- `max_length` on character columns is not enforced (SQLite does not enforce it).
- Keyword arguments a model does not declare (a `TypeError` in `objects.create(**d)`) are not modelled. Dictionaries carry exactly the declared keys.
- SimSerializers.ToInteger: DRF's integer parsing is approximated. Strings are accepted only as plain digit strings (no sign, no spaces, no `"5.0"`).
- SimViews.PostSpec: message content is a string lookup. A non-string JSON `content` is not modelled.
- The simulation views' `IsAuthenticated` check is not modelled: the caller is always a learner id, so the 401 for anonymous callers does not arise.
- JSON numbers are integers only: `Json.JsonValue` has no floating-point alternative, so float values in a model answer, a lifestyle object or a raw record are not represented.
- ImportCases.RawRecord: a record's `id` is a string (or absent or `null`), and the model's answer for a record is a flat dictionary or a failure. Non-string ids (a JSON number) and answers that are not dictionaries are not modelled.
- The session primary key is a natural number. A non-numeric `pk` in the URL is not modelled.
- Session status changes (completed or canceled) and `end_time` updates are not modelled: no endpoint performs them.
- Case-insensitive matching folds ASCII letters only, not full Unicode case folding.
- The frontend's rendering, styling and `console` logging are not modelled. `API_BASE_URL` is never defined in the source and is not modelled either.
- Left out by choice:
  - the case serializers' field lists;
  - the user serializers (JWT claims and password hashing are library calls);
  - signal plumbing;
  - the admin sites, URL tables and `next.config.ts`.

## Findings

| source | as written | input that shows it | evidently intended | confidence | as-written member | corrected member |
|---|---|---|---|---|---|---|
| frontend/app/dashboard/layout.tsx:191-198 | `item.badge && item.badge > 0 && (<span>…</span>)` evaluates to the number 0 when the badge is 0, and React renders it (the mobile sidebar repeats the guard at line 326); latent, since no entry of the navigation table at lines 69-96 sets `badge` | a navigation item with `badge: 0` shows a stray "0" inside its icon's wrapper, beside the icon | show a badge only for a defined positive count | not executed | DashboardNav.BadgeZeroShowsStrayZero | DashboardNav.BadgeIntended |
| backend/cases/management/commands/export_dataset.py:53 | the warning string lacks the `f` prefix, so `{status}` is printed literally | `--status rejete` with no rejected case prints `...statut '{status}'...` | the warning names the requested status | not executed | ExportDataset.NoMatchMessageIgnoresStatus | ExportDataset.HandleIntendedMeaning |
