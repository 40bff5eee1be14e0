# ChAMAI checklist engine in Dafny

A model of the state and scoring logic of the ChAMAI self-assessment
checklist, a browser application in which an author and a reviewer answer
the items of a fixed checklist. The model has two parts.

- **Response store** (`store.dfy`, `responses.dfy`). The application's single
  mutable `state` object becomes the class `Store.ResponseStore`. Its fields are
  `scores` (item code to `Entry`), `committed` (section id to flag) and `role`.
  A fourth field, `storage`, stands for the browser storage slot that
  `saveState` writes and `loadState` reads. An `Entry` is either the current
  record `{author, reviewer}` or the older legacy form: a bare reviewer choice
  string. The pure rules live in module `Responses`: role normalisation, the
  choice buttons per role, the two read paths, legacy migration and the record
  update of the click handler. The class methods are proved against them.
- **Scoring engine** (`scoring.dfy`, `quality.dfy`, `checklist.dfy`). The
  achieved score, the maximum score, the item count and the quality label.
  Each is a function over the read-only checklist definition and the stored
  responses. The source's accumulation loops are methods
  (`ComputeTotalScore`, `ComputeMaxScore`, `GetTotalItems`) proved equal to
  those functions. Points are multiples of one half and are exact `real`s.

JavaScript details the model keeps:
- Truthiness. `x || null` turns an empty string into `null` (`OrNull`). A
  legacy entry `""` reads as no choice, but migration still upgrades it.
- A role field that is missing, instead of one that is present but empty.
- `loadState`'s `try`/`catch`. When reading or parsing the stored text throws,
  migration, the role reset and the save are all skipped.
- What the division in `qualityFromScore` yields when `max` is 0. NaN and
  +Infinity fail every comparison, so the label is "Excellent". -Infinity
  gives "Very Low".

Behaviour worth knowing:
- `loadState` always resets the role to "reviewer", overriding a saved
  "author".
- When the stored text cannot be parsed, nothing is migrated and nothing is
  saved. The in-memory state simply stays as it was.
- Migration visits keys in an arbitrary order, where the source follows the
  order of `Object.keys`. Each entry is rewritten on its own, so the result is
  the same.

## Model

| member | source | states |
|---|---|---|
| `Checklist.GetTotalItems` | assets/js/chamai-app.js:196-203 | the loop's count is the length of the flattened item list of all sections, and 0 with no definition loaded |
| `Checklist.TotalItems` | assets/js/chamai-app.js:196-203 | 0 while no definition is loaded, otherwise the number of items of all sections together |
| `Checklist.ItemCountIsAllItemsLength` | assets/js/chamai-app.js:196-203 | counting section by section equals the number of items of all sections together |
| `Responses.OptionsFor` | assets/js/chamai-app.js:151-153 | the options are `["NA","No","Yes"]` exactly for the author and `["OK","mR","MR"]` exactly for the reviewer |
| `Responses.RoleOf` | assets/js/chamai-app.js:147-157 | the role is the author exactly when the value is the string "author"; any other value, a missing one included, is the reviewer |
| `Responses.RoleNormalisationIdempotent` | assets/js/chamai-app.js:147-157 | any stored value normalises to "author" or "reviewer", only the exact string "author" selects the author, and normalising again changes nothing |
| `Responses.RoleOfRoleName` | assets/js/chamai-app.js:155-157 | the stored name of a role normalises back to that role |
| `Responses.OrNull` | assets/js/chamai-app.js:209 | the fallback to null yields a value exactly when it is a non-empty string, and then that value |
| `Responses.ReviewerChoice` | assets/js/chamai-app.js:205-210 | null for a missing entry, the string itself for a legacy entry, the reviewer field for a record (empty strings read as null) |
| `Responses.AuthorChoice` | assets/js/chamai-app.js:212-218 | null for a missing or legacy entry, the author field for a record (empty strings read as null) |
| `Responses.Migrated` | assets/js/chamai-app.js:89-98 | a legacy string `s` becomes `{author: null, reviewer: s}`; a record is left as it is |
| `Responses.MigratedScores` | assets/js/chamai-app.js:89-98 | migration keeps exactly the same item codes |
| `Responses.MigrationIdempotent` | assets/js/chamai-app.js:83-108 | after migration no legacy entry is left, and migrating again changes nothing |
| `Responses.MigrationOfMigratedIsIdentity` | assets/js/chamai-app.js:89-98 | migration leaves the scores unchanged if and only if they hold no legacy entry |
| `Responses.MigrationPreservesChoices` | assets/js/chamai-app.js:205-218 | both role getters give the same answer for every item before and after migration |
| `Responses.WithChoice` | assets/js/chamai-app.js:400-414 | the new entry is a record, its field for the clicked role is the choice, and the other role's field is the old one (the legacy string as reviewer, null for a new item) |
| `Responses.RecordingSetsOnlyOneField` | assets/js/chamai-app.js:400-417 | after a click the clicked role reads the choice, the other role reads what it read before, and every other item's entry is unchanged |
| `Scoring.PriorityOf` | assets/js/chamai-app.js:228 | an item is scored as high priority exactly when its priority is "high", and as low otherwise |
| `Scoring.Weight` | assets/js/chamai-app.js:243 | an item weighs 1 or 2, 2 exactly for high priority, and its weight equals the table's points for "OK" at its scoring priority |
| `Scoring.Points` | assets/js/chamai-app.js:18-21 | table points lie in `[0, 2]` for "high" and `[0, 1]` otherwise, are full only for "OK", and are 0 for a choice missing from the table |
| `Scoring.ItemScore` | assets/js/chamai-app.js:226-230 | an item earns 0 without a reviewer choice or for "NA", never more than its weight, and its full weight exactly for "OK" |
| `Scoring.TotalScore` | assets/js/chamai-app.js:220-235 | the fold of item scores is 0 with no definition and otherwise lies between 0 and the maximum score |
| `Scoring.MaxScore` | assets/js/chamai-app.js:237-248 | the fold of item weights is 0 with no definition and otherwise lies between one and two points per item |
| `Scoring.ComputeTotalScore` | assets/js/chamai-app.js:220-235 | the loop's total is the fold of item scores over all sections (0 with no definition) and lies between 0 and the maximum score |
| `Scoring.ComputeMaxScore` | assets/js/chamai-app.js:237-248 | the loop's maximum is the fold of item weights and lies between one and two points per item |
| `Scoring.TotalScoreBounds` | assets/js/chamai-app.js:220-248 | `0 <= computeTotalScore() <= computeMaxScore()` for every definition and every store |
| `Scoring.ItemsScoreFull` | assets/js/chamai-app.js:226-243 | a list of items earns its full weight if and only if every item's reviewer choice is "OK" |
| `Scoring.MaxScoreBounds` | assets/js/chamai-app.js:237-248 | the maximum is between the item count and twice the item count, and is positive exactly when there is an item |
| `Scoring.TotalScoreReadsReviewerChoices` | assets/js/chamai-app.js:220-235 | two stores that agree on every reviewer choice give the same total score |
| `Scoring.AuthorAnswerKeepsScore` | assets/js/chamai-app.js:400-417 | recording an author's answer never changes the total score |
| `Scoring.MigrationKeepsScore` | assets/js/chamai-app.js:83-108 | migrating legacy entries never changes the total score |
| `Scoring.EmptyStoreScoresZero` | assets/js/chamai-app.js:220-235 | with no responses stored the total score is 0 |
| `Scoring.TwoItemExample` | assets/js/chamai-app.js:18-21 | a high item answered "OK" and a low item answered "mR" score 2.5 out of 3 |
| `Quality.QualityFromScore` | assets/js/chamai-app.js:250-259 | for a non-zero maximum, "Incomplete" exactly at score 0, "Very Low" for a ratio strictly between 0 and 0.3, "Excellent" from 0.85 on; for a maximum of 0, "Very Low" exactly for a negative score and "Excellent" exactly otherwise, as JavaScript's NaN and infinities give |
| `Quality.QualityBands` | assets/js/chamai-app.js:250-259 | for a positive maximum: exactly 0 is "Incomplete", any other score below 30% is "Very Low", then "Low" below 50%, "Moderate" below 70%, "High" below 85%, "Excellent" from 85% on |
| `Quality.QualityMonotone` | assets/js/chamai-app.js:250-259 | for non-negative scores and a fixed positive maximum the label never drops as the score grows |
| `Quality.QualityExamples` | assets/js/chamai-app.js:250-259 | 0, 1, 29, 30 and 85 out of 100 give Incomplete, Very Low, Very Low, Low and Excellent, and 2.5 out of 3 gives High |
| `Quality.PanelQuality` | assets/js/chamai-app.js:279 | with the guard that replaces a maximum of 0 by 1, a non-negative score is "Incomplete" exactly when it is 0, and full marks of a positive maximum are "Excellent", and a positive maximum is used as it is |
| `Quality.EmptyPanelIsIncomplete` | assets/js/chamai-app.js:279 | a score of 0 with a maximum of 0 shows "Incomplete" |
| `Quality.PanelLabelOfStore` | assets/js/chamai-app.js:265-281 | the panel label is "Incomplete" exactly when the total score is 0, and an author's answer never changes it |
| `Store.CommitSections` | assets/js/chamai-app.js:485-487 | every flag already present stays present, and every section of the definition ends with a true flag |
| `Store.CommitSectionsMarksEverySection` | assets/js/chamai-app.js:484-488 | after committing, a section id has a flag if it had one or belongs to a section; each section's flag is true and every other flag is kept |
| `Store.ResponseStore.constructor` | assets/js/chamai-app.js:73-77 | the initial state is empty with role "reviewer" |
| `Store.ResponseStore.SaveState` | assets/js/chamai-app.js:130-136 | the storage slot holds the whole current state |
| `Store.ResponseStore.MigrateLegacyState` | assets/js/chamai-app.js:83-108 | scores become their migration and a missing or empty role becomes "reviewer"; the state is saved only if something changed, so a store with nothing to upgrade is left untouched |
| `Store.ResponseStore.LoadState` | assets/js/chamai-app.js:110-128 | if the stored text cannot be read, nothing changes; otherwise the stored object (or, without one, the current state) is migrated, the role is forced to "reviewer" and the state is saved |
| `Store.ResponseStore.ClearState` | assets/js/chamai-app.js:138-141 | scores and committed are empty, the role is "reviewer" and the stored copy is removed |
| `Store.ResponseStore.CurrentRole` | assets/js/chamai-app.js:147-149 | the current role is the author exactly when the stored role is "author" |
| `Store.ResponseStore.OptionsForCurrentRole` | assets/js/chamai-app.js:151-153 | the author options exactly when the stored role is "author", the reviewer options otherwise |
| `Store.ResponseStore.SetRole` | assets/js/chamai-app.js:155-158 | the stored role is "author" for "author" and "reviewer" for anything else; the responses are untouched and the state is saved |
| `Store.ResponseStore.RecordChoice` | assets/js/chamai-app.js:400-417 | only the item's entry changes, only the clicked role's field of it, and the state is saved |
| `Store.ResponseStore.CommitAll` | assets/js/chamai-app.js:483-491 | every section of the definition is committed, scores and role are unchanged and the state is saved; with no definition nothing changes |
| `Store.ResponseStore.Reload` | assets/js/chamai-app.js:110-136 | saving and then loading a store in use gives back the same scores and commit flags, with the role reset to "reviewer" |

## Left out

- DOM construction, event wiring and display: `createSectionElement`, the layout in `createItemElement`, `refreshUI`, `buildChecklist`, `updateScorePanel`'s text and progress bar, the guidelines collapse and the start button. They hold no state logic beyond the record update modelled in `RecordChoice`.
- The rebuild that `setRole` triggers, and `initRoleToggle`'s initial `setRole("reviewer")`. These are UI wiring.
- CSV and PDF export. These wrap browser and library calls.
- The `fetch` of the checklist JSON. The definition is a given `Option<Definition>`, with `None` while it is not loaded. Item descriptions, sub-items, notes and section labels are left out because only rendering reads them.
- JSON encoding and decoding. `Stored` records what `loadState` would see, not the bytes.
- `Store.ResponseStore.SaveState`: does not model a write that fails (for example, a full quota). The source catches and logs that failure, and the in-memory state stays as it is.
- Stored state objects that lack `scores`, and arrays stored as state. The source then skips migration and fails later, at the first read of `state.scores`. The application itself always writes all three fields.
- Stored state objects that have `scores` but lack `committed`. Migration and scoring then work, and the commit-all handler fails with a `TypeError` at its first `state.committed[sec.id] = true`.
- Stored entry values that are neither strings nor `{author, reviewer}` records, such as numbers, booleans or `null`.
- Choice strings that name properties of JavaScript's object prototype (such as "toString"). `SCORE_MAP[priority][choice]` would find an inherited member there instead of falling back to 0. The model treats every choice outside the table as earning 0.
- Floating point. Scores are exact reals, so IEEE rounding of `score / max * 100` is not modelled.
- `Store.ResponseStore.CommitAll`: models the `TypeError` thrown without a loaded definition as doing nothing. The alert that follows a successful commit is left out.
