# Elite Varejo — scoring, session and store directory in Dafny

Elite Varejo tracks the KPIs of retail stores against their targets and
rewards each store by tier. This project models its decision logic:

- **Scoring engine and reward resolver** (`Scoring`, from the client
  dashboard): the aggregate performance of a store (the unweighted mean of
  `actual / target`, as a percentage, rounded half-up with `Math.round`), the
  tier ladder ELITE ≥ 100, GOLD ≥ 90, SILVER ≥ 80, BRONZE ≥ 70, otherwise NONE,
  the look-up of the reward and colour in the store's own tables, the reward
  banner, and the per-KPI card percentage capped at 100.
- **Session and store directory** (`App`, class `AppState`): the directory
  of stores, the role, the active store index, the login error and the
  browser's session slot; start-up (directory load and session resume), the
  two-branch access gate (administrator secret `1234`, or the first store whose
  code matches exactly), logout, replace-by-id and append after a save, and
  the screen the shell renders.
- **Administration panel** (`Admin`, class `AdminPanel`): the seeded new store
  (`LOJA-n`, three default KPIs, reward and colour tables), the editing draft
  and its field-by-field edits, saving the draft back through the directory,
  and the editor's uncapped per-KPI figure.

`Model` holds the KPI and store records and the tier order; `Decimal` renders
the number in a new store's code and parses it back.

Ratios are Dafny `real`s and `Math.round(x)` is `Floor(x + 0.5)`. Store records
are values, so the draft's deep copy is a plain copy: editing the draft can
never reach the directory before a save. The outcome of the repository save
(`db.saveStore`), the new ids, the timestamps, the directory the repository
returns at start-up and the session slot found at start-up are parameters.

Choices the code makes, which the model keeps:
- the code divides by `target` unguarded and defines no fallback for a zero
  target, so a non-zero target is a precondition (`Scorable`);
- an administrator login always selects index 0, even with an empty directory;
- a new store's code `LOJA-(n+1)` is not checked against existing codes, which
  an administrator can edit, so a login with a repeated code reaches the earlier
  store (`App.AddedStoreFoundByCode` states both cases);
- a table entry that is missing is read as undefined (`None` here), and the
  banner then stays hidden; nothing validates the tables.

A failed add followed by a successful save of the draft (the panel opens the
new store in the editor whatever the add's outcome) leaves the directory
without the store: the replace finds no entry with its id
(`App.ReplaceUnknownIdIsNoop`), although the repository has stored it.

## Model

| member | source | states |
|---|---|---|
| `Model.Rank` | components/ClientDashboard.tsx:31-37 | tiers are ordered NONE < BRONZE < SILVER < GOLD < ELITE; NONE is the bottom and ELITE the top |
| `Model.RankInjective` | components/ClientDashboard.tsx:31-37 | different tiers have different positions, so any two tiers are comparable |
| `Scoring.Round` | components/ClientDashboard.tsx:26 | the result is the integer nearest to x, ties going up: x − 0.5 < r ≤ x + 0.5 |
| `Scoring.TotalPerformance` | components/ClientDashboard.tsx:23-27 | 0 for a store with no KPIs; otherwise the integer nearest (ties up) to 100 × the mean of actual/target |
| `Scoring.GetTier` | components/ClientDashboard.tsx:31-37 | the result is the highest tier whose inclusive threshold the performance reaches, for every integer performance |
| `Scoring.GetTierMonotone` | components/ClientDashboard.tsx:31-37 | a higher performance never yields a lower tier |
| `Scoring.GetTierBoundaries` | components/ClientDashboard.tsx:31-37 | 100→ELITE, 99→GOLD, 90→GOLD, 89→SILVER, 80→SILVER, 79→BRONZE, 70→BRONZE, 69→NONE |
| `Scoring.Summarize` | components/ClientDashboard.tsx:39-41 | the performance is the store's aggregate score and the tier is the tier of that score; reward and colour are the store's own table entries for that tier, and undefined (no default) when the entry is missing |
| `Scoring.ShowsRewardBanner` | components/ClientDashboard.tsx:72 | the banner condition: a reward that is defined and strictly positive; an undefined reward hides the banner |
| `Scoring.RewardBannerFollowsTable` | components/ClientDashboard.tsx:72 | the banner shows exactly when the store's reward entry for its tier exists and is strictly positive |
| `Scoring.DisplayPercent` | components/ClientDashboard.tsx:86 | the card percentage is at most 100, is 100 exactly when the rounded completion reaches 100, and is the rounded completion otherwise |
| `Scoring.RatioSumPermutation` | components/ClientDashboard.tsx:25 | the sum of ratios is the same for any reordering of the KPIs |
| `Scoring.PerformanceIgnoresOrder` | components/ClientDashboard.tsx:23-27 | the performance is the same for any reordering of the KPIs |
| `Scoring.RatioSumMonotone` | components/ClientDashboard.tsx:25 | pointwise larger ratios give a larger or equal sum |
| `Scoring.PerformanceMonotone` | components/ClientDashboard.tsx:23-37 | raising KPI ratios never lowers the performance or the tier |
| `Scoring.PerformanceIgnoresMetadata` | components/ClientDashboard.tsx:25-26 | only targets and actuals enter the score: weight, name, unit and category do not |
| `Scoring.RatioSumAtLeast` | components/ClientDashboard.tsx:25 | a lower bound on every ratio, times the KPI count, bounds the sum from below |
| `Scoring.RatioSumAtMost` | components/ClientDashboard.tsx:25 | an upper bound on every ratio, times the KPI count, bounds the sum from above |
| `Scoring.AllTargetsMetIsElite` | components/ClientDashboard.tsx:23-37 | if every KPI reaches its target, the performance is at least 100 and the tier ELITE |
| `Scoring.AllOnTargetScoresHundred` | components/ClientDashboard.tsx:23-37 | if every KPI has actual = target, the performance is exactly 100 and the tier ELITE |
| `Scoring.NothingAchievedScoresZero` | components/ClientDashboard.tsx:23-37 | if every actual is 0 (or there are no KPIs), the performance is 0 and the tier NONE |
| `App.IndexOfCode` | App.tsx:55 | the first index whose store code equals the input exactly, or −1 exactly when no store has that code |
| `App.ReplaceById` | App.tsx:74 | same length and positions; every entry with the new store's id becomes the new store, every other entry is unchanged |
| `App.ReplaceUnknownIdIsNoop` | App.tsx:71-76 | replacing a store whose id is not in the directory leaves it unchanged |
| `App.ReplaceIdempotentKeepsIds` | App.tsx:74 | replacing twice equals replacing once, and every position keeps its store id |
| `App.AddedStoreFoundByCode` | App.tsx:78-83 | after an append, a login with the new store's code succeeds; it reaches the new store when the code was unused, the earlier store otherwise |
| `App.AppState.constructor` | App.tsx:13-17 | start state: empty directory, no role, no index, no error, loading, the session slot as kept by the browser |
| `App.AppState.CurrentScreen` | App.tsx:85-113 | spinner while loading; otherwise the access screen exactly when role or index is missing, showing the current login error; the administrator panel at the active index for ADMIN; for CLIENT the dashboard of the store at the active index exactly when that index is inside the directory, a blank page exactly when it is not |
| `App.AppState.InitData` | App.tsx:21-37 | installs the loaded directory; a saved session restores role and index; an unreadable slot is removed; loading ends |
| `App.AppState.HandleAccess` | App.tsx:41-63 | admin secret: ADMIN, index 0, session saved, whatever the directory; wrong secret: admin error, nothing else changes; client: the first exact code match becomes CLIENT with that index and is saved; no match: store error, nothing else changes; every success clears the error; a failed first login leaves the access screen showing the new error |
| `App.AppState.HandleLogout` | App.tsx:65-69 | role and index are cleared and the session slot is emptied, so the access screen shows |
| `App.AppState.UpdateStore` | App.tsx:71-76 | on a successful save the directory is replaced by id; on failure it is untouched |
| `App.AppState.AddStore` | App.tsx:78-83 | on a successful save the store is appended at the end; on failure the directory is untouched |
| `App.AppState.SelectStore` | App.tsx:110 | the administrator's choice becomes the active index |
| `Decimal.NatToString` | components/AdminPanel.tsx:26 | a non-empty string of decimal digits without a leading zero |
| `Decimal.ParseNatToString` | components/AdminPanel.tsx:26 | parsing the rendered number gives back the number |
| `Decimal.NatToStringInjective` | components/AdminPanel.tsx:26 | different numbers render differently |
| `Admin.DefaultTablesTotal` | components/AdminPanel.tsx:36-37 | the seeded reward and colour tables have an entry for every tier |
| `Admin.NewStore` | components/AdminPanel.tsx:23-38 | code is "LOJA-" followed by the decimal of count + 1, which parses back to count + 1; three KPIs with the given ids, targets 100000, 5, 30, actual 0, weight 1; the seeded reward and colour tables, which are total; rewards non-negative and never smaller for a higher tier |
| `Admin.NewStoreCodesDistinct` | components/AdminPanel.tsx:26 | stores seeded at different directory sizes get different codes |
| `Admin.NewStoreScoresNothing` | components/AdminPanel.tsx:31-37 | a new store scores 0, tier NONE, NONE colour, reward 0, and shows no banner |
| `Admin.NewStoreOnTargetEarnsElite` | components/AdminPanel.tsx:31-37 | a new store with every KPI met exactly scores 100, ELITE, with reward 5000 |
| `Admin.ApplyEdit` | components/AdminPanel.tsx:53 | the edited key holds the new value and every other key of the KPI keeps its value |
| `Admin.UpdateKpis` | components/AdminPanel.tsx:53 | same length and order; KPIs with the given id are edited, all others unchanged |
| `Admin.UpdateKpisTouchesOneField` | components/AdminPanel.tsx:51-55 | no key other than the edited one changes in any KPI; the matching KPIs hold the new value; an unknown id changes nothing |
| `Admin.RewritingHeldValueIsNoop` | components/AdminPanel.tsx:51-55 | writing back the value every matching KPI already holds leaves the KPI list as it was |
| `Admin.CosmeticEditKeepsPerformance` | components/AdminPanel.tsx:53 | editing any key other than target or actual leaves the performance unchanged |
| `Admin.ApplyDetail` | components/AdminPanel.tsx:152-179 | the edited detail (trade name, manager, code or legal name) takes the new value; every other detail, the id, timestamp, KPIs and tables keep theirs, and so does the dashboard summary |
| `Admin.EditorPercent` | components/AdminPanel.tsx:242 | the editor figure is the integer nearest to 100 × actual/target, ties going up, not capped; the dashboard card shows the same figure capped at 100 |
| `Admin.EditorOnTarget` | components/AdminPanel.tsx:241 | the green mark: the completion percentage 100 × actual/target is at least 100 |
| `Admin.EditorGreenVersusDashboard` | components/AdminPanel.tsx:241-242 | green exactly when actual/target ≥ 1; green implies a full dashboard bar; 199 of 200 fills the bar but is not green |
| `Admin.AdminPanel.constructor` | components/AdminPanel.tsx:13-14 | the panel starts not editing, with no draft |
| `Admin.AdminPanel.HandleEditClick` | components/AdminPanel.tsx:18-21 | the draft equals the selected store, the editor opens, the directory is not touched |
| `Admin.AdminPanel.HandleAddNewStore` | components/AdminPanel.tsx:23-41 | the seeded store (code from the directory size) is appended if saved, and opened in the editor either way |
| `Admin.AdminPanel.SaveChanges` | components/AdminPanel.tsx:43-49 | without a draft nothing changes; otherwise the draft with only lastUpdate replaced goes to the replace-by-id, and the draft and editor are closed whatever the save outcome |
| `Admin.AdminPanel.UpdateKpi` | components/AdminPanel.tsx:51-55 | without a draft nothing changes; otherwise only the draft's KPI list changes, by UpdateKpis |
| `Admin.AdminPanel.EditDetail` | components/AdminPanel.tsx:152-179 | without a draft nothing changes; otherwise the draft becomes ApplyDetail of it: the one edited detail changes and nothing else |
| `Admin.AdminPanel.CloseEditor` | components/AdminPanel.tsx:124 | the back button closes the editor and keeps the draft |

## Left out

- Scoring.TotalPerformance: requires every target to be non-zero; the code divides unguarded, and the Infinity or NaN that IEEE arithmetic gives for a zero target is not modelled.
- Scoring.DisplayPercent: requires a non-zero target, for the same reason.
- Admin.EditorPercent: requires a non-zero target, for the same reason; the NaN that `parseFloat` yields for an emptied number field (components/AdminPanel.tsx:213, 223) is not modelled either.
- Floating point in general: ratios, sums and rounding are exact real arithmetic, so IEEE rounding of `actual / target` and of the running sum is not captured.
- db.ts is not part of this model: the repository is reached only through the `saved` outcome. Its field renaming, the fact that a failed KPI upsert is only logged while the store save still reports success (db.ts:80-83), and that KPIs removed from a store are never deleted are outside the model.
- The insight text fetched from the external text service (components/ClientDashboard.tsx:13-21) is not modelled: it is an opaque string with no effect on scoring.
- components/Layout.tsx and components/AccessScreen.tsx are rendering only; the access screen's rule (trim the input, ignore an empty one) is a caller rule, so `HandleAccess` accepts any code.
- The session slot is a value (`SessionSlot`), not JSON text: a slot that parses but lacks `role` or `index` is not distinguished from a saved entry.
- Random ids, the current time and locale-dependent date and number formatting are parameters or left out.
- The "Prata" average-tier label (components/AdminPanel.tsx:114) is fixed display text, not computed from the stores.
- The editor's tier colour swatches (components/AdminPanel.tsx:255-260) list the draft's own colour table entry by entry; they are rendering only and change no state.
- Asynchronous interleaving: the panel does not wait for `addStore`/`updateStore`; each call is modelled as atomic, completing before the next step.
- types.ts is not part of this model; the KPI category enumeration is represented by the three categories the seeded store uses plus a catch-all.
