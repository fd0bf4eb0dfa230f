# Betting ledger: settlement and bet-entry model

A Dafny model of the frontend logic of a betting-ledger web application. Bets
("Wettscheine") belong to a distribution channel whose role is `Provider` or
`Bettor`; the bets table derives two figures per row, the displayed odds and the
gross gaming revenue (GGR); the bets page filters rows by channel and day, edits
and deletes rows and creates new bets; the entry form edits the legs of a Multi
bet and shows their total odds.

Modules, one per source file or concern:

- `Betting` (`frontend/src/types/betting.ts`): `Role`, `Channel`, `StoredLeg`, `Bet`.
- `Settlement` (`frontend/src/pages/betsColumns.tsx`): the GGR cell's six-way switch,
  the channel lookup with its Provider default, and the odds cell's leg product.
  `Outcome` and `ProviderGgr` are a reference table independent of the switch.
- `AddBetForm` (`frontend/src/pages/AddBetForm.tsx`): the leg record, the blank leg,
  append / remove / edit-one-field, `totalOdds`, `needsGoalsField`, and the leg list
  as a state machine of user actions.
- `BetsPage` (`frontend/src/pages/Bets.tsx`): the page state, `parseValue`,
  `filteredBets`, the loading and synchronising effects, the channel and day
  pickers, the draft bet's inputs, the add and delete buttons' disabled states,
  and `handleEdit`, `handleDelete` and `handleAdd`,
  each as a function from the old state to the new one; a page event applies one of them.
- `Scenarios`: worked examples and the divergences listed below.
- `Seqs`, `Wrappers`: `filter`, the left-fold product and `Option`.

Modelling choices:

- Money and odds are exact `real`s. JavaScript's `Number(text)` is a parameter
  `parse: string -> Option<real>`, where `None` stands for NaN.
- A backend response is a parameter of the handler that awaits it: `None` when
  the request threw (the page only alerts then), `Some(bet)` otherwise.
- The source field `match` is called `matchName`, because `match` is a Dafny keyword.
- `Bet` follows the record type, which has no `pick`. The page's draft bet does
  carry `pick`.
- A leg's `result` field keeps three shapes. The form's blank leg holds the number 0.
  An edit stores the selected option's text. The page's own blank leg has no result.
  This matches the code: the edit handler converts only `odds` to a number.

Two consequences of the code that the model keeps:

- The GGR cell multiplies by the stored `odds` field, even for a Multi bet. It does
  not use the leg product that the odds cell displays.
  `Scenarios.MultiGgrUsesStoredOdds` shows a won Multi bet that displays odds 3.0
  and yet has GGR −50 rather than 100.
- A zero or missing leg counts as 1 in the table but zeroes the form's total
  (`Scenarios.ZeroLegTableVersusForm`).

Other behaviour of the code:

- `handleAdd` sends the draft. The draft has no legs field, and no page event sets
  its `kind`: not the loads, the pickers, the Single/Multi choice, the draft's own
  inputs, the leg actions or the handlers. `BetsPage.DraftStaysSingle` proves that
  the draft is of kind "Single" in every reachable state, and
  `BetsPage.MultiModeAddSendsSingle` reaches such a state in Multi mode, after the
  bets have loaded and a non-zero stake is typed, where the add button is enabled
  and the add succeeds. So a bet entered in Multi mode is sent as a "Single" bet without legs. What the backend does with it is
  outside the model: the created bet is a parameter.
- The update route replies with the row without its legs. After any edit of a
  Multi row, the replaced row's odds cell therefore shows the stored odds
  (`BetsPage.LeglessReplyShowsStoredOdds`).
- `handleDelete` drops every checked row from the list, even a row whose delete
  request failed. But no element of the page checks a row: the table enables row
  selection, yet no column renders a checkbox and nothing toggles a row. The
  selection stays empty, so the delete button stays disabled and `handleDelete`
  cannot be reached from this page (`BetsPage.DeleteNeverEnabled`).
- `parseValue` is handed to the column factory, but no column calls it. Numeric
  cells convert their input with `Number(...)` directly.

## Model

| member | source | states |
|---|---|---|
| Settlement.Decode | frontend/src/pages/betsColumns.tsx:317-342 | every stored result code reads as one of the six outcomes or as an unrecognised code, and encoding it gives back the same code |
| Settlement.DecodeEncode | frontend/src/pages/betsColumns.tsx:317-342 | each of the six outcomes, and each code outside 0–5, decodes back from its code |
| Settlement.GgrFor | frontend/src/pages/betsColumns.tsx:316-342 | the switch gives the Provider table value: lost −stake, won stake·(odds−1), lost-half −stake/2, won-half (stake/2)·(odds−1), else 0; for a Bettor channel it gives the negation |
| Settlement.FindChannel | frontend/src/pages/betsColumns.tsx:312 | the lookup finds nothing exactly when no channel has the id; otherwise it returns the first channel with that id |
| Settlement.RoleOf | frontend/src/pages/betsColumns.tsx:312-313 | the role is Provider when no channel matches, and otherwise the role of the first matching channel |
| Settlement.UnknownChannelIsProvider | frontend/src/pages/betsColumns.tsx:312-313 | a row whose channel id matches no channel is settled with the Provider figures |
| Settlement.BettorMirrorsProvider | frontend/src/pages/betsColumns.tsx:316-342 | for every code, stake and odds, the Bettor figure is the negation of the Provider figure |
| Settlement.NoRevenueWithoutSettlement | frontend/src/pages/betsColumns.tsx:336-342 | codes 4, 5 and every code outside 0–3 give 0 for either role, whatever the stake and odds |
| Settlement.HalfBackIsHalf | frontend/src/pages/betsColumns.tsx:318-335 | code 2 is worth half of code 0, and code 3 half of code 1, for either role |
| Settlement.GgrScalesWithStake | frontend/src/pages/betsColumns.tsx:316-342 | scaling the stake by k scales the GGR by k, for every code and role |
| Settlement.ProviderSign | frontend/src/pages/betsColumns.tsx:318-335 | for a non-negative stake a Provider row never gains on codes 0 and 2, and never loses on codes 1 and 3 at odds of at least 1 |
| Settlement.Ggr | frontend/src/pages/betsColumns.tsx:310-342 | a row's GGR is the Provider table value of its stored result, stake and odds, with the sign of its channel's role (+1 for Provider or an unknown channel, −1 for Bettor) |
| Settlement.GgrIgnoresLegs | frontend/src/pages/betsColumns.tsx:322-334 | replacing a row's legs never changes its GGR: the cell reads the stored odds field |
| Settlement.LegFactor | frontend/src/pages/betsColumns.tsx:115-116 | a leg contributes a non-zero factor: its odds when they are present and non-zero, and 1 when they are zero or missing |
| Settlement.LegFactors | frontend/src/pages/betsColumns.tsx:114-116 | the factors line up with the legs one for one and in order |
| Settlement.DisplayedOdds | frontend/src/pages/betsColumns.tsx:107-121 | a Multi row with legs shows the product of its leg factors, which is never 0; every other row shows its odds field |
| Settlement.DisplayedOddsOfUsableLegs | frontend/src/pages/betsColumns.tsx:109-117 | when every leg has present, non-zero odds, the displayed odds are the plain product of those odds |
| Settlement.DeadLegCountsAsOne | frontend/src/pages/betsColumns.tsx:114-116 | inserting a zero or missing leg anywhere leaves the displayed product unchanged |
| Settlement.AllDeadLegsShowOne | frontend/src/pages/betsColumns.tsx:114-117 | a Multi row whose legs are all zero or missing shows odds 1 |
| AddBetForm.EmptyEntry | frontend/src/pages/AddBetForm.tsx:42-50 | a blank leg has empty texts, blank odds, an empty goal line, result 0 and the given date |
| AddBetForm.AddEntry | frontend/src/pages/AddBetForm.tsx:64-66 | the list grows by one, earlier legs are unchanged, and the new last leg is the blank leg for the draft's date |
| AddBetForm.RemoveEntry | frontend/src/pages/AddBetForm.tsx:69-71 | an in-range index removes exactly that leg and keeps the others in order; an out-of-range index leaves the list unchanged |
| AddBetForm.RemoveUndoesAdd | frontend/src/pages/AddBetForm.tsx:64-71 | removing the leg just appended gives back the original list |
| AddBetForm.SetField | frontend/src/pages/AddBetForm.tsx:80-86 | only the addressed field changes; odds receive the parsed number (or NaN), every other field the text itself |
| AddBetForm.EntryChange | frontend/src/pages/AddBetForm.tsx:74-89 | the length is preserved, only the leg at the index changes and only in the addressed field, and every other leg is identical |
| AddBetForm.RewriteIsIdentity | frontend/src/pages/AddBetForm.tsx:79-88 | writing the current value of a text field (match, market, pick or date) back leaves the list unchanged |
| AddBetForm.EntryChangeIdempotent | frontend/src/pages/AddBetForm.tsx:79-88 | applying the same change twice equals applying it once |
| AddBetForm.TotalOdds | frontend/src/pages/AddBetForm.tsx:92-98 | the total is non-zero exactly when the list is non-empty and every leg has truthy odds, and it is then the product of the legs' odds |
| AddBetForm.AddedLegZeroesTotal | frontend/src/pages/AddBetForm.tsx:92-98 | after a blank leg is appended the total is 0 |
| AddBetForm.NeedsGoalsField | frontend/src/pages/AddBetForm.tsx:101-102 | the goal line is asked for exactly for the markets "Over/Under" and "Team Total Over/Under" |
| AddBetForm.GoalsFieldFollowsMarket | frontend/src/pages/AddBetForm.tsx:79-102 | an edit of any field other than the market leaves every leg's goal-line decision unchanged |
| AddBetForm.GoalsFieldOfChosenMarket | frontend/src/pages/AddBetForm.tsx:79-102 | after a market is chosen for a leg, that leg shows the goal line exactly when the market is one of the two goal-line markets |
| AddBetForm.Step | frontend/src/pages/AddBetForm.tsx:359-367 | a non-empty list stays non-empty under any action, because removal is disabled at one leg; adding grows the list by one; a change keeps its length |
| AddBetForm.Run | frontend/src/pages/AddBetForm.tsx:263-370 | a list that starts with at least one leg keeps at least one under any sequence of actions |
| BetsPage.EmptyEntry | frontend/src/pages/Bets.tsx:23-31 | the page's blank leg equals the form's blank leg except that it has no goal line and no result |
| BetsPage.DefaultDraft | frontend/src/pages/Bets.tsx:175-186 | the reset draft has stake 0, odds 0, result 0, currency "USD", kind "Single", empty texts, the given channel and noon of the given day |
| BetsPage.Initial | frontend/src/pages/Bets.tsx:34-65 | the page starts with no rows, no selection, channel 0, today selected, Single mode, not loading, a draft with channel 0, kind "Single", stake and odds 0, and exactly the page's blank leg dated noon today |
| BetsPage.ParseValue | frontend/src/pages/Bets.tsx:103-109 | stake, odds, result and channelId yield a number (the parsed one, or 0 for NaN); every other field yields its text unchanged |
| BetsPage.NumericFieldDefaultsToZero | frontend/src/pages/Bets.tsx:104-106 | a numeric field yields the parsed number, or 0 when the text parses to NaN |
| BetsPage.ParseValueDependsOnKind | frontend/src/pages/Bets.tsx:103-109 | two fields that are both numeric, or both not, give the same result for the same text |
| BetsPage.Day | frontend/src/pages/Bets.tsx:115 | the day is the first ten characters of the date, or the whole date when it is shorter |
| BetsPage.FilteredBets | frontend/src/pages/Bets.tsx:111-117 | every shown row is a loaded row of the selected channel and day, and every such loaded row is shown |
| BetsPage.FilteredBetsKeepOrder | frontend/src/pages/Bets.tsx:111-117 | filtering a concatenation filters each part and keeps their order |
| BetsPage.NoonOfDayIsVisible | frontend/src/pages/Bets.tsx:95-101 | a bet of the selected channel stamped at noon of the selected day passes the filter |
| BetsPage.ApplyEdit | frontend/src/pages/Bets.tsx:140 | the row sent after an edit differs from the original only in the edited field, which holds the new value |
| BetsPage.ReplaceById | frontend/src/pages/Bets.tsx:143-145 | the list keeps its length and ids; rows with the returned id become the returned row, all others are unchanged |
| BetsPage.HandleEdit | frontend/src/pages/Bets.tsx:139-149 | a failed update leaves the state unchanged; a successful one replaces rows by id and changes nothing else |
| BetsPage.EditReplacesOneRow | frontend/src/pages/Bets.tsx:140-145 | with unique ids and an echoing backend, exactly the edited row is replaced, and ids stay unique |
| BetsPage.LeglessReplyShowsStoredOdds | frontend/src/pages/Bets.tsx:142-145 | when the update reply carries no legs, which is what the update route returns, the replaced row's odds cell shows the reply's stored odds |
| BetsPage.ReplaceByIdIdempotent | frontend/src/pages/Bets.tsx:143-145 | applying the same returned row twice equals applying it once |
| BetsPage.SelectedIds | frontend/src/pages/Bets.tsx:152-154 | the ids acted on are exactly those whose selection flag is true |
| BetsPage.NothingSelectedInitially | frontend/src/pages/Bets.tsx:36 | an empty selection selects no id |
| BetsPage.CheckRow | frontend/src/pages/Bets.tsx:152-154 | checking a row adds exactly its id to the selected ids |
| BetsPage.UncheckRow | frontend/src/pages/Bets.tsx:152-154 | unchecking a row removes exactly its id from the selected ids |
| BetsPage.HandleDelete | frontend/src/pages/Bets.tsx:151-164 | no remaining row has a selected id, every unselected row remains, the list does not grow, the selection is empty, and nothing else changes |
| BetsPage.DeleteKeepsOrder | frontend/src/pages/Bets.tsx:162 | deleting from a concatenation deletes from each part and keeps the parts in order, so the kept rows are the unselected rows in their original order |
| BetsPage.DeleteWithoutSelection | frontend/src/pages/Bets.tsx:162 | with no row checked, deletion keeps every row in place and in order |
| BetsPage.DeleteIdempotent | frontend/src/pages/Bets.tsx:162-163 | a second delete changes nothing |
| BetsPage.HandleAdd | frontend/src/pages/Bets.tsx:166-190 | a draft with channel 0, or a failed request, changes nothing; on success the created bet is appended, the legs reset to one blank leg, the draft to its defaults, and the selection, filters and Single/Multi choice stay |
| BetsPage.AddedBetIsShownLast | frontend/src/pages/Bets.tsx:172-176 | a created bet of the selected channel stamped at noon of the selected day becomes the last row of the table |
| BetsPage.SyncDraft | frontend/src/pages/Bets.tsx:95-101 | the draft takes the selected channel and noon of the selected day, and nothing else changes |
| BetsPage.Choose | frontend/src/pages/Bets.tsx:210-229 | picking the current channel and day changes nothing; otherwise the pickers hold the new choice and the draft takes it, stamped at noon, with the rows, legs, mode and selection kept |
| BetsPage.ChannelsLoaded | frontend/src/pages/Bets.tsx:76-92 | no channels change nothing; otherwise the selected channel stays if set and becomes the first channel if not, and the draft takes the first channel and noon of the selected day |
| BetsPage.EditDraft | frontend/src/pages/AddBetForm.tsx:122-245 | each input writes only its own field and leaves the rest of the draft as it was: the stake and odds read through `Number(...)`, `""` typed into the odds leaves them empty, focus clears odds of 0, blur turns empty odds or 0 into 0 and keeps any other value, the date is stamped at noon; channel and kind never change |
| BetsPage.Apply | frontend/src/pages/Bets.tsx:67-259 | no page event empties the leg list, gives the draft a kind other than "Single" or checks a row; only the Single/Multi choice changes the mode; mounting starts loading and the bets' reply or failure ends it; the add-leg button appends a blank leg dated like the draft; a click on the disabled add or delete button changes nothing, and an enabled add is `handleAdd` |
| BetsPage.ApplyAll | frontend/src/pages/Bets.tsx:67-259 | no sequence of page events empties a non-empty leg list, changes a "Single" draft's kind or checks a row when none is checked |
| BetsPage.LegsNeverEmpty | frontend/src/pages/Bets.tsx:63-65 | starting from the initial page, the leg list is never empty |
| BetsPage.DraftStaysSingle | frontend/src/pages/Bets.tsx:50-61 | in every state reachable from the initial page by any events, including the Single/Multi choice and every draft input, the draft that an add sends is of kind "Single" |
| BetsPage.DeleteNeverEnabled | frontend/src/pages/Bets.tsx:195-253 | from the initial page no row is ever checked, so the delete button is never enabled |
| BetsPage.MultiModeAddSendsSingle | frontend/src/pages/AddBetForm.tsx:372-378 | after the mount, the bets' arrival, a channel pick, the switch to Multi and a non-zero stake, the add button is enabled, the draft has that channel and stake and kind "Single", and the add appends the created bet |
| Scenarios.WonSingle | frontend/src/pages/betsColumns.tsx:321-326 | a won single at 2.5 for 100 gives +150 on a Provider channel and −150 on a Bettor channel |
| Scenarios.LostAndHalfBackSingles | frontend/src/pages/betsColumns.tsx:318-335 | a lost single for 100 gives −100; a half-back win at 3.0 for 100 gives +100 |
| Scenarios.OpenBetIsZero | frontend/src/pages/betsColumns.tsx:336-339 | an open bet gives 0 for any stake, odds and channel |
| Scenarios.ThreeLegProduct | frontend/src/pages/betsColumns.tsx:114-116 | legs at 1.5, 2.0 and 1.8 show 5.4 in the table and total 5.4 in the form |
| Scenarios.ZeroLegTableVersusForm | frontend/src/pages/betsColumns.tsx:114-116 | with legs 2.0 and 0 the table shows 2.0, while the form's total is 0 |
| Scenarios.MultiGgrUsesStoredOdds | frontend/src/pages/betsColumns.tsx:322-326 | a won Multi bet for 50 displays odds 3.0, but its GGR is −50 from the stored odds 0, where the displayed odds would give 100 |

## Left out

- Rendering: the MUI widgets, the edit-cell focus and blur toggling, the labels per language, and the `[leer]` placeholders. They hold no logic.
- Async requests, `alert` and React hooks. Each handler's request is replaced by its response, passed in as a parameter.
- The backend routes and the HTTP wrappers, which do I/O. They do shape their replies: the update route drops the legs and replies with the row without them, and the create route stores legs only for a "Multi" bet that has some. A reply is a parameter of the handler, so the model takes it as given.
- EditReplacesOneRow: assumes the reply echoes the edited row. For a row with legs this does not hold, because the update reply has no legs; `LeglessReplyShowsStoredOdds` covers that case.
- IEEE-754 arithmetic, NaN propagation through arithmetic, and `toFixed(2)` formatting. Exact reals stand in for floats, and the figures keep full precision.
- The syntax of JavaScript's `Number(...)`. It is the `parse` parameter.
- The string round trip of selection keys (`Object.keys` and `Number(id)`). The selection is a map from row ids.
- The result codes in the model are integers. The source's switch sends any non-integer code to its default branch, which also yields 0.
- The handlers' cell values are typed (`BetEdit`). A stake cell whose text `Number(...)` reads as NaN is not modelled.
- ChannelsLoaded: stamps the draft with the day selected when the channels arrive. The source's callback reads the day captured at mount, which differs only if the day was changed while the request was pending.
- EditDraft: a blur over odds that read as NaN keeps NaN. What the browser shows in a number input for NaN is not modelled.
- The language switch and the spinner. They change only what is shown. The loading flag is modelled, as it disables the add and delete buttons.
- The market and pick option lists, and the result label lists. They live in modules that are not part of this model.
