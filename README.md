# Badminton expense tracker — a verified model of its core

The application records badminton sessions. A session has:
- a date, an optional end time, the players who took part;
- a list of expenses (court fee, shuttlecocks, drinks, equipment, other);
- an optional divide set per expense, naming the players who share it.

This Dafny project models the logic behind the screens:

- **Splitting** (`ExpenseUtils`): one session becomes a grand total and a share per player. The model is a method with loops, proved against the specification function `Share`. Total, per-player shares, conservation and the empty divide set are proved about it.
- **Statistics** (`Stats`): all sessions, grouped by month, by expense type and by player. Each reducer is a method that fills a map in a loop, proved against a grouping function, then sorted.
- **Store** (`Storage`): a class with two lists, `sessions` and `players`. Each operation reads the whole list, changes it and writes it back. Read and write failures and the new record's id are parameters.
- **Payment tracking** (`Payment`): the paid-flag map of the distribution panel, with the totals, the all-paid test, the bar width and the shortfall note derived from it.
- **Form** (`SessionForm`, shared by both session screens): the toggles, the add-expense checks, duration with wrap past midnight, the court fee and the submit checks. `NewSession` adds a player on the spot and saves a new session. `EditSession` seeds the form from a stored session and saves the original with the form spread over it.
- **Home list** (`Home`): the search, time-range and location filters, and the six sort options, using a stable insertion sort (`Sorting`).
- **Share report** (`Report`): the text message both share buttons build line by line, and where each button delivers it.
- **Time picker** (`DatePicker`): the web picker's "HH:MM" formatting and the reading back of typed text. Timestamps are milliseconds; `Clock` gives their day/hour/minute arithmetic.

Amounts are real numbers. `Math.round` is rounding to the nearest integer with halves rounded up (`Types.Round`).

Collaborators the model does not interpret are parameters, functions with no stated properties:
- currency and date formatting, `localeCompare` (modelled as a collation rank), `toLowerCase`;
- reading a date string, the local calendar month of a timestamp;
- the current time and the id generator.

Where the type comment and the code disagree, the model follows the code. An expense whose divide set is present but empty is charged to nobody (`ExpenseUtils.EmptyListSelectsNobody`). It is not split among everyone, as the comment on `divideAmong` in `src/models/types.ts:24` suggests.

## Model

| member | source | states |
|---|---|---|
| Types.TypeOfTag | src/models/types.ts:10-16 | a tag that reads as an expense type is that type's tag |
| Types.ExpenseTypesAreFive | src/models/types.ts:10-16 | there are exactly five expense types with five distinct tags, and tags read back to their type |
| Types.TagLabelDefault | src/components/ShareButton.tsx:91-105 | the generic label "Chi phí" is given exactly to strings that are not one of the five tags |
| Types.TagLabel | src/components/ShareButton.tsx:91-105 | the display label of a stored tag: one Vietnamese label per expense type, and "Chi phí" exactly for a tag outside the five (`Types.TagLabelDefault`) |
| Types.Label | src/components/web/WebShareButton.tsx:129-143 | an expense type is never shown with the generic label |
| Types.WithId | src/services/storageService.ts:37-47 | a stored session is the draft's fields plus the given id, all kept |
| Types.FlatTotalNonNegative | src/screens/HomeScreen.tsx:301-304 | the flat sum of non-negative amounts is non-negative |
| Types.FlatTotalAppend | src/screens/StatsScreen.tsx:69-71 | the flat sum of two expense lists is the sum of their flat sums |
| Types.PlayerIds | src/screens/EditSessionScreen.tsx:80 | the id list has one entry per player, in the same order |
| Types.Round | src/screens/NewSessionScreen.tsx:229 | the rounded value is within one half of the input, halves rounded up |
| ExpenseUtils.Listed | src/utils/expenseUtils.ts:25 | the filter keeps exactly the session players whose id is listed |
| ExpenseUtils.DivideSet | src/utils/expenseUtils.ts:24-26 | no divide set means every player; a present one, even empty, means the listed players only |
| ExpenseUtils.Contribution | src/utils/expenseUtils.ts:24-36 | what one expense adds under an id: the per-head amount once for each entry of its divide set with that id, nothing for an empty divide set (`ExpenseUtils.ContributionUndivided`, `ExpenseUtils.ContributionDivided`) |
| ExpenseUtils.Share | src/utils/expenseUtils.ts:20-36 | the amount kept under an id after the expenses in order; `ExpenseUtils.CalculateExpenses` leaves exactly this for every player, and the shares add up to the total (`ExpenseUtils.Conservation`) |
| ExpenseUtils.CalculateExpenses | src/utils/expenseUtils.ts:8-40 | the total is the sum of all amounts; the keys are exactly the players' ids; each share is the specification's `Share`; no players gives an empty map, no expenses a zero total |
| ExpenseUtils.ZeroSplit | src/utils/expenseUtils.ts:15-17 | every player's id starts at 0 and there are no other keys |
| ExpenseUtils.SplitExpense | src/utils/expenseUtils.ts:20-36 | one expense keeps the key set and moves every share from the old expense list to the list with the expense appended |
| ExpenseUtils.AddToEach | src/utils/expenseUtils.ts:34-36 | each id gains the per-head amount once per time its player is in the divide set; the keys do not change |
| ExpenseUtils.ShareSnoc | src/utils/expenseUtils.ts:31-36 | appending an expense raises a share by exactly that expense's contribution |
| ExpenseUtils.ContributionUndivided | src/utils/expenseUtils.ts:24-31 | with unique ids, an expense with no divide set charges each player amount / number of players |
| ExpenseUtils.ContributionDivided | src/utils/expenseUtils.ts:24-31 | with unique ids, a divided expense charges amount / k to listed players and nothing to the others; k counts matching players, ignoring unknown and repeated ids |
| ExpenseUtils.DivideSetEmptyIff | src/utils/expenseUtils.ts:24-28 | the divide set is empty exactly when there are no players, or when a divide set lists none of them |
| ExpenseUtils.EmptyDivideSetChargesNobody | src/utils/expenseUtils.ts:28 | an expense with an empty divide set charges nobody |
| ExpenseUtils.EmptyListSelectsNobody | src/utils/expenseUtils.ts:24-25 | a present but empty divide list selects no player |
| ExpenseUtils.CountIdUnique | src/utils/expenseUtils.ts:34-35 | with unique ids each id occurs at most once among the players charged |
| ExpenseUtils.ListedUnique | src/utils/expenseUtils.ts:25 | filtering keeps ids unique |
| ExpenseUtils.TimesIsProduct | src/utils/expenseUtils.ts:34-35 | adding the per-head amount n times is n times the amount |
| ExpenseUtils.OneExpenseConserved | src/utils/expenseUtils.ts:28-36 | with unique ids and a non-empty divide set, one expense's charges add up to its amount |
| ExpenseUtils.Conservation | src/utils/expenseUtils.ts:20-36 | with unique ids and every divide set non-empty, the shares add up to the total |
| ExpenseUtils.Scenario | src/utils/expenseUtils.ts:20-36 | worked case: 300000 for three players and 90000 for two of them gives 145000, 145000 and 100000 out of 390000 |
| Stats.LoadOrder | src/screens/StatsScreen.tsx:33-35 | the loaded sessions are a permutation of the stored ones, newest first |
| Stats.MonthYearKey | src/screens/StatsScreen.tsx:46-49 | the "month/year" key of a month; it splits back into that month (`Stats.KeyRoundTrip`) and differs between months (`Stats.KeyInjective`) |
| Stats.MonthLabel | src/screens/StatsScreen.tsx:52-55 | "Tháng " and the first two `/`-separated parts of the key, "undefined" for a missing second part; for a month's own key, "Tháng " and the key (`Stats.MonthLabelOfKey`) |
| Stats.KeyCompare | src/screens/StatsScreen.tsx:76-85 | later year first, then later month: negative exactly when the first key is the later month and zero only for the same month (`Stats.CompareIsRank`) |
| Stats.KeyRoundTrip | src/screens/StatsScreen.tsx:46-55 | a "month/year" key splits at '/' into the month and year numerals and reads back to the same month |
| Stats.KeyInjective | src/screens/StatsScreen.tsx:46-49 | different months have different keys |
| Stats.MonthLabelOfKey | src/screens/StatsScreen.tsx:52-55 | a month's display is "Tháng " followed by its key |
| Stats.CompareIsRank | src/screens/StatsScreen.tsx:76-85 | the key comparator puts later months first (year, then month) and is zero only on the same month |
| Stats.SeenKeys | src/screens/StatsScreen.tsx:62-67 | the month keys in order of first appearance are distinct |
| Stats.SeenKeysAre | src/screens/StatsScreen.tsx:62-74 | a key is listed exactly when some session falls in that month; listed keys are well formed; unlisted months total 0 |
| Stats.MonthTableOf | src/screens/StatsScreen.tsx:59-74 | the loop leaves, for every month seen, that month's flat total and session count, and keys in order of first appearance |
| Stats.CountSession | src/screens/StatsScreen.tsx:63-73 | one session creates its month's entry at zero if it is new, then adds its flat total and one session |
| Stats.AddAmounts | src/screens/StatsScreen.tsx:69-71 | the inner loop adds the session's flat total to its own month only |
| Stats.StatsByMonth | src/screens/StatsScreen.tsx:58-91 | one row per distinct month, with display, total and count (at least 1) of that month, strictly newest month first |
| Stats.SortedKeysStrict | src/screens/StatsScreen.tsx:76-85 | distinct keys sorted by rank are strictly ordered by the comparator |
| Stats.MonthsCover | src/screens/StatsScreen.tsx:62-74 | over distinct keys covering every session, counts add up to the number of sessions and totals to the grand total |
| Stats.MonthRowsPartition | src/screens/StatsScreen.tsx:58-91 | the month rows' counts add up to the number of sessions and their totals to the grand total |
| Stats.MonthCountPositive | src/screens/StatsScreen.tsx:73 | every session's own month counts at least one session |
| Stats.TypeEntries | src/screens/StatsScreen.tsx:95-101 | always five rows, one per type in declaration order, each the total of that type |
| Stats.AddByType | src/screens/StatsScreen.tsx:103-107 | adding a session's expenses raises each type by the sum of that type's amounts |
| Stats.StatsByType | src/screens/StatsScreen.tsx:94-115 | the five rows, permuted into non-increasing amount order |
| Stats.StatsByTypeStable | src/screens/StatsScreen.tsx:109-114 | types with equal amounts keep declaration order |
| Stats.TypeSumsPartition | src/screens/StatsScreen.tsx:103-107 | the five per-type sums of a list add up to its flat total |
| Stats.TypeTotalsPartition | src/screens/StatsScreen.tsx:95-107 | the five per-type totals add up to the grand total |
| Stats.ByTypeTotal | src/screens/StatsScreen.tsx:205 | the total shown above the type rows is the grand total |
| Stats.GrandTotalZero | src/screens/StatsScreen.tsx:207 | with non-negative amounts, the grand total is zero exactly when every amount is zero |
| Stats.Percent | src/screens/StatsScreen.tsx:229 | a type's share of the total in whole percent, rounded half up; between 0 and 100 for a part of a positive total (`Stats.PercentBounds`) |
| Stats.ByTypeEmpty | src/screens/StatsScreen.tsx:205-213 | with non-negative amounts, the "no data" view is shown exactly when every amount is zero |
| Stats.PercentBounds | src/screens/StatsScreen.tsx:229 | a type's rounded percentage lies between 0 and 100 |
| Stats.SessionCredits | src/screens/StatsScreen.tsx:125-135 | a session credits each listed player the flat total / number of players, in player order |
| Stats.FirstSeen | src/screens/StatsScreen.tsx:139-145 | the players in order of first appearance have unique ids |
| Stats.PlayerEntries | src/screens/StatsScreen.tsx:118-150 | one row per player id seen, named as first seen, with that id's session count and credited sum |
| Stats.FirstSeenCovers | src/screens/StatsScreen.tsx:139-145 | an id has a row exactly when it was credited at least once; an id with no row was credited nothing |
| Stats.CreditKnown | src/screens/StatsScreen.tsx:146-148 | a known player's row gains one session and the credit, the others stay |
| Stats.CreditNew | src/screens/StatsScreen.tsx:139-148 | a new player gets a row with that player's name, one session and the credit |
| Stats.CreditPlayer | src/screens/StatsScreen.tsx:137-149 | the inner loop body credits one player and keeps the table consistent with the credits so far |
| Stats.CreditSession | src/screens/StatsScreen.tsx:121-149 | one session credits each of its players; a session with no players changes nothing |
| Stats.SessionTotal | src/screens/StatsScreen.tsx:125-128 | the session total is the flat sum of its amounts |
| Stats.StatsByPlayer | src/screens/StatsScreen.tsx:118-153 | the player rows, permuted into non-increasing paid order |
| Stats.SessionCreditsRule | src/screens/StatsScreen.tsx:131-149 | a session adds to an id one session and one per-head credit per time the id is listed |
| Stats.PlayerEntriesCounted | src/screens/StatsScreen.tsx:141-147 | every player row counts at least one session |
| Stats.Average | src/screens/StatsScreen.tsx:195 | the average times the count is the total |
| Stats.FlatSplitAgrees | src/screens/StatsScreen.tsx:125-135 | with no divide sets, the statistics' flat share equals the splitter's share |
| Stats.FlatSplitDiverges | src/screens/StatsScreen.tsx:125-135 | worked case of the divergence: the statistics credit a player 130000 while the splitter charges them 100000 |
| Stats.SessionCreditsTotal | src/screens/StatsScreen.tsx:125-135 | a session with players credits its whole flat total in all; one without credits nothing |
| Stats.CreditsTotal | src/screens/StatsScreen.tsx:121-149 | all credits add up to the total of the sessions that have players |
| Stats.PaidByFirstSeen | src/screens/StatsScreen.tsx:139-148 | the first-seen players' sums add up to all credits |
| Stats.PlayerRowsConserve | src/screens/StatsScreen.tsx:152 | the paid column of any permutation of the rows adds up to the played total |
| Storage.Read | src/services/storageService.ts:24-32 | a missing key or a failed read gives the empty list, otherwise the stored list |
| Storage.UpdateFound | src/services/storageService.ts:59-64 | after an update the id is found first at the same position, and repeating the update changes nothing |
| Storage.Store.constructor | src/services/storageService.ts:6-7 | a fresh store has neither key |
| Storage.Store.GetSessions | src/services/storageService.ts:24-32 | the sessions read as `Read` gives them |
| Storage.Store.SaveSessions | src/services/storageService.ts:12-19 | a write stores the list, a failed write keeps the old value; the players are untouched |
| Storage.Store.AddSession | src/services/storageService.ts:37-52 | exactly one session, the draft with the id, is appended after what was read and returned; the players are untouched |
| Storage.Store.UpdateSession | src/services/storageService.ts:57-72 | only the first session with the id is replaced; an unknown id errs and writes nothing |
| Storage.Store.DeleteSession | src/services/storageService.ts:77-86 | every session with the id is removed, the rest kept in order |
| Storage.Store.GetPlayers | src/services/storageService.ts:103-111 | the players read as `Read` gives them |
| Storage.Store.SavePlayers | src/services/storageService.ts:91-98 | a write stores the list, a failed write keeps the old value; the sessions are untouched |
| Storage.Store.AddPlayer | src/services/storageService.ts:116-131 | the player, with the name exactly as given, is appended and returned; the sessions are untouched |
| Storage.Store.DeletePlayer | src/services/storageService.ts:136-145 | every player with the id is removed from the players list only; players stored inside sessions stay |
| Lists.FirstIndex | src/services/storageService.ts:59-60 | `findIndex`: none exactly when no element has the id, otherwise the first position with it |
| Lists.FirstIndexAt | src/screens/EditSessionScreen.tsx:70 | a position with the id and none before it is the one found |
| Lists.Without | src/services/storageService.ts:79-81 | `filter` by id: never longer than the list; it keeps exactly the elements with another id (`Lists.WithoutMembers`), in order (`Lists.WithoutAppend`) |
| Lists.WithoutMembers | src/services/storageService.ts:79-81 | the filter keeps exactly the elements without the id |
| Lists.WithoutAppend | src/services/storageService.ts:79-81 | filtering keeps relative order |
| Lists.WithoutAbsent | src/services/storageService.ts:79-81 | deleting an absent id changes nothing |
| Lists.WithoutIdempotent | src/services/storageService.ts:79-81 | deleting twice is deleting once |
| Lists.WithoutDistinct | src/screens/NewSessionScreen.tsx:89-95 | filtering a duplicate-free list keeps it duplicate-free |
| Lists.ToggleId | src/screens/NewSessionScreen.tsx:89-95 | adds an absent id at the end and removes a present one (`Lists.ToggleMembers`, `Lists.ToggleTwice`, `Lists.ToggleDistinct`) |
| Lists.ToggleMembers | src/screens/NewSessionScreen.tsx:89-95 | toggling an id adds it when absent and removes it when present; other ids keep their membership |
| Lists.ToggleTwice | src/screens/NewSessionScreen.tsx:89-95 | toggling an absent id twice restores the list; toggling a present id twice moves it to the end |
| Lists.ToggleDistinct | src/screens/NewSessionScreen.tsx:89-95 | toggling keeps a duplicate-free list duplicate-free |
| Payment.Toggled | src/components/ExpenseDistribution.tsx:46-51 | only the named flag flips (a missing flag counts as false), all others stay |
| Payment.ToggleTwice | src/components/ExpenseDistribution.tsx:46-51 | toggling twice restores every flag's value |
| Payment.PaymentPanel.constructor | src/components/ExpenseDistribution.tsx:36-38 | no player starts marked |
| Payment.PaymentPanel.TogglePaymentStatus | src/components/ExpenseDistribution.tsx:46-51 | the flag map becomes the toggled map |
| Payment.SortedPlayers | src/components/ExpenseDistribution.tsx:41 | a permutation of the rows in non-increasing amount order |
| Payment.MaxAmount | src/components/ExpenseDistribution.tsx:44 | at least 1 and every amount, and equal to 1 or to some amount |
| Payment.BarWidth | src/components/ExpenseDistribution.tsx:154-157 | at least 5, and at most 100 for a listed player |
| Payment.AllPaid | src/components/ExpenseDistribution.tsx:54 | every listed player is marked paid (`Payment.AllPaidIff`), in whatever order the rows are (`Payment.AllPaidSorted`) |
| Payment.TotalPaid | src/components/ExpenseDistribution.tsx:57-59 | the sum of the amounts of the players marked paid (`Payment.TotalPaidIsSum`), between 0 and the sum of all shares for non-negative amounts (`Payment.CollectedBounds`) |
| Payment.Remaining | src/components/ExpenseDistribution.tsx:62 | the total less what is collected; it does not depend on the order of the rows (`Payment.TotalPaidSorted`), and it is between 0 and the total when the total is at least the sum of the non-negative shares (`Payment.RemainingNonNegative`) |
| Payment.ShowShortfall | src/components/ExpenseDistribution.tsx:143 | the shortfall note: when the total equals the sum of the shares, never once everyone is paid, and while shown somebody is paid and somebody is not (`Payment.ShortfallMeaning`); when the total exceeds that sum, shown even with everyone paid (`Payment.ShortfallWhileAllPaid`) |
| Payment.AllPaidIff | src/components/ExpenseDistribution.tsx:54 | all paid exactly when every listed player is flagged; true for no players |
| Payment.AllPaidSorted | src/components/ExpenseDistribution.tsx:41-54 | sorting does not change whether all have paid |
| Payment.TotalPaidIsSum | src/components/ExpenseDistribution.tsx:57-59 | the reduce is the sum of the flagged players' amounts |
| Payment.TotalPaidSorted | src/components/ExpenseDistribution.tsx:41-59 | sorting does not change the total paid |
| Payment.NobodyPaid | src/components/ExpenseDistribution.tsx:57-59 | nobody flagged means nothing paid |
| Payment.EveryonePaid | src/components/ExpenseDistribution.tsx:54-59 | everybody flagged means the whole of the shares is paid |
| Payment.CollectedBounds | src/components/ExpenseDistribution.tsx:57-59 | with non-negative amounts, the total paid lies between 0 and the sum of the shares |
| Payment.ShortfallMeaning | src/components/ExpenseDistribution.tsx:62-143 | when the total is the sum of shares, the shortfall note shows only when some but not all have paid, and never when all have |
| Payment.RemainingNonNegative | src/components/ExpenseDistribution.tsx:57-62 | with non-negative shares and a total at least their sum, what remains is between 0 and the total |
| Payment.ShortfallWhileAllPaid | src/components/ExpenseDistribution.tsx:54-143 | with everyone paid and a total above the positive sum of the shares, the shortfall note still shows |
| SessionForm.WithType | src/screens/NewSessionScreen.tsx:310-319 | changing the type keeps amount and description; drink, equipment and other keep the selection, court fee and shuttle clear it |
| SessionForm.NeedsPlayerSelection | src/screens/NewSessionScreen.tsx:282-288 | the player choice is shown exactly for the types other than court fee and shuttle (the edit screen's copy is `EditSessionScreen.tsx:307-313`) |
| SessionForm.NewExpense | src/screens/NewSessionScreen.tsx:96-122 | refused exactly for an empty or zero amount, or for a type needing a selection with none; otherwise the expense holds the parsed positive amount and the selection, or none when the selection is empty |
| SessionForm.AddedExpenseHasPayers | src/screens/NewSessionScreen.tsx:103-122 | an added expense of a selecting type has a divide set, and any divide set it has is non-empty |
| SessionForm.MinuteOfDay | src/screens/NewSessionScreen.tsx:206-210 | a time's minute of the day lies in 0..1439 |
| SessionForm.DurationMinutes | src/screens/NewSessionScreen.tsx:200-221 | the duration lies between 0 and 1440 minutes |
| SessionForm.DurationWholeMinutes | src/screens/NewSessionScreen.tsx:200-221 | on whole minutes the duration is (end - start) mod 1440, below 1440, and 0 for equal times |
| SessionForm.CourtFeeFor | src/screens/NewSessionScreen.tsx:224-232 | zero without duration or rate text; not a number exactly when the rate text is not a number; otherwise within one half of rate × minutes / 60 |
| SessionForm.CourtFeeCheck | src/screens/NewSessionScreen.tsx:234-252 | the corrected checks pass exactly for rate text that reads as a positive number, an end time that is set and a positive fee |
| SessionForm.CourtFeeCheckAsWritten | src/screens/NewSessionScreen.tsx:234-252 | the checks as written: what passes has rate text and an end time, and a rate or fee that is a number is positive; a rate or fee that is NaN passes (`SessionForm.NaNRateSlipsThrough`) |
| SessionForm.CourtFeeCheckSound | src/screens/NewSessionScreen.tsx:234-252 | with the corrected checks, a fee that passes comes from a positive rate, a duration in 1..1440 and is a positive number |
| SessionForm.CourtFeeChecksAgree | src/screens/NewSessionScreen.tsx:235-252 | the corrected checks and the checks as written agree whenever the rate text is a number |
| SessionForm.ParseFloatLetters | src/screens/NewSessionScreen.tsx:381-386 | "abc" and "." do not read as numbers |
| SessionForm.NaNRateSlipsThrough | src/screens/NewSessionScreen.tsx:234-252 | as written, rate text that is not a number passes every check when the end time gives a non-zero duration (an end time of day not within the half minute after the date's), and the fee is not a number; the corrected checks refuse it |
| SessionForm.ZeroDurationRefused | src/screens/NewSessionScreen.tsx:200-252 | the duration is zero exactly when the end time of day falls within the half minute that starts at the date's, and then even the checks as written refuse the fee |
| SessionForm.DurationText | src/screens/NewSessionScreen.tsx:263-265 | the duration text is empty exactly for zero minutes |
| SessionForm.CourtFeeOutcome | src/screens/NewSessionScreen.tsx:234-279 | an added fee is a court-fee expense with no divide set and a positive amount, for a positive rate and a set end time |
| SessionForm.CourtFeeOutcomeAmount | src/screens/NewSessionScreen.tsx:254-275 | an added fee's amount is within one half of rate × minutes / 60, and its description is built from hours = minutes div 60 and minutes mod 60 |
| SessionForm.SelectPlayers | src/screens/NewSessionScreen.tsx:170-172 | the selected players are at most all known players |
| SessionForm.SelectPlayersMembers | src/screens/NewSessionScreen.tsx:170-172 | a player is saved exactly when known and selected |
| SessionForm.SelectPlayersDropsUnknown | src/screens/EditSessionScreen.tsx:337-339 | an id that is no longer among the known players is not saved |
| SessionForm.SelectPlayersAppend | src/screens/NewSessionScreen.tsx:170-172 | the saved players keep the known players' order |
| SessionForm.NotesValue | src/screens/EditSessionScreen.tsx:354 | notes are absent exactly when blank, otherwise the trimmed, non-empty text |
| SessionForm.RateValue | src/screens/NewSessionScreen.tsx:176-178 | no rate without text, and a digit string's decimal value |
| SessionForm.SubmitCheck | src/screens/NewSessionScreen.tsx:155-168 | the form passes exactly when the trimmed location is non-empty and some player and some expense exist |
| SessionForm.Form.constructor | src/screens/NewSessionScreen.tsx:21-57 | a blank form dated now with the loaded players and the court-fee draft |
| SessionForm.Form.OnChangeDate | src/screens/NewSessionScreen.tsx:58-63 | a picked date replaces the date; a dismissed picker keeps it |
| SessionForm.Form.HandleEndTimeChange | src/screens/NewSessionScreen.tsx:66-71 | a picked time becomes the end time; a dismissed picker keeps it |
| SessionForm.Form.SetCourtFeeText | src/screens/NewSessionScreen.tsx:381-386 | the new-session rate input stores the text as typed |
| SessionForm.Form.SetAmountText | src/screens/NewSessionScreen.tsx:493-497 | the amount input keeps only the digits; nothing else in the draft changes |
| SessionForm.Form.TogglePlayerSelection | src/screens/NewSessionScreen.tsx:89-95 | the selection becomes the toggled selection |
| SessionForm.Form.TogglePlayerInExpense | src/screens/NewSessionScreen.tsx:291-307 | only the draft's selection changes, by toggling the id |
| SessionForm.Form.HandleExpenseTypeChange | src/screens/NewSessionScreen.tsx:310-319 | the draft becomes `WithType` of the old draft |
| SessionForm.Form.HandleAddExpense | src/screens/NewSessionScreen.tsx:96-131 | on success exactly one expense is appended and the draft reset; otherwise the expenses and the draft stay |
| SessionForm.Form.RemoveExpense | src/screens/NewSessionScreen.tsx:133-135 | every expense with the id is removed, the rest kept in order |
| SessionForm.Form.CalculateDuration | src/screens/NewSessionScreen.tsx:200-221 | the loop-free date arithmetic gives the specification's duration, absent without an end time |
| SessionForm.Form.CalculateCourtFee | src/screens/NewSessionScreen.tsx:224-232 | the fee is the specification's `CourtFeeFor` |
| SessionForm.Form.AddCourtFeeFromRate | src/screens/NewSessionScreen.tsx:234-279 | the corrected outcome; an added fee is appended exactly once, a refusal changes nothing |
| NewSession.SubmittedDraft | src/screens/NewSessionScreen.tsx:170-189 | the draft takes the form's fields: the known selected players, the trimmed location, non-blank notes, the typed rate, no payment flags |
| NewSession.SubmittedDraftShape | src/screens/NewSessionScreen.tsx:155-189 | a draft that passes the checks has a trimmed non-empty location, an expense, a duration exactly when it has an end time, and trimmed notes |
| NewSession.AddedPlayerTakesPart | src/screens/NewSessionScreen.tsx:73-87 | a player added on the screen is saved with the next session |
| NewSession.HandleAddPlayer | src/screens/NewSessionScreen.tsx:73-87 | a blank name is refused; otherwise the trimmed name is stored, known and selected, and the input cleared; a failed write changes nothing |
| NewSession.HandleSubmit | src/screens/NewSessionScreen.tsx:154-197 | a refused form writes nothing; otherwise the draft with the id is appended to the stored sessions |
| EditSession.Edited | src/screens/EditSessionScreen.tsx:347-357 | the saved session keeps the original's id and payment flags and takes the form's fields |
| EditSession.SelectAll | src/screens/EditSessionScreen.tsx:337-339 | selecting every id of a list keeps the whole list |
| EditSession.SaveUnchanged | src/screens/EditSessionScreen.tsx:67-90 | opening a session already in saved shape and saving it untouched writes back the same session |
| EditSession.SessionPlayersKept | src/screens/EditSessionScreen.tsx:337-339 | with the session's own players as the known ones, nobody is dropped on save |
| EditSession.DigitRateHasFee | src/screens/EditSessionScreen.tsx:442-444 | digit-only rate text always yields a number fee and its decimal value as the rate |
| EditSession.EditScreen.constructor | src/screens/EditSessionScreen.tsx:35-50 | a blank form with the known players, nothing seeded, loading |
| EditSession.EditScreen.LoadSession | src/screens/EditSessionScreen.tsx:67-102 | the first stored session with the id seeds the form, end time and a non-zero rate only when present; a missing session seeds nothing; loading ends either way |
| EditSession.EditScreen.SetCourtFeeText | src/screens/EditSessionScreen.tsx:442-444 | the rate input keeps only the digits |
| EditSession.EditScreen.HandleSubmit | src/screens/EditSessionScreen.tsx:315-365 | no update when a check fails or no session was loaded; otherwise the edited session replaces the first stored one with its id |
| Home.Keep | src/screens/HomeScreen.tsx:69-100 | a filter keeps exactly the sessions that pass, never adds any, and keeps a list that all pass |
| Home.KeepAppend | src/screens/HomeScreen.tsx:69-100 | a filter keeps relative order |
| Home.WindowStart | src/screens/HomeScreen.tsx:80-91 | "week" starts 7 days before now, any other range 30 days |
| Home.Meets | src/screens/HomeScreen.tsx:69-100 | the search looks in the location and in non-empty notes, the time range keeps dates in the closed window, the location filter looks in the location only |
| Home.Filtered | src/screens/HomeScreen.tsx:66-100 | each filter applied only when set; the result is a sub-multiset holding exactly the sessions that pass every set filter, and the whole list with none set (`Home.FilteredMeaning`) |
| Home.FilteredMeaning | src/screens/HomeScreen.tsx:66-100 | the filters only remove; a session stays exactly when it passes every set filter; with none set nothing changes |
| Home.CostKey | src/screens/HomeScreen.tsx:114-131 | the cost is the flat expense sum, non-negative for non-negative amounts and 0 for no expenses |
| Home.SortKey | src/screens/HomeScreen.tsx:103-136 | the key each sort option orders by, largest first; sorting by it gives the order the option promises (`Home.SortedOrdered`), and an unknown option keeps the order (`Home.UnknownOptionKeepsOrder`) |
| Home.SortedOrdered | src/screens/HomeScreen.tsx:103-132 | a list sorted by an option's key is in the order that option names: by date, by duration with missing as 0, or by flat cost |
| Home.UnknownOptionKeepsOrder | src/screens/HomeScreen.tsx:133-134 | an unknown option keeps the order |
| Home.LoadSessions | src/screens/HomeScreen.tsx:48-63 | the list is a permutation of the stored sessions, newest first |
| Home.ApplyFilters | src/screens/HomeScreen.tsx:65-139 | the shown sessions are a permutation of the filtered ones, ordered as the option promises, equal-ranked sessions in filtered order |
| Report.NotesLine | src/components/ShareButton.tsx:29-31 | the notes line appears exactly when there are non-empty notes |
| Report.NameOf | src/components/ShareButton.tsx:52 | an id no player has gives the empty name |
| Report.NamesOf | src/components/ShareButton.tsx:51-55 | at most one name per id, and no empty name |
| Report.NamesOfUnknown | src/components/ShareButton.tsx:52-54 | an unknown id adds no name |
| Report.NameOfKnown | src/components/ShareButton.tsx:52 | a known id with named players gives that player's name |
| Report.NamesOfKnown | src/components/ShareButton.tsx:51-55 | known ids with named players give one name per id, in order |
| Report.NamesOfSnoc | src/components/ShareButton.tsx:51-55 | appending an id adds its name when non-empty |
| Report.DescriptionPart | src/components/ShareButton.tsx:41-43 | the description part is empty exactly when the description is |
| Report.DividePart | src/components/ShareButton.tsx:46-57 | the "Chia cho" line appears exactly when 0 < divide-set size < number of players |
| Report.AmountFor | src/components/ShareButton.tsx:76 | a player missing from the split is shown 0, others their share |
| Report.Entry | src/components/ShareButton.tsx:37-59 | one numbered expense: number, type label, amount, the description when non-empty and the "Chia cho" line when it shows; built by `Report.BuildEntry`, one per expense in order (`Report.EntriesSnoc`) |
| Report.ByName | src/components/ShareButton.tsx:71-73 | the players, permuted into collation order |
| Report.ShareTitle | src/components/web/WebShareButton.tsx:88-91 | the title is the fixed text followed by the formatted date |
| Report.Header | src/components/ShareButton.tsx:23-31 | the title, date, time, location, number of players and the notes line when there are notes; built by `Report.AppendHeader` |
| Report.ReportText | src/components/ShareButton.tsx:23-78 | the header, the numbered entries, the total and one line per player in collation order; built by `Report.PrepareMessage` and sent on every share route (`Report.ShareWeb`) |
| Report.NumberedIsFrom | src/components/ShareButton.tsx:36-60 | the entries are numbered from 1 |
| Report.EntriesNumbered | src/components/ShareButton.tsx:36-60 | the first expense is entry 1 and the rest follow from 2 |
| Report.EntriesSnoc | src/components/ShareButton.tsx:36-60 | one more expense appends exactly one entry, numbered next |
| Report.OneLinePerPlayer | src/components/ShareButton.tsx:75-78 | the player lines are one line per player, in order |
| Report.BuildEntry | src/components/ShareButton.tsx:37-59 | one expense's entry is the specification's entry text |
| Report.AppendEntries | src/components/web/WebShareButton.tsx:44-68 | the loop appends exactly the numbered entries |
| Report.AppendPlayerLines | src/components/web/WebShareButton.tsx:81-86 | the loop appends exactly one line per sorted player |
| Report.AppendHeader | src/components/web/WebShareButton.tsx:28-39 | the header lines, with the notes line only for non-empty notes |
| Report.PrepareMessage | src/components/web/WebShareButton.tsx:27-92 | the message is the report text and the title the share title; the native button writes out the same steps |
| Report.ShareNative | src/components/ShareButton.tsx:17-88 | the native button sends the report and title to the share sheet |
| Report.ShareWeb | src/components/web/WebShareButton.tsx:94-125 | elsewhere than the web the share sheet; on the web the Web Share dialog if present, else the clipboard; the same report text on every route |
| DatePicker.FormatTime | src/components/web/WebDateTimePicker.tsx:27-29 | five characters: two digits of the hour, ':', two digits of the minute |
| DatePicker.TimeChange | src/components/web/WebDateTimePicker.tsx:46-51 | the time typed as "H:M" sets hour and minute; typing back the shown time changes nothing (`DatePicker.TimeRoundTrip`), and text without ':' keeps the value (`DatePicker.TimeNoColon`) |
| DatePicker.DateChange | src/components/web/WebDateTimePicker.tsx:36-44 | the picked day at the value's hour and minute (`DatePicker.DateKeepsClock`), the value itself without a date |
| DatePicker.HandleChange | src/components/web/WebDateTimePicker.tsx:31-64 | empty text reports nothing; date text keeps the value's clock on the picked day; time text sets hour and minute |
| DatePicker.TimeRoundTrip | src/components/web/WebDateTimePicker.tsx:27-51 | typing back the shown time gives the same hour and minute on the value's day, seconds kept |
| DatePicker.TimeDigits | src/components/web/WebDateTimePicker.tsx:46-51 | "H:M" with in-range digit parts sets that hour and minute on the same day |
| DatePicker.TimeNoColon | src/components/web/WebDateTimePicker.tsx:46-48 | text without ':' keeps the value |
| DatePicker.TimeNotNumber | src/components/web/WebDateTimePicker.tsx:49 | an hour part that is not a number reads as 0 |
| DatePicker.DateKeepsClock | src/components/web/WebDateTimePicker.tsx:36-44 | date text moves to the picked day at the value's hour and minute with seconds zeroed; text that is not a date keeps the value |
| Clock.DayStart | src/screens/NewSessionScreen.tsx:206-210 | a day's start is a whole day at or before the time, less than a day away |
| Clock.Hours | src/components/web/WebDateTimePicker.tsx:27 | `getHours` lies in 0..23 |
| Clock.Minutes | src/components/web/WebDateTimePicker.tsx:28 | `getMinutes` lies in 0..59 |
| Clock.ClockFields | src/components/web/WebDateTimePicker.tsx:40 | a time assembled from day, hour, minute and rest reads back each part |
| Clock.FieldsOf | src/components/web/WebDateTimePicker.tsx:27-29 | a time is its day, hour, minute and the rest of the minute |
| Clock.SetHours | src/components/web/WebDateTimePicker.tsx:49 | `setHours`: the hour of the day becomes the given one (an out-of-range hour moves to another day), minutes, seconds and milliseconds kept; reads back as set for an in-range hour (`Clock.SetHoursReads`) |
| Clock.SetMinutes | src/components/web/WebDateTimePicker.tsx:50 | `setMinutes`: the minute of the hour becomes the given one (an out-of-range minute moves to another hour), seconds and milliseconds kept; reads back as set for an in-range minute (`Clock.SetMinutesReads`) |
| Clock.SetHoursReads | src/components/web/WebDateTimePicker.tsx:49 | `setHours` with an in-range hour sets the hour and keeps minute, day and rest |
| Clock.SetMinutesReads | src/components/web/WebDateTimePicker.tsx:50 | `setMinutes` with an in-range minute sets the minute and keeps hour, day and rest |
| Text.Pad2 | src/components/web/WebDateTimePicker.tsx:27-29 | `padStart(2, "0")` of a number below 100 is two digits with that value |
| Text.ShowNatValue | src/screens/StatsScreen.tsx:48 | a number's numeral reads back as the number |
| Text.KeepDigits | src/screens/NewSessionScreen.tsx:496 | the result is digits only, no longer, and a digit string is kept |
| Text.KeepDigitsIdempotent | src/screens/EditSessionScreen.tsx:571-576 | sanitising twice is sanitising once |
| Text.Trim | src/screens/NewSessionScreen.tsx:155 | the trimmed text occurs in the text and neither end is white space |
| Text.TrimBlank | src/screens/EditSessionScreen.tsx:316 | trimming gives "" exactly for all-white-space text |
| Text.TrimIdempotent | src/screens/EditSessionScreen.tsx:353 | trimming twice is trimming once |
| Text.Contains | src/screens/HomeScreen.tsx:69-77 | `includes`: holds exactly when the needle occurs at some position (`Text.ContainsIffOccurs`) |
| Text.ContainsIffOccurs | src/screens/HomeScreen.tsx:69-77 | `includes` holds exactly when the needle occurs at some position |
| Text.IndexOf | src/components/web/WebDateTimePicker.tsx:46 | none exactly when the character is absent, otherwise its first position |
| Text.Split | src/components/web/WebDateTimePicker.tsx:46 | a split has at least one part |
| Text.SplitAt | src/components/web/WebDateTimePicker.tsx:46 | text up to the first separator is the first part |
| Text.SplitPair | src/components/web/WebDateTimePicker.tsx:46 | two separator-free parts joined by the separator split back into them |
| Text.ParseInt | src/components/web/WebDateTimePicker.tsx:49-50 | a number exactly when a digit follows the optional sign |
| Text.ParseIntDigits | src/components/web/WebDateTimePicker.tsx:49-50 | a digit string reads as its decimal value |
| Text.ParseFloat | src/screens/EditSessionScreen.tsx:343-345 | `parseFloat` of a plain decimal: a digit string reads as its value (`Text.ParseFloatDigits`), and "abc" or "." is not a number (`SessionForm.ParseFloatLetters`) |
| Text.ParseFloatDigits | src/screens/EditSessionScreen.tsx:343-345 | a digit string reads as its decimal value |
| Sorting.SortDesc | src/screens/HomeScreen.tsx:103-136 | the sort is a permutation |
| Sorting.SortDescSorted | src/screens/HomeScreen.tsx:103-136 | the sorted list is in non-increasing key order |
| Sorting.SortDescStable | src/screens/HomeScreen.tsx:103-136 | elements with equal keys keep their relative order |
| Sorting.SortDescOfSorted | src/screens/HomeScreen.tsx:133-134 | a list already in order is left as it is |
| Sorting.SumByPermutation | src/screens/StatsScreen.tsx:205 | a sum does not depend on the order of the rows |

## Left out

- Storage I/O is synchronous in the model; `async`/`await` and JSON (de)serialisation are not modelled, and serialisation is taken to round-trip exactly.
- Two read-modify-write callers racing each other (the last write wins) is concurrency and is not modelled.
- Amounts are exact reals, not IEEE doubles: rounding noise is not modelled.
- NaN is modelled as an absent value (`None`). The only place this matters is the court-fee finding below. On submit, a rate text that is not a number is saved as no rate (`SessionForm.RateValue`), where the application would store NaN (serialised as null).
- `parseFloat` is modelled for plain decimals only; its exponent and `Infinity` forms are not part of this model.
- Strings are sequences of characters, not of UTF-16 code units; lengths of text containing characters outside the Basic Multilingual Plane would differ.
- `Date` is taken to be a millisecond timestamp in a local time with a fixed offset. Time zones and daylight saving changes are not modelled, so `subDays` subtracts whole 24-hour days.
- The calendar month of a timestamp (`getMonth`/`getFullYear`) is a parameter, `calendar`.
- Reading a date string into a timestamp (`new Date(text)`) is a parameter, `parseDate`.
- Date-mode `formatValue` (`toISOString`) is formatting, not part of this model.
- Invalid dates (`NaN` times) from out-of-range picker values are not modelled; the picker's `isNaN` check at `WebDateTimePicker.tsx:55` therefore always passes.
- `formatCurrency`, date-fns `format`, `localeCompare`, `toLowerCase` and `toString` of a rate are parameters with no properties assumed.
- `localeCompare` is read as comparing a real-valued collation rank, so ties sort in input order.
- `generateId` (random and clock based) is a parameter: the caller supplies the new id.
- The order of `Object.keys`/`Object.values` is the order keys were first inserted; numeric-looking ids, which JavaScript would list first, are not distinguished.
- In-place sorts (`Array.prototype.sort` on the loaded list) are modelled as reassignment of a sequence with a stable insertion sort, so aliasing of the sorted array is not modelled.
- Alerts, navigation (`goBack`), loading spinners apart from the `isLoading` flag, and all rendering are left out; a refused action returns an error value instead of an alert.
- The platform's share sheet, `navigator.share` and the clipboard are left out; `Report.ShareWeb` returns which of them the report goes to.
- `loadPlayers` and every other screen's call to `getPlayers` is modelled by the players passed to the forms' constructors.
- The duration text rendered for each session in the home list is rendering and not modelled.
- Payment.ShowShortfall: the panel's total need not equal the sum of its rows' shares. The divide-set picker lists every known player (`src/screens/NewSessionScreen.tsx:516`), while the detail screen passes rows for the session's players only (`src/screens/SessionDetailScreen.tsx:288-294`). An expense divided only among players outside the session is charged to nobody, so the total can exceed the shares, and the note then shows with everyone paid (`Payment.ShortfallWhileAllPaid`). The note staying hidden once everyone is paid is promised only when the total equals the shares (`Payment.ShortfallMeaning`).
- Payment.CollectedBounds: bounds what is collected by the sum of the shares, not by the panel's total, for the same reason; a remainder that is not negative is promised only when the total is at least that sum (`Payment.RemainingNonNegative`).
- SessionForm.Form.AddCourtFeeFromRate: uses the corrected checks, so rate text that is not a number is refused as an invalid rate, where the application appends a court-fee expense with a NaN amount (see ## Findings).
- SessionForm.CourtFeeOutcome: the same corrected checks, so it never yields the NaN-amount expense the application adds for rate text that is not a number (see ## Findings).

## Findings

| source | as written | input that shows it | evidently intended | confidence | as-written member | corrected member |
|---|---|---|---|---|---|---|
| src/screens/NewSessionScreen.tsx:234-252 | the refusals test `parseFloat(rate) <= 0` and `fee <= 0`, both false for NaN; the rate input (`NewSessionScreen.tsx:381-386`) is not sanitised | rate text "." or "abc" with an end time whose time of day differs from the date's (a non-zero duration) | rate text that is not a number is refused like a non-positive rate, and no expense with a NaN amount is added | not executed | SessionForm.NaNRateSlipsThrough | SessionForm.CourtFeeCheckSound |

The corrected checks, `SessionForm.CourtFeeCheck`, are the ones `SessionForm.Form.AddCourtFeeFromRate` uses (`SessionForm.CourtFeeOutcome`).
The edit screen does not have the bug once its rate is edited: the input then keeps digits only (`EditSession.DigitRateHasFee`). Until then it holds the seeded rate, the numeral of a stored number (`EditSession.SeededRate`); the numeral is spelt by `toString`, which is a parameter of this model, so the model does not prove that this text reads back as a number.
