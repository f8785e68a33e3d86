# RFM analytics and the rates-ratio test, modelled in Dafny

This project models two pure functions from a small Python analytics toolkit (pandas, NumPy and SciPy):

- `rfm` (rfm.py) turns a transaction table into one row per user. Rows whose user id is null are dropped. Each user's row holds three scores:
  - **recency**: days from the user's latest transaction date to `today`;
  - **frequency**: the number of distinct checkout ids;
  - **monetary**: the sum of prices.

  The three per-user tables are then merged on the user id.
- `rates_ratio_test` (stat_inference.py) tests a null hypothesis about the ratio `oec_b / oec_a` of two success rates. It runs in order:
  1. It checks that all four counts are present.
  2. It normalises `ratio_hypo` into a pair `(r1, r2)`, raising a type error or a value error when the argument is refused.
  3. It computes both rates.
  4. Behind a large-sample gate, it builds a Wald-type confidence interval on the log scale.
  5. It rejects when the observed ratio lies outside that interval.

Files:

- `wrappers.dfy`: `Option` and `Result`.
- `rfm.dfy` (module `Rfm`):
  - a `Row` is one transaction after the column projection;
  - `ComputeRfm(rows, today)` is the returned table, as a map from user id to `Scores`;
  - `Recencies`, `Frequencies` and `Monetaries` are the three grouped tables, and `Join` is the merge on `user_id`.
- `rates_ratio.dfy` (module `RatesRatio`):
  - `RatesRatioTest` is the function with its evident intent;
  - `RatesRatioTestAsWritten` is the code exactly as written (see "## Findings");
  - the errors the code raises are `Err` values of `TestError`.

Dates are integer day numbers and prices are `real`. The floating-point functions the interval needs come in as a caller-supplied `Numerics` record: `np.log`, `np.exp`, the square root and `st.norm.ppf`. So the proofs cover the control flow, the arithmetic on rates and the shape of the interval, but not the numeric values of its endpoints.

rfm.py:20 reads a global `df` that the function never defines; its parameter is `df_raw`. The model reads the table passed in, which is evidently what was meant.

The two `pd.merge` calls (rfm.py:40-41) are inner joins. All three tables have exactly the key set "users with a non-null id", proved as `Rfm.TablesShareKeys`, so an inner and an outer merge give the same result here.

## Model

| member | source | states |
|---|---|---|
| Rfm.ComputeRfm | rfm.py:4-43 | the returned table; its key set is stated by Rfm.RfmKeys and Rfm.OneEntryPerUser, and each user's scores by Rfm.ScoresOf |
| Rfm.Recencies | rfm.py:25-28 | recency_df; its keys are stated by Rfm.TablesShareKeys and its values by Rfm.TableEntries and Rfm.RecencyIsDaysSinceLast |
| Rfm.Frequencies | rfm.py:30-33 | frequency_df; its keys are stated by Rfm.TablesShareKeys and its values by Rfm.TableEntries and Rfm.FrequencyIsDistinctCheckouts |
| Rfm.Monetaries | rfm.py:35-38 | monetary_df; its keys are stated by Rfm.TablesShareKeys and its values by Rfm.TableEntries and Rfm.MonetaryIsRowSum |
| Rfm.NonNull | rfm.py:25 | `data_df[data_df.user_id.notnull()]`; its rows are stated by Rfm.NonNullMembers and Rfm.NonNullAppend |
| Rfm.OfUser | rfm.py:26 | one `groupby('user_id')` group; its rows are stated by Rfm.OfUserMembers and Rfm.OfUserCounts |
| Rfm.LastDay | rfm.py:27 | the group's `max()` date; stated by Rfm.LastDayIsMax, Rfm.LastDayAppend and Rfm.LastDaySameRows |
| Rfm.Checkouts | rfm.py:32 | the distinct checkout ids `nunique` counts; stated by Rfm.CheckoutsBound, Rfm.CheckoutsAppend and Rfm.GroupCheckouts |
| Rfm.Total | rfm.py:37 | the row-wise price `sum()`; stated by Rfm.TotalAppend, Rfm.TotalRemove and Rfm.TotalPermutation |
| Rfm.Users | rfm.py:25-26 | the groupby key set: exactly the ids some row carries; stated by Rfm.GroupNonEmpty, Rfm.UsersOfNonNull, Rfm.UsersAppend and Rfm.OneEntryPerUser |
| Rfm.EntryOf | rfm.py:27-37 | the scores triple of one user's group; related to the output by Rfm.EntryFromGroup, and to one more row by Rfm.EntryAppend |
| Rfm.SingletonEntry | rfm.py:27-37 | a one-row group scores (today minus its day, 1, its price) |
| Rfm.MultisetRemove | rfm.py:37 | taking one row out of a group takes exactly one occurrence out of its multiset |
| Rfm.TotalCons | rfm.py:37 | a row placed between two parts of a group adds its price to the sum of the parts |
| Rfm.RowCount | rfm.py:26 | the size of one user's group; bounds frequency in Rfm.FrequencyIsDistinctCheckouts |
| Rfm.HasCheckout | rfm.py:32 | some row of the user already carries the checkout id; decides the frequency step in Rfm.AppendRowKnownUser |
| Rfm.NonNullMembers | rfm.py:25 | the filtered rows are exactly the rows whose user id is not null |
| Rfm.OfUserMembers | rfm.py:26 | a user's group holds exactly the table rows carrying that user id |
| Rfm.OfUserCounts | rfm.py:26 | a group keeps every row of its user as many times as the table holds it, and no other row |
| Rfm.GroupNonEmpty | rfm.py:25-26 | a user id appears in the table iff its group is non-empty: groupby makes no empty groups |
| Rfm.UsersOfNonNull | rfm.py:25-26 | dropping null-id rows before grouping does not change the set of users |
| Rfm.OfUserOfNonNull | rfm.py:25-26 | grouping after the null filter yields the same group as grouping the whole table |
| Rfm.LastDayIsMax | rfm.py:27 | `max()` of a group's dates is attained by some row and bounds every row |
| Rfm.CheckoutsBound | rfm.py:32 | a group has at most as many distinct checkout ids as rows |
| Rfm.Join | rfm.py:40-41 | the merge on `user_id` has exactly the keys present in both tables, and pairs the two values of each key |
| Rfm.TablesShareKeys | rfm.py:25-38 | recency, frequency and monetary tables all have exactly the users with a non-null id as keys |
| Rfm.RfmKeys | rfm.py:40-41 | the merged table has exactly those users as keys, so no user is lost by the merges |
| Rfm.EntryOfMerge | rfm.py:40-41 | a merged row is the recency, frequency and monetary of the same user |
| Rfm.TableEntries | rfm.py:25-38 | each grouped table's value for a user is the aggregate over that user's rows |
| Rfm.ScoresOf | rfm.py:25-41 | a user's output row is (today minus latest day, distinct checkouts, price sum) of the user's rows |
| Rfm.EntryFromGroup | rfm.py:25-41 | every user with at least one row has an output row computed from that group |
| Rfm.OneEntryPerUser | rfm.py:25-41 | a user has an output row iff some row carries that user id; one row per distinct user |
| Rfm.RecencyIsDaysSinceLast | rfm.py:27 | today minus recency is the latest day among the user's rows: no row is later, and one row has that day |
| Rfm.FutureRowGivesNegativeRecency | rfm.py:27 | a row dated after `today` makes its user's recency negative (nothing clamps it) |
| Rfm.GroupCheckouts | rfm.py:30-32 | the distinct checkouts of a group are the checkout ids of the table rows with that user |
| Rfm.FrequencyIsDistinctCheckouts | rfm.py:30-32 | frequency is the number of distinct checkout ids of the user, between 1 and the user's row count |
| Rfm.MonetaryIsRowSum | rfm.py:35-37 | monetary is the sum of prices over all the user's rows, repeated checkouts included |
| Rfm.NonNullAppend | rfm.py:25 | the null filter distributes over concatenation of tables |
| Rfm.OfUserAppend | rfm.py:26 | grouping distributes over concatenation of tables |
| Rfm.TotalAppend | rfm.py:37 | the sum over concatenated groups is the sum of the sums |
| Rfm.GroupAppend | rfm.py:26 | appending a row extends only its own user's group |
| Rfm.LastDayAppend | rfm.py:27 | appending a row moves the latest day to the row's day only if it is later |
| Rfm.CheckoutsAppend | rfm.py:32 | appending a row adds its checkout id to the distinct set |
| Rfm.UsersAppend | rfm.py:25-26 | appending a row adds its user id to the users, unless the id is null |
| Rfm.EntryAppend | rfm.py:27-37 | the scores of a group plus one row follow from the scores of the group |
| Rfm.AppendRowKeys | rfm.py:25-41 | appending a row with a user id adds exactly that user to the table's keys |
| Rfm.AppendRowOtherUser | rfm.py:25-41 | appending a row leaves every other user's scores unchanged |
| Rfm.AppendRowNewUser | rfm.py:25-41 | a user's first row gives recency today minus its day, frequency 1 and its price |
| Rfm.AppendRowKnownUser | rfm.py:25-41 | a further row makes recency the smaller of old and new, adds 1 to frequency iff the checkout id is new, and adds its price |
| Rfm.RepeatedCheckoutAsymmetry | rfm.py:30-37 | a row repeating one of the user's checkout ids leaves frequency unchanged but still adds its price to monetary |
| Rfm.LastDaySameRows | rfm.py:27 | the latest day depends only on the multiset of a group's rows |
| Rfm.CheckoutsSameRows | rfm.py:32 | the distinct checkouts depend only on the multiset of a group's rows |
| Rfm.TotalRemove | rfm.py:37 | a sum is one row's price plus the sum of the others |
| Rfm.TotalPermutation | rfm.py:37 | the price sum depends only on the multiset of rows |
| Rfm.SameGroupsSameTable | rfm.py:25-41 | tables whose per-user groups hold the same rows give the same output |
| Rfm.PermutationInvariant | rfm.py:25-41 | reordering the input rows does not change the output |
| Rfm.NullRowIgnored | rfm.py:25-38 | a null-id row anywhere in the table does not change the output |
| Rfm.NoUsersNoEntries | rfm.py:25-41 | an empty table, or one with only null ids, gives an empty output |
| Rfm.SingleRowUser | rfm.py:25-41 | a user with one row gets that row's day, frequency 1 and that row's price |
| RatesRatio.AcceptedList | stat_inference.py:66-73 | the list checks; RatesRatio.RawBounds accepts a list exactly when it holds |
| RatesRatio.RawBounds | stat_inference.py:63-75 | a non-list gives r1 = r2 = the value; a list is accepted iff it has 2 entries, not both None, and ordered when both are present; other lengths raise the type error |
| RatesRatio.Classify | stat_inference.py:85-96 | the variant chosen for a pair has that pair as its bounds |
| RatesRatio.Normalise | stat_inference.py:63-75 | accepts exactly what the checks accept, except a non-list None; keeps the accepted bounds and the raised error |
| RatesRatio.WellOrdered | stat_inference.py:71-73 | r1 <= r2 when both are present; every accepted argument normalises to such a hypothesis (RatesRatio.DenoteNormalise) |
| RatesRatio.Denote | stat_inference.py:29-34 | the `ratio_hypo` argument that writes down each documented hypothesis form; inverse of normalisation by RatesRatio.NormaliseDenote and RatesRatio.DenoteNormalise |
| RatesRatio.NormaliseDenote | stat_inference.py:63-75 | the argument that writes down a well-ordered hypothesis normalises back to it |
| RatesRatio.DenoteNormalise | stat_inference.py:63-75 | every accepted argument is the one written for its normal form, and that form is well ordered |
| RatesRatio.ScalarIsPointNull | stat_inference.py:63-65 | a non-list value r gives r1 = r2 = r, a point null, and is never refused |
| RatesRatio.ListHypothesisOutcomes | stat_inference.py:66-75 | the outcome of every list: wrong length, both None, out of order, or the two-sided / upper-only / lower-only hypothesis |
| RatesRatio.DefaultHypothesisIsUpperOnly | stat_inference.py:11 | the default `[None, 2.7]` is the one-sided hypothesis with upper bound 2.7 |
| RatesRatio.Rate | stat_inference.py:77-78 | under true division, num times the rate is the success count |
| RatesRatio.GateAsWritten | stat_inference.py:80 | line 80 as written; related to the intended gate by RatesRatio.GatesCompared |
| RatesRatio.Gate | stat_inference.py:80 | the intended large-sample gate; related to line 80 by RatesRatio.GatesCompared |
| RatesRatio.GatesCompared | stat_inference.py:80 | the intended gate implies the line-80 gate, and equals it together with numB >= 100 |
| RatesRatio.Variance | stat_inference.py:82 | the variance of the log-ratio is non-negative when both rates are proportions and both counts positive |
| RatesRatio.VarianceTerm | stat_inference.py:82 | each group's term of the variance is non-negative for a proportion |
| RatesRatio.Outside | stat_inference.py:100 | the reject condition; characterised by RatesRatio.RejectIffOutsideClosed |
| RatesRatio.InClosed | stat_inference.py:100-103 | membership in [ci_l, ci_u] on extended reals; the complement of the reject condition by RatesRatio.RejectIffOutsideClosed |
| RatesRatio.RateInUnitInterval | stat_inference.py:77-78 | a rate with 0 <= pos <= num is in [0, 1] |
| RatesRatio.RateTimesNum | stat_inference.py:77-78 | num times the rate is the success count |
| RatesRatio.GateDenominators | stat_inference.py:80-82 | past the gate, oec_a > 0 so the ratio is defined, and both variance denominators are at least 5 |
| RatesRatio.WaldIntervalAsWritten | stat_inference.py:85-98 | the interval is left unassigned exactly when both bounds are None |
| RatesRatio.WaldInterval | stat_inference.py:85-96 | ci_l is -inf iff only an upper bound is given, ci_u is +inf iff only a lower bound is given, and never the other way round |
| RatesRatio.ListNeverReachesElsePass | stat_inference.py:66-98 | no list that passes the checks reaches `else: pass` |
| RatesRatio.IntervalAgrees | stat_inference.py:85-98 | the switch over the normalised hypothesis computes the source's interval for its pair (r1, r2) |
| RatesRatio.RejectIffOutsideClosed | stat_inference.py:100-103 | "below ci_l or above ci_u" is "not in the closed interval [ci_l, ci_u]" |
| RatesRatio.Infer | stat_inference.py:81-103 | past the gate: both rates are pos / num, the ratio times oec_a is oec_b, there is an interval, and reject holds iff the ratio is outside the closed interval |
| RatesRatio.RatesRatioTest | stat_inference.py:57-118 | missing counts raise the input error (iff); a result needs an accepted hypothesis and nonzero counts, reports both rates and the hypothesis, has a ratio iff the gate holds, and otherwise no interval and no rejection; a zero count with valid inputs raises ZeroDivisionError |
| RatesRatio.RatesRatioTestAsWritten | stat_inference.py:57-118 | missing counts raise the input error (iff); a zero count with valid inputs raises ZeroDivisionError; every result passed the line-80 gate, reports both rates and the hypothesis, has ratio times oec_a equal to oec_b, and rejects iff the ratio is outside [ci_l, ci_u] |
| RatesRatio.AsWrittenDecidesAtLineGate | stat_inference.py:80-103 | as written, past the line-80 gate (whatever numB), the call returns both rates, the ratio, an interval open below iff r1 is None and open above iff r2 is None, and rejects iff the ratio is outside it |
| RatesRatio.UpperOnlyRejectsAbove | stat_inference.py:89-103 | with only r2, ci_l is -inf, ci_u is finite, and reject iff the ratio exceeds ci_u |
| RatesRatio.LowerOnlyRejectsBelow | stat_inference.py:93-103 | with only r1, ci_u is +inf, ci_l is finite, and reject iff the ratio is below ci_l |
| RatesRatio.DecidesAboveGate | stat_inference.py:77-103 | past the gate: oec_a > 0, ratio times oec_a is oec_b, rates are in (0, 1] when pos <= num, reject iff outside [ci_l, ci_u] |
| RatesRatio.AbstainsBelowGate | stat_inference.py:77-107 | below the gate: both rates, no ratio, no interval, no rejection |
| RatesRatio.ChecksComeFirst | stat_inference.py:57-75 | a missing count fails first in both versions; then a refused hypothesis fails with its own error, before any division |
| RatesRatio.AsWrittenRunsIffGate | stat_inference.py:80-114 | as written, once the checks pass and no count is zero, the call returns iff the line-80 gate holds and some bound is present (so never for `ratio_hypo=None`), and otherwise raises on the unassigned interval |
| RatesRatio.NonListNoneAlwaysRaises | stat_inference.py:63-114 | as written, `ratio_hypo=None` with nonzero counts always ends in the unassigned-interval error, on both sides of the gate |
| RatesRatio.AsWrittenAgreesAboveGate | stat_inference.py:57-118 | where the intended gate holds and the hypothesis is accepted, the code as written and the corrected model agree |
| RatesRatio.WorkedExample | stat_inference.py:77-103 | 50/1000 vs 60/1000 against `[None, 1.5]`: rates 0.05 and 0.06, ratio 1.2, ci_l = -inf, reject iff 1.2 > ci_u |
| RatesRatio.FindingGateIgnoresGroupB | stat_inference.py:80 | numB = 50 passes the code's gate but not the intended one; the code runs the test (ratio 2.4, ci_l = -inf, reject iff 2.4 > ci_u) where the intended gate abstains |
| RatesRatio.FindingAbstainPathRaises | stat_inference.py:104-114 | numA = 50: the code raises on the unassigned ci_l/ci_u, while the corrected test abstains |
| RatesRatio.FindingNonListNone | stat_inference.py:63-100 | `ratio_hypo=None` passes the checks and then raises as written; the corrected test refuses it as a type error |

## Left out

- Floating point: rates, ratios and prices are exact reals. There is no rounding, no NaN and no infinity other than the interval's explicit `Bound` ends. `np.log`, `np.exp`, the square root and `st.norm.ppf` are uninterpreted caller-supplied functions. So the log of a non-positive bound and an alpha outside (0, 1) are not examined; the variance is proved non-negative only when both rates are proportions.
- RatesRatio.WaldInterval and RatesRatio.Infer: proved about the interval's shape and the reject rule only. They say nothing about the numeric endpoints or the coverage of the interval, which depend on the floating-point functions above.
- `str(ratio_hypo)` and `str([ci_l, ci_u])` in the returned dict (stat_inference.py:113-114): the model returns the values, not their string rendering.
- Argument types: counts are integers, and `ratio_hypo` is a non-list (a number or `None`) or a list of numbers or `None`. Other Python values (strings, tuples, NumPy arrays, non-integer counts) are not modelled. A tuple would take the non-list branch.
- `alpha` is not validated by the source, and the model does not validate it either.
- pandas mechanics: the column projection and renaming (rfm.py:20-21), `reset_index`, the column order and the row order of the output. The output is a map keyed by user id.
- Date parsing, `pd.to_datetime` (rfm.py:23, 27): dates are integer day numbers, so `.days` is an exact subtraction.
- Null prices (skipped by `sum`) and null checkout ids (not counted by `nunique`): the model's price and checkout fields are never null. Only the user id is nullable.
- User and checkout ids are integers; only their equality matters.

## Findings

| source | as written | input that shows it | evidently intended | confidence | as-written member | corrected member |
|---|---|---|---|---|---|---|
| stat_inference.py:80 | the gate tests `numA >= 100` twice and never tests `numB` | numA=1000, numB=50, pos_numA=50, pos_numB=6 passes the gate | `numA >= 100 and numB >= 100 and pos_numA >= 5 and pos_numB >= 5` | high; not executed | RatesRatio.FindingGateIgnoresGroupB | RatesRatio.AbstainsBelowGate |
| stat_inference.py:104-114 | below the gate `ci_l` and `ci_u` are never assigned, but line 114 reads them, raising UnboundLocalError; `ratio_ci = None` at line 106 is never used | numA=50, numB=1000, pos_numA=10, pos_numB=60 | report the rates with no ratio, no interval and no rejection | high; not executed | RatesRatio.FindingAbstainPathRaises | RatesRatio.AbstainsBelowGate |
| stat_inference.py:63-100 | a non-list `ratio_hypo=None` gives r1 = r2 = None; it passes every check, reaches `else: pass`, and raises UnboundLocalError at line 100 | numA=numB=1000, pos_numA=50, pos_numB=60, ratio_hypo=None | refuse it as a malformed hypothesis (the type error) | medium; not executed | RatesRatio.FindingNonListNone | RatesRatio.Normalise |
