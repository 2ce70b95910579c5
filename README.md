# Taiwan–Japan flight ticket price judge, modelled in Dafny

The system judges a quoted economy fare on the Taipei (TPE) – Tokyo Narita
(NRT) route. It compares the fare with the historical sample of fares for the
same direction and departure-time slot (早 morning, 午 noon, 晚 evening), and
for the same season (旺 peak, 淡 off-peak) when the traveller knows it.

`build_thresholds` turns the cleaned fare records into two tables of quartile
bands (p25, p50, p75):

- a seasonal table, grouped by departure, arrival, season and slot;
- a general table, grouped by departure, arrival and slot.

`judge_price` finds the matching row and puts the fare into one of four tiers:

- very cheap (非常便宜);
- cheap or fair (偏便宜或合理價);
- expensive (偏貴);
- very expensive (很貴).

When no row matches, it reports that there is no sample.

The console code around it contributes a few pure rules:

- `to_half_width` converts full-width characters to half-width;
- `auto_arr` picks the other end of the route;
- `input_price` accepts only positive prices;
- `ticket_judge_loop` picks the table: seasonal when the season is known,
  general otherwise.

The project has six modules, one per concern:

- `Strings` (strings.dfy): `Option`, Python's `str.strip()` and Python's
  string order.
- `Sorting` (sorting.dfy): the order statistics of a group's prices.
- `Quantiles` (quantiles.dfy): pandas' linear-interpolation quartiles, in
  exact `real` arithmetic.
- `Thresholds` (thresholds.dfy): the records, the group keys, the two tables
  and `BuildThresholds`.
- `Judge` (judge.dfy): `ClassifyTimeSlot`, `NormalizeSeason` and `JudgePrice`
  with its structured `Judgement`, and what judging against a built table
  gives.
- `Console` (console.dfy): `ToHalfWidth` (a loop method), `AutoArr`,
  `AcceptPrice`, `Dispatch`, and the lemmas that connect a query to the
  records the tables were built from.

Some modelling choices:

- **A table is a sequence of rows in ascending key order.** pandas' `groupby`
  sorts the group keys, and `reset_index` lays the rows out in that order.
  `judge_price` reads the first matching row, so this order decides which
  band it uses when several rows match.
- **Key order is Python's.** Keys are compared field by field, each field as
  a Python string. The slot field holds the mapped labels, so the slots sort
  Evening < Morning < Noon.
- **Quartiles are exact.** A quartile sits at rank (n-1)·k/4 in the sorted
  sample and is interpolated between the two neighbouring values. Prices are
  integers, so every quartile is an exact rational.
- **Displayed values are truncated.** `int()` on a band value truncates
  toward zero; `Trunc` models that.

Behaviours of the code worth knowing:

- **Seasons.** Any season string in the data forms its own group; the code
  does not restrict seasons to 旺/淡.
- **Prices.** Prices are not required to be positive; `load_data` only drops
  prices it cannot read as numbers.
- **A fare equal to p75.** Such a fare is "expensive" only when p50 < p75.
  When p50 = p75 the `<=` chain places it one or two tiers cheaper: it is
  very cheap when p25 = p75, as in every one-fare group. It is never
  "very expensive" (`Judge.TierTies`).
- **The seasonal table without a season.** When it is queried with no season
  (or with 不知道), several rows can match. The code uses the first one,
  which is the row with the smallest season string
  (`Judge.FirstMatchSmallestSeason`).

## Model

| member | source | states |
|---|---|---|
| `Strings.Strip` | statsvv.py:86 | the result is a slice `s[i..j]` of the input: everything before `i` and from `j` on is whitespace (Python's `isspace` set), and the result has no whitespace at either end |
| `Strings.StripIdempotent` | statsvv.py:86 | stripping an already stripped string changes nothing |
| `Strings.StripPadded` | statsvv.py:86 | any whitespace around a non-empty trimmed word is removed exactly, leaving the word |
| `Strings.StrLessTotal` | statsvv.py:40 | Python's string order, used to sort group keys, is total on distinct strings |
| `Sorting.Sort` | statsvv.py:41 | the prices in ascending order, as a permutation (same multiset) of the input |
| `Sorting.SortedUnique` | statsvv.py:41 | two ascending sequences with the same multiset are equal, so the order statistics are well defined |
| `Sorting.SortEnds` | statsvv.py:41 | the first and last order statistics are the group's minimum and maximum price |
| `Quantiles.Interpolate` | statsvv.py:41 | interpolating a quarter, half or three quarters of the way from a to b stays between a and b, and a zero fraction gives a |
| `Quantiles.ValueAtRank` | statsvv.py:41 | linear interpolation at rank r/4 between `v[r/4]` and the next value lies between the sample's minimum and maximum |
| `Quantiles.Quantile` | statsvv.py:41 | the k/4 quantile at rank (n-1)·k/4 lies between the smallest and largest sorted price |
| `Quantiles.QuantileMonotone` | statsvv.py:41 | a higher quantile of a sorted sample is never smaller |
| `Quantiles.Quartiles` | statsvv.py:39-44 | the band of a non-empty group satisfies min ≤ p25 ≤ p50 ≤ p75 ≤ max of its prices |
| `Quantiles.QuartilesOrderIndependent` | statsvv.py:40-41 | two price lists with the same multiset give the same band, so record order does not matter |
| `Quantiles.QuartilesSingle` | statsvv.py:41 | a one-fare group has p25 = p50 = p75 = that fare |
| `Quantiles.QuartilesOfTwoSorted` | statsvv.py:41 | two fares a ≤ b give a+(b-a)/4, (a+b)/2, a+3(b-a)/4 |
| `Quantiles.QuartilesOfThreeSorted` | statsvv.py:41 | three ascending fares give the two gap midpoints around the middle fare |
| `Quantiles.QuartilesExampleThree` | statsvv.py:41 | fares 5000, 7000, 9000 give 6000 / 7000 / 8000 |
| `Quantiles.QuartilesExampleShuffled` | statsvv.py:40-41 | the same fares in the order 9000, 5000, 7000 give the same band |
| `Quantiles.QuartilesExampleTwo` | statsvv.py:41 | fares 1 and 2 give 1.25 / 1.5 / 1.75, which are not integers |
| `Thresholds.KeyOf` | statsvv.py:38-48 | a record's seasonal key carries its departure, arrival, season and slot; its general key the same without the season |
| `Thresholds.KeyLess` | statsvv.py:40 | the order groupby sorts keys in: strict, departure first, then arrival (then season and slot label) |
| `Thresholds.GroupKeys` | statsvv.py:40 | the group keys are strictly ascending, and a key is present iff some record falls in that group |
| `Thresholds.GroupPrices` | statsvv.py:40 | a group's price list is no longer than the sample |
| `Thresholds.GroupPricesNonEmpty` | statsvv.py:40 | a group's price list is non-empty iff some record has that key |
| `Thresholds.GroupPricesCount` | statsvv.py:40 | each price occurs in a group exactly as many times as records of that group carry it, so repeated fares are kept |
| `Thresholds.GroupPricesMembers` | statsvv.py:40 | a price is in a group iff some record with that key has that price |
| `Thresholds.GroupPricesPermutation` | statsvv.py:40 | permuting the records permutes each group's prices (same multiset) |
| `Thresholds.AscendingUnique` | statsvv.py:40-45 | a strictly ascending key sequence is fixed by its set of keys, so row order is determined |
| `Thresholds.BuildTable` | statsvv.py:39-45 | one grouping: rows strictly ascending by key, a row for key k iff some record has key k, and each row's band is the quartiles of its group's non-empty price list |
| `Thresholds.BuildThresholds` | statsvv.py:31-57 | the first table has the season column and the second does not; their keys are exactly the seasonal and the general keys of the records |
| `Thresholds.BandsWithinGroup` | statsvv.py:38-55 | every row of either table has min ≤ p25 ≤ p50 ≤ p75 ≤ max over its group's prices |
| `Thresholds.TableKeys` | statsvv.py:38-55 | (dep, arr, season, slot) is a seasonal key iff a record has exactly those fields; (dep, arr, slot) is a general key iff a record has those three |
| `Thresholds.GeneralIsProjection` | statsvv.py:38-55 | the general keys are the seasonal keys with the season dropped |
| `Thresholds.EmptySampleEmptyTables` | statsvv.py:31-57 | an empty sample gives two empty tables |
| `Thresholds.BuildOrderIndependent` | statsvv.py:31-57 | two samples with the same multiset of records give identical tables |
| `Judge.ClassifyTimeSlot` | statsvv.py:61-81 | the result is None or one of 早, 午, 晚 |
| `Judge.TimeSlotBuckets` | statsvv.py:68-81 | hours 6-9 map to 早, 10-14 to 午, 15-20 to 晚 (each both ways); hours 0-5 and 21-23 and unparsable input map to None |
| `Judge.TimeSlotIgnoresMinutes` | statsvv.py:68-81 | the slot does not depend on the minute |
| `Judge.TimeSlotExamples` | statsvv.py:70-81 | 09:59 maps to 早, 10:00 to 午 and 21:00 to None |
| `Judge.SeasonWord` | statsvv.py:87-93 | the synonym table maps a stripped word to None or one of 旺, 淡, 不知道 |
| `Judge.SeasonWordTable` | statsvv.py:87-93 | the table read both ways: each canonical season comes exactly from its listed synonyms, and None exactly from a word outside all lists |
| `Judge.NormalizeSeason` | statsvv.py:85-93 | the result is None or one of 旺, 淡, 不知道 |
| `Judge.NormalizeSeasonTable` | statsvv.py:86-93 | after stripping: {旺, 旺季} iff 旺; {淡, 淡季} iff 淡; {不知道, 不確定, ?, NA, na} iff 不知道; any other word iff None, so it is never taken for 不知道 |
| `Judge.NormalizeSeasonIdempotent` | statsvv.py:85-93 | normalising a canonical season returns it unchanged |
| `Judge.NormalizeSeasonPadded` | statsvv.py:86-88 | 旺季 with any whitespace around it normalises to 旺 |
| `Judge.NormalizeSeasonRejectsNa` | statsvv.py:86-93 | "Na" is rejected: the vocabulary is matched exactly, with no case folding |
| `Judge.TimeKey` | statsvv.py:105-106 | 早 becomes Morning, 午 Noon and 晚 Evening; any other string is passed through unchanged |
| `Judge.TimeKeyOfLabel` | statsvv.py:105-112 | 早, 午 and 晚 translate to the labels of the morning, noon and evening slots, and each to exactly one slot |
| `Judge.SeasonFilter` | statsvv.py:115-116 | a season condition is added iff the table has the season column and the season is 旺 or 淡, and it is that season |
| `Judge.Matches` | statsvv.py:109-116 | the row condition; a time key other than the three table labels (a slot word the map does not know) matches no row |
| `Judge.MatchesSlot` | statsvv.py:109-116 | matching a slot's label is matching that slot: same departure, arrival and slot, and the season when filtered |
| `Judge.FirstMatch` | statsvv.py:119-126 | the index returned is a matching row with no matching row before it, and None means no row matches |
| `Judge.TierOf` | statsvv.py:128-139 | for any band: very cheap iff price ≤ p25, very expensive iff price exceeds all three cut points, cheap-or-fair only at most p50, expensive only in (p50, p75] |
| `Judge.TierIntervals` | statsvv.py:128-139 | on an ordered band: very cheap iff price ≤ p25; cheap or fair iff p25 < price ≤ p50; expensive iff p50 < price ≤ p75; very expensive iff price > p75 |
| `Judge.TierTies` | statsvv.py:128-139 | a price equal to p25 is very cheap; one equal to p75 is never very expensive, and is expensive when p50 < p75 |
| `Judge.TierMonotone` | statsvv.py:128-139 | a higher price never gets a cheaper tier, whatever the band |
| `Judge.TierExamples` | statsvv.py:128-139 | against 6000/7000/8000: 6000 is very cheap, 6001 cheap or fair, 8000 expensive, 8001 very expensive |
| `Judge.Trunc` | statsvv.py:145 | truncation toward zero: n ≤ x < n+1 for x ≥ 0 and n-1 < x ≤ n for x < 0 |
| `Judge.TruncExamples` | statsvv.py:145 | 1.75 is shown as 1 (not 2) and -1.75 as -1 |
| `Judge.ShownBandAgrees` | statsvv.py:128-145 | for non-negative quartiles, the printed truncated band puts every integer price in the same tier as the exact band |
| `Judge.JudgePrice` | statsvv.py:97-148 | no sample iff no row matches dep, arr, translated slot (and season when filtered); otherwise the first matching row's band, the query echoed, tier = the band's tier for the price, shown band = truncations |
| `Judge.FirstMatchSmallestSeason` | statsvv.py:119-126 | on an ascending table with no season filter, the row used has a smaller season than every other matching row |
| `Judge.VerdictBandOrdered` | statsvv.py:124-126 | a verdict from a built table carries an ordered band p25 ≤ p50 ≤ p75 |
| `Judge.JudgeEmptyTable` | statsvv.py:119-122 | an empty table gives no sample for every query |
| `Judge.MatchesOnlyItsKey` | statsvv.py:109-116 | in a built table, a row matches a query iff its key is exactly the query's group key |
| `Judge.JudgeBuiltTable` | statsvv.py:97-126 | against a built table: no sample iff the query's group is empty; otherwise band and tier come from that group's quartiles |
| `Console.HalfWidthChar` | mainvv.py:24-32 | the converted character is never full-width; a full-width one becomes printable ASCII (32-126); any other character is unchanged |
| `Console.ToHalfWidth` | mainvv.py:18-34 | the output has the input's length, and each character is the conversion of the input character at that position |
| `Console.HalfWidthCodes` | mainvv.py:24-32 | codes 65281-65374 drop by 65248; 12288 becomes a space; anything else is unchanged |
| `Console.HalfWidthIdempotent` | mainvv.py:18-34 | converting a converted string again changes nothing, and no full-width character is left |
| `Console.HalfWidthExample` | mainvv.py:18-34 | full-width ＴＰＥ followed by an ideographic space becomes "TPE " |
| `Console.AutoArr` | mainvv.py:48-52 | the arrival is always TPE or NRT |
| `Console.AutoArrRoute` | mainvv.py:48-52 | TPE goes to NRT and anything else to TPE; for TPE and NRT the arrival is the other airport, and applying the rule twice returns to the start |
| `Console.AcceptPrice` | mainvv.py:93-97 | a price is accepted iff it is > 0, and is then returned unchanged |
| `Console.Dispatch` | mainvv.py:120-133 | season 旺 or 淡 queries the seasonal table with that season; any other season queries the general table with no season |
| `Console.DispatchOnBuiltTables` | mainvv.py:120-133 | with the tables built from the records, no sample iff no record has the query's dep, arr and slot (and season, when known); otherwise the verdict uses exactly that group's quartiles |
| `Console.DispatchExample` | mainvv.py:108-133 | with three TPE→NRT peak morning fares 5000/7000/9000, a 6000 fare is very cheap and the band is shown as 6000/7000/8000 |

## Left out

- EmptySampleEmptyTables: on an empty sample `build_thresholds` most likely raises a ValueError at statsvv.py:44 (after `unstack()` there are no quantile columns to rename). The model returns two empty tables instead and does not model that error.
- `load_data` (statsvv.py:8-28) is not modelled. It reads the CSV, strips fields, coerces prices, drops unreadable prices and maps the slot labels. The model takes the cleaned records as given: `FareRecord` has an integer price and a `Slot` that is one of the three mapped labels. A record whose slot does not map is NaN in pandas and never enters a group, so it has no `FareRecord`.
- `show_summary_plots` (statsvv.py:152-175) is not modelled. It is matplotlib rendering.
- The console loops are not modelled: `input_dep`, `input_date_str`, `input_time_and_slot`, `input_season`, `input_price`, the I/O of `ticket_judge_loop`, and `main`. They only prompt, print and retry. Their decision rules are modelled: `NormalizeSeason`, `ClassifyTimeSlot`, `AcceptPrice`, `AutoArr`, `Dispatch` and `ToHalfWidth`.
- `int(price_str)` in `input_price` is not modelled. `AcceptPrice` starts from the parsed integer.
- `str.upper()` in `input_dep` is not modelled. It is Python's Unicode case mapping.
- `input_dep`'s acceptance of only TPE or NRT is not modelled as a member. `AutoArrRoute` states what `auto_arr` does on those two inputs and on any other.
- The date check in `input_date_str` is not modelled. It is `strptime` calendar validation, and the date plays no part in the verdict.
- The internals of `strptime` in `classify_time_slot` are not modelled. `ClockTime` is the parse outcome: an hour and a minute, or `Unparsable`.
- The text `judge_price` returns (statsvv.py:122, 141-148) is not modelled. The result is the `Judgement` value. The advice sentence is not a field of the verdict, because each tier has exactly one advice sentence.
- Floating-point rounding in pandas/numpy interpolation is not modelled. Quartiles are exact rationals in `real`.
- Non-string and NaN values in the categorical columns are not modelled. Every key field is a string.
